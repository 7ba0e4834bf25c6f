/**
 * Attachment ingestion for file pages: registers the `attachment` pipeline,
 * rescues the fields already indexed for the page and re-ingests the file
 * unless its sha1 is unchanged.
 */
module FileIndexer {

  import opened Common
  import opened Elastic
  import Indexer

  /** The file namespace (NS_FILE). */
  const NS_FILE := 6

  /** A page as the file indexer receives it; `id` 0 means not yet resolved. */
  datatype FilePage = FilePage(id: int, namespace: int, title: string)

  /** The file behind a page: its full URL and its sha1. */
  datatype File = File(url: string, sha1: string)

  /** The id used for the page: its own id, or the indexer's lookup when it has none. */
  function EffectiveId(id: int, lookupId: int): (r: int)
    ensures id != 0 ==> r == id
    ensures id == 0 ==> r == lookupId
  {
    if id == 0 then lookupId else id
  }

  /** The stored document already carries this file's sha1 (`isset` is false for null). */
  predicate SameSha1(source: map<string, SourceVal>, sha1: string) {
    "file_sha1" in source && source["file_sha1"] == StrVal(sha1)
  }

  /** Whether the file is (re-)ingested. */
  predicate ShouldIngest(noCheck: bool, source: map<string, SourceVal>, sha1: string) {
    noCheck || !SameSha1(source, sha1)
  }

  /** The ingest body: the three file fields, then the rescued fields the array union does not override. */
  function IngestBody(url: string, sha1: string, source: map<string, SourceVal>): (body: map<string, SourceVal>)
    ensures body.Keys == source.Keys + {"file_content", "file_path", "file_sha1"}
    ensures body["file_content"] == FileContent(url) && body["file_path"] == StrVal(url) && body["file_sha1"] == StrVal(sha1)
    ensures forall k :: k in source && k !in {"file_content", "file_path", "file_sha1"} ==> body[k] == source[k]
  {
    source + map["file_content" := FileContent(url), "file_path" := StrVal(url), "file_sha1" := StrVal(sha1)]
  }

  /**
   * The requests `index` sends, given the page, the id lookup, the file
   * (passed in, else found for the title), the rescued `_source` (None when
   * no document exists) and the data index name.
   */
  function IndexRequests(page: FilePage, lookupId: int, given: Option<File>, found: Option<File>,
                         stored: Option<map<string, SourceVal>>, noCheck: bool, index: string): seq<Request>
  {
    var id := EffectiveId(page.id, lookupId);
    if id == 0 || page.namespace != NS_FILE then []
    else
      var file := if given.Some? then given else found;
      if file.None? then [PutAttachmentPipeline]
      else
        var source := if stored.Some? then stored.value else map[];
        if !ShouldIngest(noCheck, source, file.value.sha1) then [PutAttachmentPipeline]
        else [PutAttachmentPipeline, IngestRequest(index, Data, id, IngestBody(file.value.url, file.value.sha1, source))]
  }

  /** Nothing is sent for an unresolved id or a page outside the file namespace. */
  lemma OnlyResolvedFilePages(page: FilePage, lookupId: int, given: Option<File>, found: Option<File>,
                              stored: Option<map<string, SourceVal>>, noCheck: bool, index: string)
    ensures IndexRequests(page, lookupId, given, found, stored, noCheck, index) == [] <==>
      (EffectiveId(page.id, lookupId) == 0 || page.namespace != NS_FILE)
  {
  }

  /** An ingest happens exactly when a file is available and either the check is off or the sha1 differs. */
  lemma IngestIff(page: FilePage, lookupId: int, given: Option<File>, found: Option<File>,
                  stored: Option<map<string, SourceVal>>, noCheck: bool, index: string)
    requires EffectiveId(page.id, lookupId) != 0 && page.namespace == NS_FILE
    ensures var rs := IndexRequests(page, lookupId, given, found, stored, noCheck, index);
      var file := if given.Some? then given else found;
      var source := if stored.Some? then stored.value else map[];
      && rs[0] == PutAttachmentPipeline
      && (|rs| == 2 <==> file.Some? && ShouldIngest(noCheck, source, file.value.sha1))
      && (|rs| == 2 ==>
            (rs[1].IngestRequest? && rs[1].id == EffectiveId(page.id, lookupId)
             && rs[1].body["file_sha1"] == StrVal(file.value.sha1)))
  {
  }

  /** With the check on, an unchanged sha1 skips the ingest; with it off, a found file is always ingested. */
  lemma Sha1Skip(page: FilePage, lookupId: int, given: Option<File>, found: Option<File>,
                 stored: Option<map<string, SourceVal>>, noCheck: bool, index: string)
    requires EffectiveId(page.id, lookupId) != 0 && page.namespace == NS_FILE
    requires given.Some?
    ensures stored.Some? && SameSha1(stored.value, given.value.sha1) && !noCheck ==>
      IndexRequests(page, lookupId, given, found, stored, noCheck, index) == [PutAttachmentPipeline]
    ensures noCheck ==> |IndexRequests(page, lookupId, given, found, stored, noCheck, index)| == 2
  {
  }

  /** A re-ingest keeps the rescued fields other than the three file fields. */
  lemma RescuedFieldsKept(page: FilePage, lookupId: int, f: File, stored: map<string, SourceVal>, noCheck: bool, index: string, k: string)
    requires EffectiveId(page.id, lookupId) != 0 && page.namespace == NS_FILE
    requires ShouldIngest(noCheck, stored, f.sha1)
    requires k in stored && k != "file_content" && k != "file_path" && k != "file_sha1"
    ensures var rs := IndexRequests(page, lookupId, Some(f), None, Some(stored), noCheck, index);
      |rs| == 2 && k in rs[1].body && rs[1].body[k] == stored[k]
  {
  }

  class FileIndexer {
    var noCheck: bool
    var origin: string
    const indexer: Indexer.Indexer

    constructor (indexer: Indexer.Indexer)
      ensures this.indexer == indexer && !noCheck && origin == ""
    {
      this.indexer := indexer;
      noCheck := false;
      origin := "";
    }

    method SetOrigin(o: string)
      modifies this`origin
      ensures origin == o
    {
      origin := o;
    }

    /** `noCheck`: ingest even when the stored sha1 matches. */
    method NoCheck()
      modifies this`noCheck
      ensures noCheck
    {
      noCheck := true;
    }

    /** `planIngestJob` */
    method PlanIngestJob(title: string)
      modifies indexer.jobs
      ensures indexer.jobs.jobs == old(indexer.jobs.jobs) + [FileIngestJob(PageTitle(title))]
    {
      indexer.jobs.Insert(FileIngestJob(PageTitle(title)));
    }

    /**
     * `index`: resolves the id, puts the pipeline, rescues the stored
     * document and ingests the file unless its sha1 is unchanged. Returns
     * the id the page ends up with.
     */
    method Index(page: FilePage, lookupId: int, given: Option<File>, found: Option<File>,
                 stored: Option<map<string, SourceVal>>) returns (id: int)
      modifies indexer.conn`requests
      ensures id == EffectiveId(page.id, lookupId)
      ensures indexer.conn.requests == old(indexer.conn.requests) +
        IndexRequests(page, lookupId, given, found, stored, noCheck, indexer.GetIndexName(Data))
    {
      id := page.id;
      if id == 0 {
        id := lookupId;
      }
      if id == 0 || page.namespace != NS_FILE {
        return;
      }
      var conn := indexer.conn;
      conn.Send(PutAttachmentPipeline);
      var file := given;
      if file.None? {
        file := found;
      }
      if file.None? {
        return;
      }
      var url := file.value.url;
      var sha1 := file.value.sha1;
      var index := indexer.GetIndexName(Data);
      var source: map<string, SourceVal> := map[];
      if stored.Some? {
        source := stored.value;
      }
      var ingest := true;
      if !noCheck && "file_sha1" in source && source["file_sha1"] == StrVal(sha1) {
        ingest := false;
      }
      if !ingest {
        return;
      }
      var body := source + map["file_content" := FileContent(url), "file_path" := StrVal(url), "file_sha1" := StrVal(sha1)];
      conn.Send(IngestRequest(index, Data, id, body));
    }
  }
}
