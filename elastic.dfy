/**
 * The search cluster as the indexer sees it: index names per type, the set of
 * concrete indices and the alias table, the rebuild locks, reachability, and
 * a log of the data requests sent to it. Also the document wire shape and the
 * job queue recovery tasks are written to.
 */
module Elastic {

  import opened Common

  /** The two index types (Client::TYPE_DATA, Client::TYPE_LOOKUP). */
  datatype IndexType = Data | Lookup

  /** The typed fields of a property block. */
  datatype TypeField = WpgField | WpgID | TxtField | UriField | DatField | NumField | BooField | GeoField

  /** Text of a txtField value before `removeLinks(mb_convert_encoding(...))`, both opaque here. */
  datatype TextSource = PlainText(s: string) | NormalizedHash(hash: string)

  /** A value of a typed array; opaque conversions are kept symbolically. */
  datatype FieldVal =
    | TxtVal(text: TextSource)        // removeLinks(utf8(text))
    | UriVal(s: string)
    | FloatVal(sortkey: string)       // (float)o_sortkey
    | BoolVal(b: bool)
    | GeoVal(serialized: Option<string>)
    | SortKeyVal(sortKey: string)     // utf8(sort key of the referenced page)
    | IdVal(id: int)
    | NotAvailable                    // 'n/a'

  /** The sort key stored in a subject block. */
  datatype SortKey = RawSortKey(s: string) | ArmoredSortKey(source: string)  // CharArmor-filtered

  datatype SubjectBlock = SubjectBlock(title: string, subobject: string, namespace: int, interwiki: string, sortkey: SortKey)

  /** One document: the subject block and, per property id, its typed arrays. */
  datatype Doc = Doc(subject: SubjectBlock, props: map<int, map<TypeField, seq<FieldVal>>>)

  /** Where a bulk delete goes: the bulk's head index or an explicit index. */
  datatype Target = HeadIndex | ExplicitIndex(index: string, t: IndexType)

  /** A document id: a plain id or md5 of an id (opaque). */
  datatype DocId = IntId(id: int) | Md5OfId(of: int)

  datatype BulkOp =
    | DeleteOp(target: Target, id: DocId)
    | UpsertStub(stubId: int)           // upsert of { "noop": [] }
    | IndexOp(docId: int, doc: Doc)

  /** A value in a document's `_source` as far as file ingestion needs it. */
  datatype SourceVal = StrVal(s: string) | NullVal | OtherVal(payload: string) | FileContent(url: string)  // base64 of the file

  /** The requests sent to the cluster (admin calls change the state instead). */
  datatype Request =
    | BulkRequest(index: string, t: IndexType, ops: seq<BulkOp>)
    | CreateRequest(index: string, t: IndexType, id: int, nested: SubjectBlock)   // body { subject: { subject: ... } }
    | PutAttachmentPipeline
    | IngestRequest(index: string, t: IndexType, id: int, body: map<string, SourceVal>)  // pipeline 'attachment'

  /** The aliases that survive deleting the indices in `gone`. */
  function Without(aliases: map<string, string>, gone: set<string>): map<string, string> {
    map a | a in aliases && aliases[a] !in gone :: aliases[a]
  }

  /** Deleting two sets of indices one after the other is deleting their union. */
  lemma WithoutTwice(aliases: map<string, string>, g1: set<string>, g2: set<string>)
    ensures Without(Without(aliases, g1), g2) == Without(aliases, g1 + g2)
  {
  }

  class Connection {
    const dataIndex: string
    const lookupIndex: string
    var locks: set<IndexType>
    var reachable: bool
    var indices: set<string>
    var aliases: map<string, string>
    var requests: seq<Request>

    constructor (dataIndex: string, lookupIndex: string, reachable: bool)
      ensures this.dataIndex == dataIndex && this.lookupIndex == lookupIndex && this.reachable == reachable
      ensures locks == {} && indices == {} && aliases == map[] && requests == []
    {
      this.dataIndex := dataIndex;
      this.lookupIndex := lookupIndex;
      this.reachable := reachable;
      locks := {};
      indices := {};
      aliases := map[];
      requests := [];
    }

    /** `getIndexNameByType` */
    function IndexNameByType(t: IndexType): (name: string)
    {
      if t == Data then dataIndex else lookupIndex
    }

    method Send(r: Request)
      modifies this`requests
      ensures requests == old(requests) + [r]
    {
      requests := requests + [r];
    }

    /** Deleting an index also drops the aliases that point to it. */
    method DeleteIndex(name: string)
      modifies this`indices, this`aliases
      ensures indices == old(indices) - {name}
      ensures aliases == Without(old(aliases), {name})
    {
      indices := indices - {name};
      aliases := Without(aliases, {name});
    }

    /** `createIndex`: creates `<base>-<version>` for the version the client picks. */
    method CreateIndex(t: IndexType, version: string) returns (v: string)
      modifies this`indices
      ensures v == version
      ensures indices == old(indices) + {IndexNameByType(t) + "-" + version}
    {
      indices := indices + {IndexNameByType(t) + "-" + version};
      v := version;
    }

    /** `updateAliases` with one `add` action. */
    method AddAlias(index: string, alias: string)
      modifies this`aliases
      ensures aliases == old(aliases)[alias := index]
    {
      aliases := aliases[alias := index];
    }

    method ReleaseLock(t: IndexType)
      modifies this`locks
      ensures locks == old(locks) - {t}
    {
      locks := locks - {t};
    }
  }

  /** A title a recovery job is filed under. */
  datatype Title = PageTitle(text: string) | IdListTitle(origin: string, ids: seq<int>)  // origin:md5(json(ids))

  datatype RecoveryParams = DeleteParams(ids: seq<int>) | CreateParams(hash: string) | IndexParams(hash: string)

  datatype Job = IndexerRecoveryJob(title: Title, params: RecoveryParams) | FileIngestJob(title: Title)

  /** The job queue; inserting a job only appends it. */
  class JobQueue {
    var jobs: seq<Job>

    constructor ()
      ensures jobs == []
    {
      jobs := [];
    }

    method Insert(j: Job)
      modifies this
      ensures jobs == old(jobs) + [j]
    {
      jobs := jobs + [j];
    }
  }
}
