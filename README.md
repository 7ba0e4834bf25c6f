# Elastic indexing and querying in Semantic MediaWiki, modelled in Dafny

This project models the sequential core of Semantic MediaWiki's
Elasticsearch-backed store and two neighbouring components. It covers:

- **Indexer**: the differential indexer. It turns the change rows of one store
  mutation into bulk operations:
  - deletes for removed sub-objects;
  - `{noop: []}` stubs for inverted relations;
  - one document per subject, whose typed arrays are only appended to.

  It also gates every mutation on the cluster being reachable and unlocked, with
  a recovery job as the fallback, and resolves the `-v1`/`-v2` index aliases of
  the data and lookup index types.
- **FileIndexer**: attachment ingestion for file pages. It decides between
  ingesting and skipping from the page id, the namespace, the stored sha1 and
  the `noCheck` flag, and merges the file fields over the rescued document
  fields.
- **ValueDescriptionInterpreter**: translation of one value constraint into a
  query-DSL fragment:
  - field selection;
  - page identity;
  - the proximity and wildcard rules;
  - hierarchy wrapping;
  - `must`/`filter`/`must_not` slotting.
- **QueryEngine**: query orchestration:
  - the short-circuit rules;
  - the request body (look-ahead size, sort, random scoring, profiling, highlighting);
  - dispatch on the query mode;
  - the relocation of looked-up items into hit order;
  - the escaping of the debug output.
- **ScoreSet**: an append-only list of (hash, score) pairs with first-match
  lookup.
- **CallableUpdate**: the deferred-update state machine. It covers push, the
  fingerprint duplicate guard, the pending list and its release, the hand-off
  stage, and running an update at once.
- **ListResultBuilder**: the layered settings of the list-like result formats
  and the assembly of value, field, row and result texts.

Shared modules:

- `Common` holds `Option` and `Result`.
- `Php` holds the PHP built-ins the code relies on: truthiness, string casts,
  `str_replace`, `trim`, `join`, `strpos`.
- `QueryDsl` holds the query fragments. Each FieldMapper builder is an
  uninterpreted constructor.
- `Elastic` is an abstract cluster and job queue. It holds:
  - the index names per type;
  - the set of concrete indices and the alias table;
  - the locks and reachability;
  - a log of the requests sent.

The source's own form is kept:

- Components that change state in place are classes whose methods state their
  whole new state: `Indexer.Indexer`, `FileIndexer.FileIndexer`,
  `QueryEngine.QueryEngine`, `ScoreSet.ScoreSet`, `CallableUpdate.Registry`,
  `CallableUpdate.CallableUpdate` and `ListResultBuilder.ListResultBuilder`.
- Each of their loops carries invariants against a specification function.
- The pure translation rules are functions, with lemmas that state the rules as
  the source promises them.

Answers of collaborators that are not modelled become parameters. These are
store lookups, search, count and validate responses, the query and sort
builders, and the template renderer.

## Model

| member | source | states |
|---|---|---|
| Indexer.IndexName | src/Elastic/Indexer/Indexer.php:176-189 | the base name when no version is set for the type, else base + "-" + version; the result always starts with the base name |
| Indexer.Indexer.GetIndexName | src/Elastic/Indexer/Indexer.php:176-189 | defined by its body: the connection's name for the type, versioned by the stored versions; `Indexer.IndexName` states the name it builds |
| Indexer.Spaced | src/Elastic/Indexer/Indexer.php:478 | underscores become spaces and nothing else changes; no underscore is left |
| Indexer.SortSource | src/Elastic/Indexer/Indexer.php:465-470 | the subject's sort key is its `sort` option when that is non-empty, else its sort key |
| Indexer.Classify | src/Elastic/Indexer/Indexer.php:500-556 | defined by its body: the typed field and value a row with a property appends, chosen by the row's shape; `Indexer.ClassificationTable` and `Indexer.TextValue` state it |
| Indexer.ClassificationTable | src/Elastic/Indexer/Indexer.php:500-556 | the priority-ordered row-to-field decision table: txtField, uriField, datField iff the serialization has '/' else numField, booField, geoField, wpgField + wpgID, else wpgField 'n/a' |
| Indexer.TextValue | src/Elastic/Indexer/Indexer.php:503-515 | the text value is the blob, or the hash when the blob is null, or the normalized hash for a `_keyw` property |
| Indexer.ValuesPerRow | src/Elastic/Indexer/Indexer.php:532-565 | a reference row adds two values, every other row with a property one |
| Indexer.MapRow | src/Elastic/Indexer/Indexer.php:457-566 | defined by its body: `mapRows` for one row carrying `s_id`; `Indexer.MapRowSubject`, `Indexer.RowWithoutProperty`, `Indexer.MapRowValid`, `Indexer.MapRowArr` and `Indexer.MapRowInverted` state it |
| Indexer.MapRowSubject | src/Elastic/Indexer/Indexer.php:457-484 | a new subject id gets the block computed from the store and is appended to the order; a known id keeps its block and position |
| Indexer.RowWithoutProperty | src/Elastic/Indexer/Indexer.php:486-490 | a row without `p_id` adds only the subject block: no typed values, no stub |
| Indexer.MapRowValid | src/Elastic/Indexer/Indexer.php:457-566 | mapRows keeps the insert map well formed: each subject id listed once, listed ids are the document keys, stubs distinct |
| Indexer.FoldRows | src/Elastic/Indexer/Indexer.php:406-415 | defined by its body: one table's rows passed through `MapRow` in order, skipping rows without `s_id`; `Indexer.FoldRowsValid`, `Indexer.FoldSubjects`, `Indexer.FoldRowsArr` and `Indexer.FoldRowsStubs` state it |
| Indexer.FoldTables | src/Elastic/Indexer/Indexer.php:404-415 | defined by its body: every data-op table folded in order; `Indexer.FoldTablesValid` and `Indexer.FoldTablesSubjects` state it |
| Indexer.FoldRowsValid | src/Elastic/Indexer/Indexer.php:406-415 | folding rows through mapRows keeps the insert map well formed |
| Indexer.FoldTablesValid | src/Elastic/Indexer/Indexer.php:406-415 | folding all data ops keeps the insert map well formed |
| Indexer.FoldSubjects | src/Elastic/Indexer/Indexer.php:406-415 | the documents after a list of rows are those before plus exactly the rows' subject ids, each with the block from the store |
| Indexer.FoldTablesSubjects | src/Elastic/Indexer/Indexer.php:404-415 | from an empty insert map, the documents are exactly the subject ids of all data-op rows, each with its block from the store |
| Indexer.AppendValuesArr | src/Elastic/Indexer/Indexer.php:558-565 | appending a row's values extends only the row's own typed arrays, by the values for each type in order |
| Indexer.MapRowArr | src/Elastic/Indexer/Indexer.php:457-566 | mapRows appends the row's values to its own arrays and leaves every other typed array unchanged |
| Indexer.FoldRowsArr | src/Elastic/Indexer/Indexer.php:406-415 | over a list of rows, each typed array is the old array followed by the rows' contributions in row order (append-only, never overwritten) |
| Indexer.MapRowInverted | src/Elastic/Indexer/Indexer.php:545-552 | a reference row appends its object id to the inverted list the first time the id is referenced, and never otherwise |
| Indexer.FoldRowsStubs | src/Elastic/Indexer/Indexer.php:406-415 | the inverted list mapRows builds over a list of rows is `Stubs` of those rows |
| Indexer.StubsSpec | src/Elastic/Indexer/Indexer.php:550-552 | one stub per referenced id, created on first reference; the stubs are distinct, cover exactly the referenced ids, and earlier stubs keep their place |
| Indexer.SubobjectDeletesAreDeletes | src/Elastic/Indexer/Indexer.php:393-402 | the first loop of doMap emits only delete operations |
| Indexer.Upserts | src/Elastic/Indexer/Indexer.php:417-419 | one stub upsert per inverted id, in order |
| Indexer.Indexes | src/Elastic/Indexer/Indexer.php:421-423 | one index operation per subject id, in first-seen order, each with its document |
| Indexer.AssembleOrder | src/Elastic/Indexer/Indexer.php:417-423 | deletes, then stub upserts, then index operations, never going back; the count is the sum of the three |
| Indexer.MapDiff | src/Elastic/Indexer/Indexer.php:384-424 | defined by its body: the subobject deletes, then the stub upserts and subject documents of the folded batch; `Indexer.MapDiffOrder` and `Indexer.MapDiffIndexesEachSubjectOnce` state it, and `Indexer.Indexer.DoMap` is proved equal to it |
| Indexer.MapDiffOrder | src/Elastic/Indexer/Indexer.php:393-423 | the bulk body of doMap is ordered deletes < upserts < index operations |
| Indexer.AssembleIndexes | src/Elastic/Indexer/Indexer.php:421-423 | the index operations name each document id once, each with its own document, and every document is indexed |
| Indexer.MapDiffIndexesEachSubjectOnce | src/Elastic/Indexer/Indexer.php:384-424 | doMap indexes every subject id of the data-op rows exactly once, each document carrying the subject block from the store; rows lacking `s_id` add nothing |
| Indexer.DeleteOps | src/Elastic/Indexer/Indexer.php:238-251 | defined by its body: the bulk operations of `delete` for each id in turn; `Indexer.DeleteOpsShape` states it |
| Indexer.DeleteOpsShape | src/Elastic/Indexer/Indexer.php:238-251 | one data-index delete per id in list order; with `isConcept` each is followed by the lookup-index delete keyed by md5 of the id |
| Indexer.Indexer.constructor | src/Elastic/Indexer/Indexer.php:63-76 | no versions, empty origin, the given connection, job queue and store |
| Indexer.Indexer.SetVersions | src/Elastic/Indexer/Indexer.php:83-85 | the versions become the argument |
| Indexer.Indexer.SetOrigin | src/Elastic/Indexer/Indexer.php:92-94 | the origin becomes the argument |
| Indexer.Indexer.IsSafe | src/Elastic/Indexer/Indexer.php:353-363 | defined by its body: true iff the data index carries no rebuilder lock and a node is reachable; it is the gate in the contracts of `Delete`, `Create` and `SafeReplicate` |
| Indexer.Indexer.Delete | src/Elastic/Indexer/Indexer.php:214-263 | when unsafe (data index locked or ping fails): one recovery job for the id list and no request; else one bulk request on the data index holding `DeleteOps` and no job |
| Indexer.Indexer.Create | src/Elastic/Indexer/Indexer.php:270-301 | when unsafe: a recovery job and no request; else one index request holding only the subject block |
| Indexer.Indexer.SafeReplicate | src/Elastic/Indexer/Indexer.php:308-321 | when unsafe: a recovery job and no request; else exactly what `index` sends |
| Indexer.Indexer.Index | src/Elastic/Indexer/Indexer.php:328-351 | one bulk request on the data index carrying doMap's operations |
| Indexer.Indexer.DoMap | src/Elastic/Indexer/Indexer.php:384-424 | the operations equal `MapDiff` of the change diff |
| Indexer.Indexer.CollectDeletes | src/Elastic/Indexer/Indexer.php:393-402 | the nested loop emits a delete per delete-op row carrying `o_id`, in table and row order |
| Indexer.Indexer.MapDataOps | src/Elastic/Indexer/Indexer.php:404-415 | the nested loop over the data ops equals folding mapRows over every row carrying `s_id` |
| Indexer.Indexer.UpsertOps | src/Elastic/Indexer/Indexer.php:417-419 | the loop emits `Upserts` of the inverted ids |
| Indexer.Indexer.IndexOps | src/Elastic/Indexer/Indexer.php:421-423 | the loop emits `Indexes` of the subject ids |
| Indexer.Indexer.SetupIndexByType | src/Elastic/Indexer/Indexer.php:593-628 | a bare root index is deleted; if v1 exists then v2 is gone and the alias points to v1; else if v2 exists the alias points to v2; else a new version is created and aliased. The whole new state: the indices are the old ones minus the deleted ones plus the created one, and every other alias is kept unless it pointed at a deleted index |
| Indexer.Indexer.DeleteIndexByType | src/Elastic/Indexer/Indexer.php:630-650 | v1 and v2 are gone, a root index left is an alias, and the type's lock is released. The whole new state: the indices are the old ones minus exactly v1, v2 and a bare root index that existed, and the aliases are the old ones minus those pointing at a deleted index |
| Indexer.Indexer.Setup | src/Elastic/Indexer/Indexer.php:164-167 | both types are set up; the lookup alias exists afterwards |
| Indexer.Indexer.Drop | src/Elastic/Indexer/Indexer.php:156-159 | both types are dropped: both locks released, no index created |
| FileIndexer.EffectiveId | src/Elastic/Indexer/FileIndexer.php:86-88 | an id of 0 is replaced by the indexer's lookup, any other id is kept |
| FileIndexer.IngestBody | src/Elastic/Indexer/FileIndexer.php:165-173 | the file fields override same-named rescued fields; every other rescued field is kept |
| FileIndexer.IndexRequests | src/Elastic/Indexer/FileIndexer.php:84-178 | defined by its body: the requests `index` sends; `FileIndexer.OnlyResolvedFilePages`, `FileIndexer.IngestIff`, `FileIndexer.Sha1Skip` and `FileIndexer.RescuedFieldsKept` state it, and `FileIndexer.FileIndexer.Index` appends exactly these |
| FileIndexer.ShouldIngest | src/Elastic/Indexer/FileIndexer.php:150-152 | defined by its body: ingest unless the check is on and the stored `file_sha1` is this sha1; `FileIndexer.Sha1Skip` states it |
| FileIndexer.OnlyResolvedFilePages | src/Elastic/Indexer/FileIndexer.php:86-92 | nothing is sent iff the id is still 0 or the page is not in the file namespace |
| FileIndexer.IngestIff | src/Elastic/Indexer/FileIndexer.php:116-173 | the pipeline is always registered first; an ingest follows iff a file is found and either the check is off or the stored sha1 differs, and it carries the page id and the file's sha1 |
| FileIndexer.Sha1Skip | src/Elastic/Indexer/FileIndexer.php:148-152 | with the check on, an unchanged sha1 skips the ingest; with it off, a found file is always ingested |
| FileIndexer.RescuedFieldsKept | src/Elastic/Indexer/FileIndexer.php:142-173 | a re-ingest keeps every rescued field other than the three file fields |
| FileIndexer.FileIndexer.constructor | src/Elastic/Indexer/FileIndexer.php:44-46 | the check is on and the origin empty |
| FileIndexer.FileIndexer.SetOrigin | src/Elastic/Indexer/FileIndexer.php:53-55 | the origin becomes the argument |
| FileIndexer.FileIndexer.NoCheck | src/Elastic/Indexer/FileIndexer.php:60-62 | the sha1 check is turned off |
| FileIndexer.FileIndexer.PlanIngestJob | src/Elastic/Indexer/FileIndexer.php:69-76 | one file-ingest job for the title is appended to the queue |
| FileIndexer.FileIndexer.Index | src/Elastic/Indexer/FileIndexer.php:84-178 | returns the effective id and appends exactly `IndexRequests` to the request log |
| ValueDescriptionInterpreter.MatchPhrase | src/Elastic/QueryEngine/DescriptionInterpreters/ValueDescriptionInterpreter.php:146 | the match-phrase option defaults to true |
| ValueDescriptionInterpreter.WideFields | src/Elastic/QueryEngine/DescriptionInterpreters/ValueDescriptionInterpreter.php:151 | the wide-proximity fields default to `text_copy` |
| ValueDescriptionInterpreter.CaseInsensitive | src/Elastic/QueryEngine/DescriptionInterpreters/ValueDescriptionInterpreter.php:163 | the case-insensitive option defaults to true |
| ValueDescriptionInterpreter.SliceFront | src/Elastic/QueryEngine/DescriptionInterpreters/ValueDescriptionInterpreter.php:203 | `array_slice($s, 0, $n)`: a prefix of length min(n, \|s\|), or \|s\| + n (at least 0) for a negative n |
| ValueDescriptionInterpreter.MemberIds | src/Elastic/QueryEngine/DescriptionInterpreters/ValueDescriptionInterpreter.php:206-208 | the members' ids in order |
| ValueDescriptionInterpreter.FindHierarchyMembers | src/Elastic/QueryEngine/DescriptionInterpreters/ValueDescriptionInterpreter.php:195-212 | [] for no property or no members; all member ids in order for no depth; [] for depth 0; the first `depth` ids otherwise |
| ValueDescriptionInterpreter.BaseField | src/Elastic/QueryEngine/DescriptionInterpreters/ValueDescriptionInterpreter.php:69-83 | `subject.sortkey` without a property, `P:<id>.<typeField>` with one |
| ValueDescriptionInterpreter.FieldAndValue | src/Elastic/QueryEngine/DescriptionInterpreters/ValueDescriptionInterpreter.php:69-118 | defined by its body: the field and literal chosen from the data item; `ValueDescriptionInterpreter.TargetField` and `ValueDescriptionInterpreter.PageIdentity` state it |
| ValueDescriptionInterpreter.TargetField | src/Elastic/QueryEngine/DescriptionInterpreters/ValueDescriptionInterpreter.php:69-118 | for non-page items the target field is `subject.sortkey` without a property and `P:<id>.<typeField>` with one, with `.keyword` appended for time values, and the value is the item's number, boolean or string |
| ValueDescriptionInterpreter.InterpretDescription | src/Elastic/QueryEngine/DescriptionInterpreters/ValueDescriptionInterpreter.php:55-192 | defined by its body: `interpretDescription` as written; `ValueDescriptionInterpreter.InverseIsError`, `ValueDescriptionInterpreter.Slotting`, `ValueDescriptionInterpreter.NegationCancelsAsWritten` and `ValueDescriptionInterpreter.NegatedPageMatchesItself` state it |
| ValueDescriptionInterpreter.Core | src/Elastic/QueryEngine/DescriptionInterpreters/ValueDescriptionInterpreter.php:93-182 | defined by its body: `Dispatch` on the chosen field and value, wrapped by `InHierarchy`; the branch lemmas from `ValueDescriptionInterpreter.PageIdentity` to `ValueDescriptionInterpreter.DefaultMatch` state it |
| ValueDescriptionInterpreter.InverseIsError | src/Elastic/QueryEngine/DescriptionInterpreters/ValueDescriptionInterpreter.php:74-77 | the result is an error iff the property is inverse |
| ValueDescriptionInterpreter.PageIdentity | src/Elastic/QueryEngine/DescriptionInterpreters/ValueDescriptionInterpreter.php:93-128 | a page with EQ/NEQ is `terms` on its id: on `_id` without a property, on `P:<id>.wpgID` (hierarchy-wrapped) with one |
| ValueDescriptionInterpreter.Dispatch | src/Elastic/QueryEngine/DescriptionInterpreters/ValueDescriptionInterpreter.php:120-177 | defined by its body: the comparator if-chain; `ValueDescriptionInterpreter.PageRange`, `ValueDescriptionInterpreter.NoSubobjectFilter`, `ValueDescriptionInterpreter.BlobEquality`, `ValueDescriptionInterpreter.EqualityTerms`, `ValueDescriptionInterpreter.LikeProximity`, `ValueDescriptionInterpreter.ValueRange` and `ValueDescriptionInterpreter.DefaultMatch` state each branch |
| ValueDescriptionInterpreter.IsRange | src/Elastic/QueryEngine/DescriptionInterpreters/ValueDescriptionInterpreter.php:214-216 | defined by its body: exactly the four ordering comparators; it selects the branches stated by `ValueDescriptionInterpreter.PageRange` and `ValueDescriptionInterpreter.ValueRange` |
| ValueDescriptionInterpreter.IsNot | src/Elastic/QueryEngine/DescriptionInterpreters/ValueDescriptionInterpreter.php:218-220 | defined by its body: exactly NEQ and NLKE; it selects the negation stated by `ValueDescriptionInterpreter.Slotting` |
| ValueDescriptionInterpreter.PageRange | src/Elastic/QueryEngine/DescriptionInterpreters/ValueDescriptionInterpreter.php:120-121 | a page with a range comparator is a `range` on the base field's `.keyword` over its sort key, wrapped in the property hierarchy when there is a property |
| ValueDescriptionInterpreter.NoSubobjectFilter | src/Elastic/QueryEngine/DescriptionInterpreters/ValueDescriptionInterpreter.php:122-124 | the NO_SUBOBJECT page gives `term(subject.subobject.keyword, '')` in the filter slot, wrapped in the property hierarchy when there is a property |
| ValueDescriptionInterpreter.BlobEquality | src/Elastic/QueryEngine/DescriptionInterpreters/ValueDescriptionInterpreter.php:125-126 | a blob with EQ is a `match` on the base field with the value wrapped in double quotes, wrapped in the property hierarchy when there is a property |
| ValueDescriptionInterpreter.EqualityTerms | src/Elastic/QueryEngine/DescriptionInterpreters/ValueDescriptionInterpreter.php:127-128 | any other item with EQ or NEQ is a `terms` query on its target field with its value |
| ValueDescriptionInterpreter.LikeProximity | src/Elastic/QueryEngine/DescriptionInterpreters/ValueDescriptionInterpreter.php:129-173 | LIKE and NLKE go through the proximity builder on the target field and value, and its query and filter slot are kept |
| ValueDescriptionInterpreter.ValueRange | src/Elastic/QueryEngine/DescriptionInterpreters/ValueDescriptionInterpreter.php:174-175 | a non-page item with a range comparator is a `range` on its target field with its value and comparator |
| ValueDescriptionInterpreter.DefaultMatch | src/Elastic/QueryEngine/DescriptionInterpreters/ValueDescriptionInterpreter.php:176-177 | every remaining comparator is a `match` on the target field with the value |
| ValueDescriptionInterpreter.Proximity | src/Elastic/QueryEngine/DescriptionInterpreters/ValueDescriptionInterpreter.php:129-173 | defined by its body: the LIKE/NLKE proximity rules; `ValueDescriptionInterpreter.ProximityDispatch`, `ValueDescriptionInterpreter.WideProximity`, `ValueDescriptionInterpreter.SimpleWildcard` and `ValueDescriptionInterpreter.PhraseBeatsWildcard` state it |
| ValueDescriptionInterpreter.ProximityDispatch | src/Elastic/QueryEngine/DescriptionInterpreters/ValueDescriptionInterpreter.php:129-173 | query_string iff wildcard, wide and no quote; wildcard iff wildcard, not wide and no quote; match otherwise; filter iff wildcard; minimum_should_match 1 |
| ValueDescriptionInterpreter.WideProximity | src/Elastic/QueryEngine/DescriptionInterpreters/ValueDescriptionInterpreter.php:138-152 | wide proximity strips the '~', searches the configured fields, and re-quotes the quote-trimmed value iff there is no wildcard and match-phrase is on |
| ValueDescriptionInterpreter.SimpleWildcard | src/Elastic/QueryEngine/DescriptionInterpreters/ValueDescriptionInterpreter.php:158-170 | a plain wildcard goes to the `.lowercase` sub-field (`.keyword` when the option is off) in the filter slot |
| ValueDescriptionInterpreter.PhraseBeatsWildcard | src/Elastic/QueryEngine/DescriptionInterpreters/ValueDescriptionInterpreter.php:133-173 | a value with a quote always becomes a `match` |
| ValueDescriptionInterpreter.InHierarchy | src/Elastic/QueryEngine/DescriptionInterpreters/ValueDescriptionInterpreter.php:180-182 | defined by its body: the `hierarchy` wrap, applied only when there is a property; `ValueDescriptionInterpreter.HierarchyOnlyWithProperty` states it |
| ValueDescriptionInterpreter.HierarchyOnlyWithProperty | src/Elastic/QueryEngine/DescriptionInterpreters/ValueDescriptionInterpreter.php:180-182 | the fragment is hierarchy-wrapped iff there is a property |
| ValueDescriptionInterpreter.OuterSlot | src/Elastic/QueryEngine/DescriptionInterpreters/ValueDescriptionInterpreter.php:188-189 | defined by its body: the outer slot as written, `must_not` for a negated comparator; `ValueDescriptionInterpreter.Slotting` states it and `ValueDescriptionInterpreter.CorrectedOuterSlot` its correction |
| ValueDescriptionInterpreter.Slotting | src/Elastic/QueryEngine/DescriptionInterpreters/ValueDescriptionInterpreter.php:184-190 | a negated comparator is wrapped in must_not; outside a conjunction one more bool whose slot is must_not if negated, else filter if flagged, else must |
| ValueDescriptionInterpreter.NegationCancelsAsWritten | src/Elastic/QueryEngine/DescriptionInterpreters/ValueDescriptionInterpreter.php:184-190 | as written, a negated comparator outside a conjunction matches exactly what the un-negated fragment matches |
| ValueDescriptionInterpreter.NegatedPageMatchesItself | src/Elastic/QueryEngine/DescriptionInterpreters/ValueDescriptionInterpreter.php:184-190 | as written, `[[!Foo]]` matches the page Foo itself |
| ValueDescriptionInterpreter.InterpretDescriptionCorrected | src/Elastic/QueryEngine/DescriptionInterpreters/ValueDescriptionInterpreter.php:184-190 | defined by its body: the translation with a single negation; `ValueDescriptionInterpreter.CorrectedOuterSlot`, `ValueDescriptionInterpreter.CorrectedNegation` and `ValueDescriptionInterpreter.CorrectedAgreesElsewhere` state it |
| ValueDescriptionInterpreter.CorrectedOuterSlot | src/Elastic/QueryEngine/DescriptionInterpreters/ValueDescriptionInterpreter.php:188-189 | the corrected outer slot is never must_not |
| ValueDescriptionInterpreter.CorrectedNegation | src/Elastic/QueryEngine/DescriptionInterpreters/ValueDescriptionInterpreter.php:184-190 | corrected: a negated comparator matches exactly the documents the fragment does not match, inside or outside a conjunction |
| ValueDescriptionInterpreter.CorrectedAgreesElsewhere | src/Elastic/QueryEngine/DescriptionInterpreters/ValueDescriptionInterpreter.php:184-190 | the correction changes nothing for comparators that are not negated, nor inside a conjunction |
| QueryEngine.ShortCircuit | src/Elastic/QueryEngine/QueryEngine.php:116-124 | an empty result with continuation false iff a Thing description has errors outside debug mode; with continuation true iff otherwise the mode is NONE or the limit is below 1 |
| QueryEngine.HighlightFor | src/Elastic/QueryEngine/QueryEngine.php:332-352 | a highlight iff the type is set and accepted by `in_array`, then 3 fragments of 150 over the three fixed fields |
| QueryEngine.BuildBody | src/Elastic/QueryEngine/QueryEngine.php:153-180 | defined by its body: the search body; `QueryEngine.BodyShape` states each of its parts |
| QueryEngine.BodyShape | src/Elastic/QueryEngine/QueryEngine.php:153-180 | no `_source`, from = offset, size = limit + 1; random scoring iff random; sort iff not random and non-empty; highlight iff special search, not COUNT and an accepted type |
| QueryEngine.CountValue | src/Elastic/QueryEngine/QueryEngine.php:268 | the response's count when set and not null, else 0 |
| QueryEngine.Escape | src/Elastic/QueryEngine/QueryEngine.php:233-237 | defined by its body: the five `str_replace` pairs applied one after the other; `QueryEngine.EscapeRemovesMarkup` states it |
| QueryEngine.EscapeRemovesMarkup | src/Elastic/QueryEngine/QueryEngine.php:233-237 | no '[', '<' or '>' survives the escaping of the debug info |
| QueryEngine.LastPos | src/Elastic/QueryEngine/QueryEngine.php:299 | `array_flip` gives an id its last position in the hit list |
| QueryEngine.Placed | src/Elastic/QueryEngine/QueryEngine.php:298-304 | defined by its body: each looked-up item written at its id's flipped position in turn; `QueryEngine.PlacedSpec`, `QueryEngine.PlacementIgnoresLookupOrder` and `QueryEngine.ResultsFollowHitOrder` state it |
| QueryEngine.PlacedSpec | src/Elastic/QueryEngine/QueryEngine.php:302-304 | each looked-up item sits at its own id's hit position, and every occupied position holds one of them |
| QueryEngine.PlacementIgnoresLookupOrder | src/Elastic/QueryEngine/QueryEngine.php:298-304 | the placement does not depend on the order the bulk lookup returns the items in |
| QueryEngine.Positions | src/Elastic/QueryEngine/QueryEngine.php:315 | the occupied positions below n, strictly ascending, none missing |
| QueryEngine.KSorted | src/Elastic/QueryEngine/QueryEngine.php:315 | `ksort` read back: the items at the ascending positions |
| QueryEngine.ResultsFollowHitOrder | src/Elastic/QueryEngine/QueryEngine.php:294-315 | the results are the looked-up items, in hit order, one per item; every looked-up item appears, so the results are a permutation of them |
| QueryEngine.ResultsCount | src/Elastic/QueryEngine/QueryEngine.php:302-315 | no looked-up item is lost or duplicated: every one appears and the results have the same multiset |
| QueryEngine.ScoresOnlyForScoredIds | src/Elastic/QueryEngine/QueryEngine.php:306-308 | every attached score belongs to a looked-up item whose id is in the score map |
| QueryEngine.BuilderEntries | src/Elastic/QueryEngine/QueryEngine.php:151 | the builder's query info, entry for entry |
| QueryEngine.SmwQuery.AddErrors | src/Elastic/QueryEngine/QueryEngine.php:182 | the query's errors are extended by the given ones |
| QueryEngine.QueryEngine.constructor | src/Elastic/QueryEngine/QueryEngine.php:60-65 | no errors and empty query info |
| QueryEngine.QueryEngine.GetQueryResult | src/Elastic/QueryEngine/QueryEngine.php:112-274 | a short-circuit answers without touching any state; otherwise the builder errors are recorded and added to the query, the request params are logged, DEBUG gives the escaped JSON of the recorded Elastic info with the validation answer appended, COUNT gives the count value with no continuation, and INSTANCES the relocated instance result |
| QueryEngine.QueryEngine.AddHighlight | src/Elastic/QueryEngine/QueryEngine.php:332-352 | the highlight is `HighlightFor` the configured type |
| QueryEngine.QueryEngine.NewInstanceQueryResult | src/Elastic/QueryEngine/QueryEngine.php:276-330 | the search errors are added to the query; the result holds the key-sorted placement, the continuation flag, the scores and the excerpts |
| QueryEngine.QueryEngine.Relocate | src/Elastic/QueryEngine/QueryEngine.php:291-315 | the loop places every item, adds a score pair and an excerpt only for ids in those maps, and uses a fresh score set |
| ScoreSet.KeyHash | src/Query/ScoreSet.php:62-64 | a page is normalized to its hash, a hash is kept |
| ScoreSet.FirstMatch | src/Query/ScoreSet.php:82-88 | defined by its body: the score of the first pair with the hash; `ScoreSet.FirstMatchSpec` states it and `ScoreSet.ScoreSet.GetScore` is proved equal to it |
| ScoreSet.FirstMatchSpec | src/Query/ScoreSet.php:82-88 | no match iff no pair has the hash; a match is the score of the first pair with the hash |
| ScoreSet.AppendKeepsFirst | src/Query/ScoreSet.php:60-88 | appending never shadows an earlier pair |
| ScoreSet.AppendFindsNew | src/Query/ScoreSet.php:60-88 | a hash not yet present is found with the score just appended |
| ScoreSet.ScoreSet.constructor | src/Query/ScoreSet.php:21-31 | no pairs, no maximum, no minimum |
| ScoreSet.ScoreSet.SetMaxScore | src/Query/ScoreSet.php:38-40 | the maximum becomes the argument; the pairs are not in its frame |
| ScoreSet.ScoreSet.SetMinScore | src/Query/ScoreSet.php:47-49 | the minimum becomes the argument; the pairs are not in its frame |
| ScoreSet.ScoreSet.AddScore | src/Query/ScoreSet.php:60-67 | one pair appended under the key's hash; an existing hash keeps its first score, a new one is found with this score |
| ScoreSet.ScoreSet.GetScore | src/Query/ScoreSet.php:76-89 | the linear search returns the first match for the key's hash, or None (`false`) |
| ScoreSet.ScoreSet.GetScores | src/Query/ScoreSet.php:96-98 | all pairs in insertion order |
| CallableUpdate.WrapOrigin | src/MediaWiki/Deferred/CallableUpdate.php:200-204 | a string origin becomes a one-element list; a list is kept |
| CallableUpdate.WrapOriginIdempotent | src/MediaWiki/Deferred/CallableUpdate.php:200-207 | a second `getOrigin` changes nothing |
| CallableUpdate.Key | src/MediaWiki/Deferred/CallableUpdate.php:251-256 | a null fingerprint is the null key, any other is its digest |
| CallableUpdate.RouteOf | src/MediaWiki/Deferred/CallableUpdate.php:258-267 | pending iff pending and deferrable; host queue iff not pending, not command line and deferrable; run now otherwise |
| CallableUpdate.StageArgFor | src/MediaWiki/Deferred/CallableUpdate.php:281-291 | POSTSEND iff stage post and the constant is defined; PRESEND iff stage pre and it is defined; null otherwise |
| CallableUpdate.Run | src/MediaWiki/Deferred/CallableUpdate.php:225-227 | the callback runs and the fingerprint leaves the queue list; nothing else changes |
| CallableUpdate.Push | src/MediaWiki/Deferred/CallableUpdate.php:242-268 | defined by its body: `pushUpdate` on the shared queues; `CallableUpdate.PushOnce`, `CallableUpdate.DuplicateDropped`, `CallableUpdate.RunFreesFingerprint` and `CallableUpdate.PushRegisters` state it |
| CallableUpdate.PushOnce | src/MediaWiki/Deferred/CallableUpdate.php:242-268 | a listed duplicate leaves everything unchanged; any other push dispatches the update exactly once |
| CallableUpdate.Blocked | src/MediaWiki/Deferred/CallableUpdate.php:251 | defined by its body: a non-null fingerprint already listed; `CallableUpdate.NullFingerprintNeverBlocks` and `CallableUpdate.DuplicateDropped` state it |
| CallableUpdate.NullFingerprintNeverBlocks | src/MediaWiki/Deferred/CallableUpdate.php:251 | a null fingerprint never blocks a push |
| CallableUpdate.DuplicateDropped | src/MediaWiki/Deferred/CallableUpdate.php:251-265 | while a fingerprinted update waits, pushing one with the same fingerprint is a no-op |
| CallableUpdate.RunFreesFingerprint | src/MediaWiki/Deferred/CallableUpdate.php:225-268 | an update run at once frees its fingerprint, so the same fingerprint can be pushed again |
| CallableUpdate.PushRegisters | src/MediaWiki/Deferred/CallableUpdate.php:256-265 | a waiting update keeps its fingerprint listed; pending ones join the pending list, others the host queue with their stage |
| CallableUpdate.Released | src/MediaWiki/Deferred/CallableUpdate.php:212-215 | one hand-off per pending update, in order |
| CallableUpdate.Release | src/MediaWiki/Deferred/CallableUpdate.php:212-218 | every pending update is handed off and the pending list is left empty |
| CallableUpdate.ReleaseDropsStage | src/MediaWiki/Deferred/CallableUpdate.php:212-218 | a released update reaches the host queue without its stage, and its fingerprint stays listed |
| CallableUpdate.ReleaseIdempotent | src/MediaWiki/Deferred/CallableUpdate.php:212-218 | releasing twice hands nothing over the second time |
| CallableUpdate.Registry.constructor | src/MediaWiki/Deferred/CallableUpdate.php:60-70 | empty queue list, pending list and logs |
| CallableUpdate.Registry.ReleasePendingUpdates | src/MediaWiki/Deferred/CallableUpdate.php:212-218 | the loop's new state is `Release` of the old |
| CallableUpdate.CallableUpdate.constructor | src/MediaWiki/Deferred/CallableUpdate.php:83-91 | a null callback becomes the empty callback; stage post, deferrable, not pending, no fingerprint |
| CallableUpdate.CallableUpdate.IsCommandLineMode | src/MediaWiki/Deferred/CallableUpdate.php:101-103 | the flag is stored as given |
| CallableUpdate.CallableUpdate.AsPresend | src/MediaWiki/Deferred/CallableUpdate.php:108-110 | the stage becomes pre |
| CallableUpdate.CallableUpdate.GetStage | src/MediaWiki/Deferred/CallableUpdate.php:117-119 | the current stage |
| CallableUpdate.CallableUpdate.SetCallback | src/MediaWiki/Deferred/CallableUpdate.php:126-128 | the callback becomes the argument |
| CallableUpdate.CallableUpdate.EnabledDeferredUpdate | src/MediaWiki/Deferred/CallableUpdate.php:134-136 | same as `isDeferrableUpdate` |
| CallableUpdate.CallableUpdate.IsDeferrableUpdate | src/MediaWiki/Deferred/CallableUpdate.php:145-147 | the flag is the argument's truthiness |
| CallableUpdate.CallableUpdate.MarkAsPending | src/MediaWiki/Deferred/CallableUpdate.php:159-161 | the flag is the argument's truthiness |
| CallableUpdate.CallableUpdate.SetFingerprint | src/MediaWiki/Deferred/CallableUpdate.php:171-173 | the fingerprint becomes md5 of the argument's string form, never null |
| CallableUpdate.CallableUpdate.GetFingerprint | src/MediaWiki/Deferred/CallableUpdate.php:180-182 | the current fingerprint |
| CallableUpdate.CallableUpdate.SetOrigin | src/MediaWiki/Deferred/CallableUpdate.php:189-191 | the origin becomes the argument |
| CallableUpdate.CallableUpdate.GetOrigin | src/MediaWiki/Deferred/CallableUpdate.php:200-207 | the origin is wrapped in place and its JSON form returned |
| CallableUpdate.CallableUpdate.DoUpdate | src/MediaWiki/Deferred/CallableUpdate.php:225-237 | the shared state becomes `Run` of the old with this update's fields, and the origin is wrapped |
| CallableUpdate.CallableUpdate.AddUpdate | src/MediaWiki/Deferred/CallableUpdate.php:270-292 | one hand-off of this update with `StageArgFor` its stage |
| CallableUpdate.CallableUpdate.PushUpdate | src/MediaWiki/Deferred/CallableUpdate.php:242-268 | the shared state becomes `Push` of the old with this update, and the origin is wrapped |
| ListResultBuilder.Get | includes/queryprinters/ListResultBuilder.php:115-117 | the setting, or the default when it is unset or null |
| ListResultBuilder.Replace | includes/queryprinters/ListResultBuilder.php:100-107 | the new settings override those with the same name, all others are kept; a single setting is a one-entry map |
| ListResultBuilder.HasTemplates | includes/queryprinters/ListResultBuilder.php:129-131 | defined by its body: any of the three template settings differs from ''; `ListResultBuilder.HasTemplatesIff` states it |
| ListResultBuilder.HasTemplatesIff | includes/queryprinters/ListResultBuilder.php:129-131 | no templates iff template, introtemplate and outrotemplate are each unset, null or '' |
| ListResultBuilder.KnownFormat | includes/queryprinters/ListResultBuilder.php:158-162 | a format has defaults iff it is one of the five key strings |
| ListResultBuilder.FormatOf | includes/queryprinters/ListResultBuilder.php:158-170 | a known format other than 'list' is kept; 'list', an unknown or an absent format gives 'template' when a template is set, else 'list' |
| ListResultBuilder.WithTemplate | includes/queryprinters/ListResultBuilder.php:164-166 | a set template clears the value open and close tags; otherwise the settings are kept |
| ListResultBuilder.Defaults | includes/queryprinters/ListResultBuilder.php:17-69 | defined by its body: the built-in defaults table; `ListResultBuilder.FormatDefaultsKeys`, `ListResultBuilder.StarDefaults`, `ListResultBuilder.DefaultsShape` and `ListResultBuilder.DefaultsLink` state it |
| ListResultBuilder.FormatDefaultsKeys | includes/queryprinters/ListResultBuilder.php:43-68 | a format's own defaults only set the separator and the row and result tags |
| ListResultBuilder.StarDefaults | includes/queryprinters/ListResultBuilder.php:18-41 | the '*' defaults set no format, an empty template and full linking |
| ListResultBuilder.DefaultsShape | includes/queryprinters/ListResultBuilder.php:17-69 | no default sets a format, and only '*' sets the template, to '' |
| ListResultBuilder.DefaultsLink | includes/queryprinters/ListResultBuilder.php:17-69 | only '*' decides linking, and it links every column |
| ListResultBuilder.PreparedWith | includes/queryprinters/ListResultBuilder.php:156-177 | defined by its body: the '*' defaults, overridden by the format's, overridden by the caller's settings; `ListResultBuilder.PrepareBuiltLayers` to `ListResultBuilder.PrepareBuiltIdempotent` state it |
| ListResultBuilder.PrepareBuiltLayers | includes/queryprinters/ListResultBuilder.php:174 | each setting comes from the caller, else the format's defaults, else the '*' defaults |
| ListResultBuilder.TemplateClearsValueTags | includes/queryprinters/ListResultBuilder.php:164-172 | with a template the value tags are '' whatever the caller set, and 'list' becomes 'template' |
| ListResultBuilder.CallerSettingsWin | includes/queryprinters/ListResultBuilder.php:174 | a caller's setting survives preparation, except a value tag under a template |
| ListResultBuilder.TemplateKept | includes/queryprinters/ListResultBuilder.php:156-177 | preparation leaves the template and the format as `get` sees them |
| ListResultBuilder.PrepareBuiltIdempotent | includes/queryprinters/ListResultBuilder.php:156-177 | for any defaults table of that shape, preparing twice is preparing once |
| ListResultBuilder.Prepared | includes/queryprinters/ListResultBuilder.php:156-177 | defined by its body: `PreparedWith` the built-in defaults; `ListResultBuilder.PreparedIdempotent` and `ListResultBuilder.BuiltInLinks` state it |
| ListResultBuilder.PreparedIdempotent | includes/queryprinters/ListResultBuilder.php:136-138 | with the built-in defaults, a repeated `getResultText` prepares the same settings |
| ListResultBuilder.Linked | includes/queryprinters/ListResultBuilder.php:366-373 | defined by its body: the column test of `getLinkerForColumn`; `ListResultBuilder.LinkedIff` and `ListResultBuilder.DefaultsLinkEverything` state it |
| ListResultBuilder.LinkedIff | includes/queryprinters/ListResultBuilder.php:366-373 | column 0 is linked iff link-first holds, a later column iff link-others holds |
| ListResultBuilder.DefaultsLinkEverything | includes/queryprinters/ListResultBuilder.php:366-373 | unless the caller sets link-first or link-others, every column is linked |
| ListResultBuilder.BuiltInLinks | includes/queryprinters/ListResultBuilder.php:23-24 | with the built-in defaults, every column is linked unless the caller says otherwise |
| ListResultBuilder.ValueText | includes/queryprinters/ListResultBuilder.php:351-356 | defined by its body: the value's text, linked when the column is, between the value tags; `ListResultBuilder.ValueTexts` uses it per value |
| ListResultBuilder.ValueTexts | includes/queryprinters/ListResultBuilder.php:334-344 | one value text per value |
| ListResultBuilder.FieldText | includes/queryprinters/ListResultBuilder.php:321-327 | defined by its body: the value texts joined by the value separator; `ListResultBuilder.FieldTexts` and `ListResultBuilder.TemplateFields` state where it appears |
| ListResultBuilder.FieldLabel | includes/queryprinters/ListResultBuilder.php:279-293 | no label when headers are hidden or the caption is empty |
| ListResultBuilder.FieldTexts | includes/queryprinters/ListResultBuilder.php:262-273 | one text per column |
| ListResultBuilder.RowText | includes/queryprinters/ListResultBuilder.php:205-226 | defined by its body: the first field, then the others in brackets, between the row tags; `ListResultBuilder.RowTextShape` and `ListResultBuilder.RowTextTwoFields` state it |
| ListResultBuilder.RowTextShape | includes/queryprinters/ListResultBuilder.php:205-226 | no fields give ''; one field is the first field between the row tags |
| ListResultBuilder.RowTextTwoFields | includes/queryprinters/ListResultBuilder.php:205-226 | with two fields, the second one sits in the other-fields brackets |
| ListResultBuilder.FieldLabelForTemplate | includes/queryprinters/ListResultBuilder.php:301-314 | the caption iff named args is not `false` and the caption is non-empty, else column + 1 |
| ListResultBuilder.CommonFields | includes/queryprinters/ListResultBuilder.php:411-443 | four entries, or five iff #userparam is set; the last is #rowcount with the row count |
| ListResultBuilder.TemplateFields | includes/queryprinters/ListResultBuilder.php:236-256 | the text of each column's field in column order, then #rownumber with the row number |
| ListResultBuilder.TemplateRowText | includes/queryprinters/ListResultBuilder.php:236-256 | defined by its body: the rendered template call of the common and column fields between the row tags; `ListResultBuilder.TemplateFields` and `ListResultBuilder.RowNumbers` state it |
| ListResultBuilder.TemplateCallText | includes/queryprinters/ListResultBuilder.php:380-393 | nothing when the intro or outro template is not set |
| ListResultBuilder.RowTexts | includes/queryprinters/ListResultBuilder.php:184-199 | one text per row |
| ListResultBuilder.RowNumbers | includes/queryprinters/ListResultBuilder.php:191-196 | with a template, row k is rendered between the row tags with row number offset + k + 1 as its last field |
| ListResultBuilder.ResultText | includes/queryprinters/ListResultBuilder.php:136-154 | defined by its body: intro, result tags around the rows joined by the separator, outro; `ListResultBuilder.ListResultBuilder.GetResultText` returns it on the prepared settings and `ListResultBuilder.RowTexts` states the rows |
| ListResultBuilder.ListResultBuilder.constructor | includes/queryprinters/ListResultBuilder.php:89-92 | empty settings over the given result |
| ListResultBuilder.ListResultBuilder.Set | includes/queryprinters/ListResultBuilder.php:100-107 | the settings become `Replace` of the old ones |
| ListResultBuilder.ListResultBuilder.PrepareBuilt | includes/queryprinters/ListResultBuilder.php:156-177 | the settings become `Prepared` of the old ones |
| ListResultBuilder.ListResultBuilder.GetValueTexts | includes/queryprinters/ListResultBuilder.php:334-344 | the loop yields `ValueTexts` |
| ListResultBuilder.ListResultBuilder.GetFieldTexts | includes/queryprinters/ListResultBuilder.php:262-273 | the loop yields `FieldTexts` |
| ListResultBuilder.ListResultBuilder.RenderRow | includes/queryprinters/ListResultBuilder.php:139-144 | `getRowText` without a template, `getRowTextFromTemplate` with one |
| ListResultBuilder.ListResultBuilder.GetRowTexts | includes/queryprinters/ListResultBuilder.php:184-199 | the loop yields `RowTexts`, numbering rows from offset + 1 |
| ListResultBuilder.ListResultBuilder.GetResultText | includes/queryprinters/ListResultBuilder.php:136-154 | prepares the settings, then intro + result-open + rows joined by sep + result-close + outro |

## Left out

- The Elasticsearch client is not modelled, including bulk, `indices()`, `ingest()`, `search`, `count`, `validate`, `ping` and `hasLock`. The `Elastic` module represents the cluster by index-name sets, an alias table, locks, a reachability flag and a request log.
- FieldMapper is not part of this model. Its builders are uninterpreted constructors in `QueryDsl`, and its field naming (`getField`) is an input of each property.
- Foreign string functions are opaque constructors and are not computed: md5, `json_encode`, base64, `mb_convert_encoding`, `CharArmor`, `DIBlob::normalize`, the `removeLinks` regular expressions and `Title::newFromText`. md5 is treated as injective.
- Floating point is not modelled. `(float)` sort keys, JD dates, numbers and relevance scores are opaque strings.
- Logging, `microtime`, message reporters and the `Html::rawElement` wrapper of the debug output are left out; they are output only.
- Indexer accessors are left out because they only pass collaborators through: `getTextIndexer`, `getFileIndexer`, `getConnection`, `isAccessible`, `newBulk` and `getId`. `getId` is the `lookupId` parameter of `FileIndexer.FileIndexer.Index`.
- Indexer.Indexer.Setup: states only that the lookup alias exists afterwards. The lookup setup may delete an index that the data alias points to, because the model does not assume the two types' names differ. `SetupIndexByType` states the per-type result.
- Indexer.Indexer.Drop: states the released locks and that no index is created. The per-type facts are in `DeleteIndexByType`, because dropping the lookup type may remove aliases of the data type under coinciding names.
- Elastic.Connection.AddAlias: an alias points to one index. The Elasticsearch `add` action gives an alias a further target when it already points elsewhere; the model replaces the target instead, so an alias that pointed at another index before `SetupIndexByType` points only at the chosen one in the model.
- Indexer: the store answers `getDataItemById` as a total function. The property list of a change diff is reduced to each property's `_type`.
- QueryEngine collaborators are the `Env` parameter of one query: the query builder, sort builder, options, connection responses, `elastic_result`, the bulk id lookup and `json_encode` (the `jsonEncode` function). Their internals are not modelled; the `smw` part of the query info (query string, sort keys, size and depth metrics) is given as a string.
- QueryEngine.QueryEngine.GetQueryResult: requires the looked-up item ids to come from the hit list, which the store's bulk lookup guarantees. Order and count are stated for looked-up items with distinct ids, which the store returns.
- QueryEngine `getQueryInfo`: a field read is not a separate member.
- QueryEngine: `in_array` for the highlight type uses PHP 7 loose comparison, so `true` and `0` are also accepted. PHP 8 differs.
- ValueDescriptionInterpreter: `addDescriptionLog` and the exception message are left out. The exception becomes an `Err` outcome.
- ValueDescriptionInterpreter: the source always passes a null hierarchy depth. `FindHierarchyMembers` models the depth branch, and the interpreter calls it with `None`.
- ValueDescriptionInterpreter: an empty or non-string LIKE value is modelled as not wide. PHP 7's `$value{0}` yields no '~' for it.
- ValueDescriptionInterpreter: `strpos` on a non-string value searches the value's string form.
- CallableUpdate: callback bodies are not run; `doUpdate` records the callback it would call. The MediaWiki `DeferredUpdates` runtime is a list of hand-offs.
- CallableUpdate: whether the host defines `DeferredUpdates::POSTSEND`/`PRESEND` is a registry constant.
- CallableUpdate: `getLoggableContext` and `emptyCallback` only log.
- CallableUpdate: an origin other than a string or a list is not modelled.
- CallableUpdate: the null fingerprint is PHP's null array key (""), which no md5 digest equals; it is modelled as its own key.
- CallableUpdate: the two static arrays are one shared `Registry` object. An update pushed twice by the same object is the same reference in both places.
- ListResultBuilder: these are inputs and are not modelled:
  - the template renderer, a function parameter;
  - the Linker;
  - `getShortText`, the linked and plain texts of each value;
  - the row count, which `getRowCount` obtains with a count query and caches.
- ListResultBuilder: `getTemplateRenderer` caching and cloning is left out; `PreparedIdempotent` shows repeated preparation gives the same settings.
- ListResultBuilder: setting names form a datatype. `array_merge` renumbers numeric string keys, which `Other` names could be; that is not modelled.
- ListResultBuilder: setting values are scalars (`Php.Value`); array-valued settings are not modelled.
- ListResultBuilder: the values of `SMW_HEADERS_SHOW`, `SMW_HEADERS_PLAIN` and `SMW_HEADERS_HIDE` are host constants and stay undetermined.
- ListResultBuilder.ResultText: has no separate shape lemma. `GetResultText` ties the method to it, and its parts are stated by `TemplateCallText`, `RowTexts` and `RowNumbers`.
- Context files are left out because they are object wiring, UI or tests of code not shown: `ElasticFactory`, `SearchProfile`, `PropertyStatisticsRebuildJob`, the test connection provider and the two unit tests.

## Findings

| source | as written | input that shows it | evidently intended | confidence | as-written member | corrected member |
|---|---|---|---|---|---|---|
| src/Elastic/QueryEngine/DescriptionInterpreters/ValueDescriptionInterpreter.php:184-190 | a NEQ or NLKE constraint outside a conjunction is wrapped in `bool must_not` at line 185 and then again at line 189, whose slot is `must_not` once more; the two negations cancel | `[[!Foo]]`: a page with NEQ and no property, not in a conjunction; the query matches the page Foo itself | one negation: the outer `bool` uses `filter` or `must` once the inner `must_not` is in place | medium, not executed | ValueDescriptionInterpreter.NegationCancelsAsWritten | ValueDescriptionInterpreter.CorrectedNegation |
