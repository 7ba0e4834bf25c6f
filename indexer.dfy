/**
 * The differential indexer: turns the change rows of one store mutation into
 * bulk operations (sub-object deletes, inverted-relation stubs, subject
 * documents), gates every mutation on the cluster being reachable and
 * unlocked, and resolves the version aliases of the two index types.
 */
module Indexer {

  import opened Common
  import opened Elastic
  import Php

  /** A subject as the id lookup returns it. */
  datatype SubjectItem = SubjectItem(
    id: int, dbKey: string, subobject: string, namespace: int, interwiki: string,
    sortKey: string,      // getSortKey()
    sortOption: string,   // getOption('sort', '')
    hash: string, title: string)

  /** `getObjectIds()->getDataItemById` */
  datatype Store = Store(itemById: int -> SubjectItem)

  datatype ChangeKind = OpInsert | OpDelete

  /**
   * One field change row. A column is present when its entry is `Some`;
   * `oBlob` may be present with a null value.
   */
  datatype Row = Row(
    kind: ChangeKind, sId: Option<int>, pId: Option<int>, oId: Option<int>,
    oBlob: Option<Option<string>>, oHash: Option<string>, oSerialized: Option<string>,
    oSortkey: Option<string>, oValue: Option<Php.Value>, oLat: Option<string>)

  datatype TableChangeOp = TableChangeOp(rows: seq<Row>)

  /** `propertyTypes` is getPropertyList('id') reduced to each property's `_type`. */
  datatype ChangeDiff = ChangeDiff(
    subject: SubjectItem, tableChangeOps: seq<TableChangeOp>, dataOps: seq<TableChangeOp>,
    propertyTypes: map<int, string>)

  // ---------------------------------------------------------------------
  // Index names and the safety gate

  /** `getIndexName`: the base name, or `<base>-<version>` when the rebuilder set a version. */
  function IndexName(base: string, versions: map<IndexType, string>, t: IndexType): (r: string)
    ensures t !in versions ==> r == base
    ensures t in versions ==> r == base + "-" + versions[t] && |r| == |base| + 1 + |versions[t]|
    ensures r[..|base|] == base
  {
    if t in versions then base + "-" + versions[t] else base
  }

  // ---------------------------------------------------------------------
  // The subject block

  /** `str_replace('_', ' ', $s)` */
  function Spaced(s: string): (r: string)
    ensures |r| == |s|
    ensures forall k :: 0 <= k < |s| ==> r[k] == (if s[k] == '_' then ' ' else s[k])
    ensures '_' !in r
  {
    seq(|s|, k requires 0 <= k < |s| => if s[k] == '_' then ' ' else s[k])
  }

  /** The sort key mapRows stores: the `sort` option when non-empty, else the sort key. */
  function SortSource(item: SubjectItem): (r: string)
    ensures item.sortOption != "" ==> r == item.sortOption
    ensures item.sortOption == "" ==> r == item.sortKey
  {
    if item.sortOption != "" then item.sortOption else item.sortKey
  }

  /** The `subject` block mapRows computes for a subject id. */
  function SubjectBlockOf(item: SubjectItem): SubjectBlock {
    SubjectBlock(Spaced(item.dbKey), item.subobject, item.namespace, item.interwiki, ArmoredSortKey(SortSource(item)))
  }

  // ---------------------------------------------------------------------
  // Row classification

  /** Which branch of the row-to-field decision a row takes, in priority order. */
  datatype Shape = TextShape | UriShape | NumericShape | BooleanShape | GeoShape | ReferenceShape | UnknownShape

  function ShapeOf(r: Row): Shape {
    if r.oBlob.Some? && r.oHash.Some? then TextShape
    else if r.oSerialized.Some? && r.oBlob.Some? then UriShape
    else if r.oSerialized.Some? && r.oSortkey.Some? then NumericShape
    else if r.oValue.Some? then BooleanShape
    else if r.oLat.Some? then GeoShape
    else if r.oId.Some? then ReferenceShape
    else UnknownShape
  }

  /** The (typed field, value) pairs a row with a property appends, in order. */
  function Classify(r: Row, propType: Option<string>, store: Store): seq<(TypeField, FieldVal)>
  {
    match ShapeOf(r)
    case TextShape =>
      var text := if propType == Some("_keyw") then NormalizedHash(r.oHash.value)
                  else if r.oBlob.value.None? then PlainText(r.oHash.value)
                  else PlainText(r.oBlob.value.value);
      [(TxtField, TxtVal(text))]
    case UriShape =>
      [(UriField, UriVal(if r.oBlob.value.None? then r.oSerialized.value else r.oBlob.value.value))]
    case NumericShape =>
      [(if Php.Contains(r.oSerialized.value, '/') then DatField else NumField, FloatVal(r.oSortkey.value))]
    case BooleanShape => [(BooField, BoolVal(Php.ToBool(r.oValue.value)))]
    case GeoShape => [(GeoField, GeoVal(r.oSerialized))]
    case ReferenceShape =>
      [(WpgField, SortKeyVal(store.itemById(r.oId.value).sortKey)), (WpgID, IdVal(r.oId.value))]
    case UnknownShape => [(WpgField, NotAvailable)]
  }

  function PropType(types: map<int, string>, pid: int): Option<string> {
    if pid in types then Some(types[pid]) else None
  }

  /** The values a row appends, with the property types and the store fixed. */
  type Classifier = Row -> seq<(TypeField, FieldVal)>

  function RowValues(types: map<int, string>, store: Store): Classifier {
    (r: Row) => if r.pId.Some? then Classify(r, PropType(types, r.pId.value), store) else []
  }

  // ---------------------------------------------------------------------
  // The insert map and the inverted map

  /**
   * The by-reference state of mapRows: the subject ids in first-seen order
   * with their documents, and the ids that received an inverted stub, in
   * first-seen order.
   */
  datatype Batch = Batch(order: seq<int>, docs: map<int, Doc>, inverted: seq<int>)

  predicate NoDup(s: seq<int>) {
    forall i, j :: 0 <= i < j < |s| ==> s[i] != s[j]
  }

  predicate Valid(b: Batch) {
    NoDup(b.order) && (set k | k in b.order) == b.docs.Keys && NoDup(b.inverted)
  }

  const EmptyBatch := Batch([], map[], [])

  /** The typed array `docs[sid]["P:" + pid][t]`, or [] when unset. */
  function Arr(b: Batch, sid: int, pid: int, t: TypeField): seq<FieldVal> {
    if sid in b.docs && pid in b.docs[sid].props && t in b.docs[sid].props[pid]
    then b.docs[sid].props[pid][t] else []
  }

  /** `array_merge($insertRows[$sid][$pid][$type], [$val])` */
  function AppendValue(b: Batch, sid: int, pid: int, t: TypeField, v: FieldVal): Batch
    requires sid in b.docs
  {
    var doc := b.docs[sid];
    var block := if pid in doc.props then doc.props[pid] else map[];
    var arr := if t in block then block[t] else [];
    b.(docs := b.docs[sid := doc.(props := doc.props[pid := block[t := arr + [v]]])])
  }

  function AppendValues(b: Batch, sid: int, pid: int, vals: seq<(TypeField, FieldVal)>): (r: Batch)
    requires sid in b.docs
    ensures sid in r.docs && r.docs.Keys == b.docs.Keys && r.order == b.order && r.inverted == b.inverted
    decreases |vals|
  {
    if vals == [] then b
    else AppendValues(AppendValue(b, sid, pid, vals[0].0, vals[0].1), sid, pid, vals[1..])
  }

  /** `mapRows` for a row that carries `s_id`. */
  function MapRow(b: Batch, r: Row, cl: Classifier, store: Store): Batch
    requires r.sId.Some?
  {
    var sid := r.sId.value;
    var b1 := if sid in b.docs then b
              else Batch(b.order + [sid], b.docs[sid := Doc(SubjectBlockOf(store.itemById(sid)), map[])], b.inverted);
    if r.pId.None? then b1
    else
      var b2 := AppendValues(b1, sid, r.pId.value, cl(r));
      if ShapeOf(r) == ReferenceShape && r.oId.value !in b2.inverted then b2.(inverted := b2.inverted + [r.oId.value])
      else b2
  }

  /** The rows of `getDataOps()` folded through mapRows in order; rows without `s_id` are skipped. */
  function FoldRows(b: Batch, rows: seq<Row>, cl: Classifier, store: Store): Batch
    decreases |rows|
  {
    if rows == [] then b
    else
      var prev := FoldRows(b, rows[..|rows| - 1], cl, store);
      var r := rows[|rows| - 1];
      if r.sId.Some? then MapRow(prev, r, cl, store) else prev
  }

  function FoldTables(b: Batch, tables: seq<TableChangeOp>, cl: Classifier, store: Store): Batch
    decreases |tables|
  {
    if tables == [] then b
    else FoldRows(FoldTables(b, tables[..|tables| - 1], cl, store), tables[|tables| - 1].rows, cl, store)
  }

  // ---------------------------------------------------------------------
  // The bulk operations of doMap

  /** Deletes for the delete-op rows that carry `o_id`. */
  function RowDeletes(rows: seq<Row>): seq<BulkOp>
    decreases |rows|
  {
    if rows == [] then []
    else
      var r := rows[|rows| - 1];
      RowDeletes(rows[..|rows| - 1]) + (if r.kind == OpDelete && r.oId.Some? then [DeleteOp(HeadIndex, IntId(r.oId.value))] else [])
  }

  function SubobjectDeletes(tables: seq<TableChangeOp>): seq<BulkOp>
    decreases |tables|
  {
    if tables == [] then [] else SubobjectDeletes(tables[..|tables| - 1]) + RowDeletes(tables[|tables| - 1].rows)
  }

  function Upserts(ids: seq<int>): (ops: seq<BulkOp>)
    ensures |ops| == |ids| && forall k :: 0 <= k < |ids| ==> ops[k] == UpsertStub(ids[k])
  {
    if ids == [] then [] else [UpsertStub(ids[0])] + Upserts(ids[1..])
  }

  function Indexes(order: seq<int>, docs: map<int, Doc>): (ops: seq<BulkOp>)
    requires forall k :: 0 <= k < |order| ==> order[k] in docs
    ensures |ops| == |order| && forall k :: 0 <= k < |order| ==> ops[k] == IndexOp(order[k], docs[order[k]])
  {
    if order == [] then [] else [IndexOp(order[0], docs[order[0]])] + Indexes(order[1..], docs)
  }

  /** The batch doMap builds from a change diff. */
  function BatchOf(diff: ChangeDiff, store: Store): Batch {
    FoldTables(EmptyBatch, diff.dataOps, RowValues(diff.propertyTypes, store), store)
  }

  /** The complete bulk body of doMap: deletes, then stub upserts, then subject documents. */
  function MapDiff(diff: ChangeDiff, store: Store): seq<BulkOp>
  {
    FoldTablesValid(EmptyBatch, diff.dataOps, RowValues(diff.propertyTypes, store), store);
    Assemble(SubobjectDeletes(diff.tableChangeOps), BatchOf(diff, store))
  }

  /** The bulk body from the deletes and a finished batch. */
  function Assemble(deletes: seq<BulkOp>, b: Batch): seq<BulkOp>
    requires Valid(b)
  {
    assert forall k :: 0 <= k < |b.order| ==> b.order[k] in (set k | k in b.order);
    deletes + Upserts(b.inverted) + Indexes(b.order, b.docs)
  }


  // ---------------------------------------------------------------------
  // Lemmas: validity of the batch

  lemma AppendValuesKeepsDocs(b: Batch, sid: int, pid: int, vals: seq<(TypeField, FieldVal)>)
    requires sid in b.docs
    ensures forall s :: s in b.docs ==> AppendValues(b, sid, pid, vals).docs[s].subject == b.docs[s].subject
    decreases |vals|
  {
    if vals != [] {
      AppendValuesKeepsDocs(AppendValue(b, sid, pid, vals[0].0, vals[0].1), sid, pid, vals[1..]);
    }
  }

  lemma {:induction false} MapRowValid(b: Batch, r: Row, cl: Classifier, store: Store)
    requires Valid(b) && r.sId.Some?
    ensures Valid(MapRow(b, r, cl, store))
  {
    var sid := r.sId.value;
    if sid !in b.docs {
      var b1 := Batch(b.order + [sid], b.docs[sid := Doc(SubjectBlockOf(store.itemById(sid)), map[])], b.inverted);
      assert (set k | k in b1.order) == (set k | k in b.order) + {sid};
      assert sid !in b.order;
      assert Valid(b1);
    }
  }

  lemma {:induction false} FoldRowsValid(b: Batch, rows: seq<Row>, cl: Classifier, store: Store)
    requires Valid(b)
    ensures Valid(FoldRows(b, rows, cl, store))
    decreases |rows|
  {
    if rows != [] {
      FoldRowsValid(b, rows[..|rows| - 1], cl, store);
      if rows[|rows| - 1].sId.Some? {
        MapRowValid(FoldRows(b, rows[..|rows| - 1], cl, store), rows[|rows| - 1], cl, store);
      }
    }
  }

  lemma {:induction false} FoldTablesValid(b: Batch, tables: seq<TableChangeOp>, cl: Classifier, store: Store)
    requires Valid(b)
    ensures Valid(FoldTables(b, tables, cl, store))
    decreases |tables|
  {
    if tables != [] {
      FoldTablesValid(b, tables[..|tables| - 1], cl, store);
      FoldRowsValid(FoldTables(b, tables[..|tables| - 1], cl, store), tables[|tables| - 1].rows, cl, store);
    }
  }

  // ---------------------------------------------------------------------
  // Lemmas: subject blocks

  /** The set of subject ids a list of rows mentions. */
  function SubjectIds(rows: seq<Row>): set<int>
    decreases |rows|
  {
    if rows == [] then {}
    else SubjectIds(rows[..|rows| - 1]) + (if rows[|rows| - 1].sId.Some? then {rows[|rows| - 1].sId.value} else {})
  }

  /** Every document's subject block is the one computed from the store for its id. */
  predicate SubjectsFromStore(b: Batch, store: Store) {
    forall s :: s in b.docs ==> b.docs[s].subject == SubjectBlockOf(store.itemById(s))
  }

  /**
   * mapRows adds the subject block exactly once per subject id: a new id gets
   * the block computed from the store and is appended to the order; a known
   * id keeps its block and its position.
   */
  lemma {:induction false} MapRowSubject(b: Batch, r: Row, cl: Classifier, store: Store)
    requires Valid(b) && r.sId.Some?
    ensures var b' := MapRow(b, r, cl, store);
      && b'.docs.Keys == b.docs.Keys + {r.sId.value}
      && b'.order == (if r.sId.value in b.docs then b.order else b.order + [r.sId.value])
      && (forall s :: s in b.docs ==> b'.docs[s].subject == b.docs[s].subject)
      && (r.sId.value !in b.docs ==> b'.docs[r.sId.value].subject == SubjectBlockOf(store.itemById(r.sId.value)))
  {
    var sid := r.sId.value;
    var b1 := if sid in b.docs then b
              else Batch(b.order + [sid], b.docs[sid := Doc(SubjectBlockOf(store.itemById(sid)), map[])], b.inverted);
    if r.pId.Some? {
      AppendValuesKeepsDocs(b1, sid, r.pId.value, cl(r));
    }
  }

  /**
   * Folding rows adds a document for exactly the subject ids of the rows that
   * were not there yet, each with the block computed from the store.
   */
  lemma {:induction false} FoldSubjects(b: Batch, rows: seq<Row>, cl: Classifier, store: Store)
    requires Valid(b) && SubjectsFromStore(b, store)
    ensures var b' := FoldRows(b, rows, cl, store);
      Valid(b') && b'.docs.Keys == b.docs.Keys + SubjectIds(rows) && SubjectsFromStore(b', store)
    decreases |rows|
  {
    FoldRowsValid(b, rows, cl, store);
    if rows != [] {
      FoldSubjects(b, rows[..|rows| - 1], cl, store);
      FoldSubjectsStep(b, rows, cl, store);
    }
  }

  lemma FoldSubjectsStep(b: Batch, rows: seq<Row>, cl: Classifier, store: Store)
    requires rows != [] && Valid(b)
    ensures var prev := FoldRows(b, rows[..|rows| - 1], cl, store); var r := rows[|rows| - 1];
      var next := FoldRows(b, rows, cl, store);
      && next.docs.Keys == prev.docs.Keys + (if r.sId.Some? then {r.sId.value} else {})
      && (SubjectsFromStore(prev, store) ==> SubjectsFromStore(next, store))
  {
    var prev := FoldRows(b, rows[..|rows| - 1], cl, store);
    FoldRowsValid(b, rows[..|rows| - 1], cl, store);
    var r := rows[|rows| - 1];
    if r.sId.Some? {
      MapRowSubject(prev, r, cl, store);
    }
  }

  /** The subject ids of all rows of all tables. */
  function TableSubjectIds(tables: seq<TableChangeOp>): set<int>
    decreases |tables|
  {
    if tables == [] then {} else TableSubjectIds(tables[..|tables| - 1]) + SubjectIds(tables[|tables| - 1].rows)
  }

  lemma {:induction false} FoldTablesSubjects(tables: seq<TableChangeOp>, cl: Classifier, store: Store)
    ensures var b := FoldTables(EmptyBatch, tables, cl, store);
      Valid(b) && b.docs.Keys == TableSubjectIds(tables) && SubjectsFromStore(b, store)
    decreases |tables|
  {
    if tables != [] {
      FoldTablesSubjects(tables[..|tables| - 1], cl, store);
      FoldSubjects(FoldTables(EmptyBatch, tables[..|tables| - 1], cl, store), tables[|tables| - 1].rows, cl, store);
    }
  }

  /** A row without `p_id` adds only the subject block. */
  lemma RowWithoutProperty(b: Batch, r: Row, cl: Classifier, store: Store)
    requires Valid(b) && r.sId.Some? && r.pId.None?
    ensures var b' := MapRow(b, r, cl, store);
      && b'.inverted == b.inverted
      && (forall s :: s in b.docs ==> b'.docs[s] == b.docs[s])
      && (r.sId.value !in b.docs ==> b'.docs[r.sId.value].props == map[])
  {
  }

  // ---------------------------------------------------------------------
  // Lemmas: typed arrays are only appended to

  /** The values of `vals` that go to typed field `t`, in order. */
  function ValuesFor(vals: seq<(TypeField, FieldVal)>, t: TypeField): seq<FieldVal>
    decreases |vals|
  {
    if vals == [] then [] else (if vals[0].0 == t then [vals[0].1] else []) + ValuesFor(vals[1..], t)
  }

  lemma AppendValueArr(b: Batch, sid: int, pid: int, t: TypeField, v: FieldVal, s: int, p: int, u: TypeField)
    requires sid in b.docs
    ensures Arr(AppendValue(b, sid, pid, t, v), s, p, u) == Arr(b, s, p, u) + (if s == sid && p == pid && u == t then [v] else [])
  {
  }

  lemma {:induction false} AppendValuesArr(b: Batch, sid: int, pid: int, vals: seq<(TypeField, FieldVal)>, s: int, p: int, u: TypeField)
    requires sid in b.docs
    ensures Arr(AppendValues(b, sid, pid, vals), s, p, u) == Arr(b, s, p, u) + (if s == sid && p == pid then ValuesFor(vals, u) else [])
    decreases |vals|
  {
    if vals != [] {
      var b1 := AppendValue(b, sid, pid, vals[0].0, vals[0].1);
      AppendValueArr(b, sid, pid, vals[0].0, vals[0].1, s, p, u);
      AppendValuesArr(b1, sid, pid, vals[1..], s, p, u);
      var here := s == sid && p == pid;
      var first := if here && u == vals[0].0 then [vals[0].1] else [];
      var rest := if here then ValuesFor(vals[1..], u) else [];
      Chain(Arr(b1, s, p, u), Arr(AppendValues(b, sid, pid, vals), s, p, u), Arr(b, s, p, u), first, rest);
    }
  }

  /** Appending in two steps is appending the two parts at once. */
  lemma Chain<T>(x: seq<T>, y: seq<T>, before: seq<T>, first: seq<T>, rest: seq<T>)
    requires x == before + first && y == x + rest
    ensures y == before + (first + rest)
  {
  }

  /** What one row contributes to the typed array (s, p, u). */
  function Contribution(r: Row, cl: Classifier, store: Store, s: int, p: int, u: TypeField): seq<FieldVal> {
    if r.sId == Some(s) && r.pId == Some(p) then ValuesFor(cl(r), u) else []
  }

  /** A new document without properties adds no typed values. */
  lemma NewDocArr(b: Batch, sid: int, d: Doc, s: int, p: int, u: TypeField)
    requires sid !in b.docs && d.props == map[]
    ensures Arr(Batch(b.order + [sid], b.docs[sid := d], b.inverted), s, p, u) == Arr(b, s, p, u)
  {
  }

  /** mapRows appends the row's values to its own arrays and leaves every other array as it was. */
  lemma {:induction false} MapRowArr(b: Batch, r: Row, cl: Classifier, store: Store, s: int, p: int, u: TypeField)
    requires Valid(b) && r.sId.Some?
    ensures Arr(MapRow(b, r, cl, store), s, p, u) == Arr(b, s, p, u) + Contribution(r, cl, store, s, p, u)
  {
    var sid := r.sId.value;
    var b1 := if sid in b.docs then b
              else Batch(b.order + [sid], b.docs[sid := Doc(SubjectBlockOf(store.itemById(sid)), map[])], b.inverted);
    if sid !in b.docs {
      NewDocArr(b, sid, Doc(SubjectBlockOf(store.itemById(sid)), map[]), s, p, u);
    }
    if r.pId.Some? {
      var b2 := AppendValues(b1, sid, r.pId.value, cl(r));
      AppendValuesArr(b1, sid, r.pId.value, cl(r), s, p, u);
      assert Arr(MapRow(b, r, cl, store), s, p, u) == Arr(b2, s, p, u);
    }
  }

  function Contributions(rows: seq<Row>, cl: Classifier, store: Store, s: int, p: int, u: TypeField): seq<FieldVal>
    decreases |rows|
  {
    if rows == [] then []
    else Contributions(rows[..|rows| - 1], cl, store, s, p, u) + Contribution(rows[|rows| - 1], cl, store, s, p, u)
  }

  /** One step of the fold: the last row's contribution lands after everything before it. */
  lemma FoldRowsArrStep(b: Batch, rows: seq<Row>, cl: Classifier, store: Store, s: int, p: int, u: TypeField)
    requires rows != [] && Valid(b)
    ensures Arr(FoldRows(b, rows, cl, store), s, p, u) ==
      Arr(FoldRows(b, rows[..|rows| - 1], cl, store), s, p, u) + Contribution(rows[|rows| - 1], cl, store, s, p, u)
  {
    var prev := FoldRows(b, rows[..|rows| - 1], cl, store);
    FoldRowsValid(b, rows[..|rows| - 1], cl, store);
    var r := rows[|rows| - 1];
    if r.sId.Some? {
      MapRowArr(prev, r, cl, store, s, p, u);
    }
  }

  /** Over a whole list of rows, each typed array is the old one followed by the rows' contributions in order. */
  lemma {:induction false} FoldRowsArr(b: Batch, rows: seq<Row>, cl: Classifier, store: Store, s: int, p: int, u: TypeField)
    requires Valid(b)
    ensures Arr(FoldRows(b, rows, cl, store), s, p, u) == Arr(b, s, p, u) + Contributions(rows, cl, store, s, p, u)
    decreases |rows|
  {
    if rows != [] {
      var init := rows[..|rows| - 1];
      FoldRowsArr(b, init, cl, store, s, p, u);
      FoldRowsArrStep(b, rows, cl, store, s, p, u);
      Chain(Arr(FoldRows(b, init, cl, store), s, p, u), Arr(FoldRows(b, rows, cl, store), s, p, u),
            Arr(b, s, p, u), Contributions(init, cl, store, s, p, u), Contribution(rows[|rows| - 1], cl, store, s, p, u));
    }
  }

  /** A reference row adds two values (wpgField and wpgID), every other row with a property one. */
  lemma ValuesPerRow(r: Row, propType: Option<string>, store: Store)
    ensures |Classify(r, propType, store)| == (if ShapeOf(r) == ReferenceShape then 2 else 1)
  {
  }

  /** The row-to-field decision table, as the typed field each row's first value goes to. */
  lemma ClassificationTable(r: Row, propType: Option<string>, store: Store)
    ensures var f := Classify(r, propType, store)[0].0;
      && (r.oBlob.Some? && r.oHash.Some? ==> f == TxtField)
      && (!(r.oBlob.Some? && r.oHash.Some?) && r.oSerialized.Some? && r.oBlob.Some? ==> f == UriField)
      && (ShapeOf(r) == NumericShape ==> (f == DatField <==> '/' in r.oSerialized.value) && (f == DatField || f == NumField))
      && (ShapeOf(r) == BooleanShape ==> f == BooField)
      && (ShapeOf(r) == GeoShape ==> f == GeoField)
      && (ShapeOf(r) == ReferenceShape ==> f == WpgField && Classify(r, propType, store)[1] == (WpgID, IdVal(r.oId.value)))
      && (ShapeOf(r) == UnknownShape ==> Classify(r, propType, store) == [(WpgField, NotAvailable)])
  {
  }

  /** The txtField value: blob, or hash when the blob is null; the normalized hash for `_keyw` properties. */
  lemma TextValue(r: Row, propType: Option<string>, store: Store)
    requires ShapeOf(r) == TextShape
    ensures Classify(r, propType, store)[0].1 ==
      TxtVal(if propType == Some("_keyw") then NormalizedHash(r.oHash.value)
             else if r.oBlob.value.None? then PlainText(r.oHash.value) else PlainText(r.oBlob.value.value))
  {
  }

  // ---------------------------------------------------------------------
  // Lemmas: inverted stubs

  /** The ids a list of rows references through `o_id` (reference rows with subject and property). */
  function ReferencedIds(rows: seq<Row>): set<int>
    decreases |rows|
  {
    if rows == [] then {}
    else
      var r := rows[|rows| - 1];
      ReferencedIds(rows[..|rows| - 1]) +
        (if r.sId.Some? && r.pId.Some? && ShapeOf(r) == ReferenceShape then {r.oId.value} else {})
  }

  /** mapRows appends the referenced id to the inverted list the first time it is referenced. */
  lemma MapRowInverted(b: Batch, r: Row, cl: Classifier, store: Store)
    requires Valid(b) && r.sId.Some?
    ensures MapRow(b, r, cl, store).inverted == b.inverted +
      (if r.pId.Some? && ShapeOf(r) == ReferenceShape && r.oId.value !in b.inverted then [r.oId.value] else [])
  {
    if r.pId.Some? {
      var sid := r.sId.value;
      var b1 := if sid in b.docs then b
                else Batch(b.order + [sid], b.docs[sid := Doc(SubjectBlockOf(store.itemById(sid)), map[])], b.inverted);
      assert AppendValues(b1, sid, r.pId.value, cl(r)).inverted == b.inverted;
    }
  }

  /** The inverted list after a list of rows: referenced ids appended on first reference. */
  function Stubs(inv: seq<int>, rows: seq<Row>): seq<int>
    decreases |rows|
  {
    if rows == [] then inv
    else
      var prev := Stubs(inv, rows[..|rows| - 1]);
      var r := rows[|rows| - 1];
      if r.sId.Some? && r.pId.Some? && ShapeOf(r) == ReferenceShape && r.oId.value !in prev then prev + [r.oId.value]
      else prev
  }

  /** The inverted list mapRows builds is exactly Stubs. */
  lemma {:induction false} FoldRowsStubs(b: Batch, rows: seq<Row>, cl: Classifier, store: Store)
    requires Valid(b)
    ensures FoldRows(b, rows, cl, store).inverted == Stubs(b.inverted, rows)
    decreases |rows|
  {
    if rows != [] {
      var init := rows[..|rows| - 1];
      FoldRowsStubs(b, init, cl, store);
      FoldRowsValid(b, init, cl, store);
      if rows[|rows| - 1].sId.Some? {
        MapRowInverted(FoldRows(b, init, cl, store), rows[|rows| - 1], cl, store);
      }
    }
  }

  /** Each referenced id gets one stub, created the first time it is referenced; earlier stubs stay in place. */
  lemma {:induction false} StubsSpec(inv: seq<int>, rows: seq<Row>)
    requires NoDup(inv)
    ensures var r := Stubs(inv, rows);
      && NoDup(r)
      && (set k | k in r) == (set k | k in inv) + ReferencedIds(rows)
      && |r| >= |inv| && r[..|inv|] == inv
    decreases |rows|
  {
    if rows != [] {
      var init := rows[..|rows| - 1];
      StubsSpec(inv, init);
      var prev := Stubs(inv, init);
      var r := rows[|rows| - 1];
      if r.sId.Some? && r.pId.Some? && ShapeOf(r) == ReferenceShape && r.oId.value !in prev {
        var next := prev + [r.oId.value];
        assert (set k | k in next) == (set k | k in prev) + {r.oId.value};
        assert next[..|inv|] == prev[..|inv|];
      } else if r.sId.Some? && r.pId.Some? && ShapeOf(r) == ReferenceShape {
        assert r.oId.value in (set k | k in prev);
      }
    }
  }

  // ---------------------------------------------------------------------
  // Lemmas: the operation order of doMap

  /** 0 for deletes, 1 for stub upserts, 2 for subject index operations. */
  function Rank(op: BulkOp): nat {
    match op
    case DeleteOp(_, _) => 0
    case UpsertStub(_) => 1
    case IndexOp(_, _) => 2
  }

  lemma {:induction false} RowDeletesAreDeletes(rows: seq<Row>)
    ensures forall k :: 0 <= k < |RowDeletes(rows)| ==> RowDeletes(rows)[k].DeleteOp?
    decreases |rows|
  {
    if rows != [] { RowDeletesAreDeletes(rows[..|rows| - 1]); }
  }

  lemma {:induction false} SubobjectDeletesAreDeletes(tables: seq<TableChangeOp>)
    ensures forall k :: 0 <= k < |SubobjectDeletes(tables)| ==> SubobjectDeletes(tables)[k].DeleteOp?
    decreases |tables|
  {
    if tables != [] {
      SubobjectDeletesAreDeletes(tables[..|tables| - 1]);
      RowDeletesAreDeletes(tables[|tables| - 1].rows);
    }
  }

  /**
   * doMap's operations never go back in rank: all deletes come first, then
   * the stub upserts, then one index operation per subject id.
   */
  lemma AssembleOrder(deletes: seq<BulkOp>, b: Batch)
    requires Valid(b) && forall k :: 0 <= k < |deletes| ==> deletes[k].DeleteOp?
    ensures var ops := Assemble(deletes, b);
      && (forall i, j :: 0 <= i < j < |ops| ==> Rank(ops[i]) <= Rank(ops[j]))
      && |ops| == |deletes| + |b.inverted| + |b.order|
  {
    var ops := Assemble(deletes, b);
    var d := deletes;
    var u := Upserts(b.inverted);
    var x := Indexes(b.order, b.docs);
    assert ops == d + u + x;
    forall k | 0 <= k < |ops| ensures Rank(ops[k]) == (if k < |d| then 0 else if k < |d| + |u| then 1 else 2) {
      if k < |d| { assert ops[k] == d[k]; }
      else if k < |d| + |u| { assert ops[k] == u[k - |d|]; }
      else { assert ops[k] == x[k - |d| - |u|]; }
    }
  }

  lemma MapDiffOrder(diff: ChangeDiff, store: Store)
    ensures var ops := MapDiff(diff, store);
      && (forall i, j :: 0 <= i < j < |ops| ==> Rank(ops[i]) <= Rank(ops[j]))
      && |ops| == |SubobjectDeletes(diff.tableChangeOps)| + |BatchOf(diff, store).inverted| + |BatchOf(diff, store).order|
  {
    SubobjectDeletesAreDeletes(diff.tableChangeOps);
    FoldTablesValid(EmptyBatch, diff.dataOps, RowValues(diff.propertyTypes, store), store);
    AssembleOrder(SubobjectDeletes(diff.tableChangeOps), BatchOf(diff, store));
  }

  /** The index operations of a valid batch: each subject id once, each with its own document. */
  lemma AssembleIndexes(deletes: seq<BulkOp>, b: Batch)
    requires Valid(b)
    ensures var ops := Assemble(deletes, b); var n := |deletes| + |b.inverted|;
      && (forall i, j :: n <= i < j < |ops| ==> ops[i].docId != ops[j].docId)
      && (forall i :: n <= i < |ops| ==> ops[i].IndexOp? && ops[i].docId in b.docs && ops[i].doc == b.docs[ops[i].docId])
      && (forall sid :: sid in b.docs ==> exists i :: n <= i < |ops| && ops[i].docId == sid)
  {
    var ops := Assemble(deletes, b);
    var u := Upserts(b.inverted);
    var x := Indexes(b.order, b.docs);
    assert ops == (deletes + u) + x;
    var n := |deletes| + |u|;
    assert forall i :: n <= i < |ops| ==> ops[i] == x[i - n];
    forall sid | sid in b.docs ensures exists i :: n <= i < |ops| && ops[i].docId == sid {
      assert sid in (set k | k in b.order);
      var m :| 0 <= m < |b.order| && b.order[m] == sid;
      assert ops[n + m].docId == sid;
    }
  }

  /**
   * The index operations of doMap cover every subject id of the data ops
   * exactly once, each document carrying the subject block from the store.
   */
  lemma MapDiffIndexesEachSubjectOnce(diff: ChangeDiff, store: Store)
    ensures var ops := MapDiff(diff, store); var n := |SubobjectDeletes(diff.tableChangeOps)| + |BatchOf(diff, store).inverted|;
      && (forall i, j :: n <= i < j < |ops| ==> ops[i].docId != ops[j].docId)
      && (forall i :: n <= i < |ops| ==>
            (ops[i].IndexOp? && ops[i].docId in TableSubjectIds(diff.dataOps)
             && ops[i].doc.subject == SubjectBlockOf(store.itemById(ops[i].docId))))
      && (forall sid :: sid in TableSubjectIds(diff.dataOps) ==> exists i :: n <= i < |ops| && ops[i].docId == sid)
  {
    FoldTablesSubjects(diff.dataOps, RowValues(diff.propertyTypes, store), store);
    AssembleIndexes(SubobjectDeletes(diff.tableChangeOps), BatchOf(diff, store));
  }

  // ---------------------------------------------------------------------
  // Delete operations

  /** The bulk operations of `delete` for one id. */
  function DeleteOpsFor(id: int, isConcept: bool, lookupIndex: string): seq<BulkOp> {
    [DeleteOp(HeadIndex, IntId(id))] + (if isConcept then [DeleteOp(ExplicitIndex(lookupIndex, Lookup), Md5OfId(id))] else [])
  }

  function DeleteOps(ids: seq<int>, isConcept: bool, lookupIndex: string): seq<BulkOp>
    decreases |ids|
  {
    if ids == [] then [] else DeleteOps(ids[..|ids| - 1], isConcept, lookupIndex) + DeleteOpsFor(ids[|ids| - 1], isConcept, lookupIndex)
  }

  /**
   * One data-index delete per id in list order; with `isConcept` each is
   * followed by the lookup-index delete keyed by md5 of the id.
   */
  lemma {:induction false} DeleteOpsShape(ids: seq<int>, isConcept: bool, lookupIndex: string)
    ensures var ops := DeleteOps(ids, isConcept, lookupIndex); var w := if isConcept then 2 else 1;
      && |ops| == w * |ids|
      && (forall k :: 0 <= k < |ids| ==> ops[w * k] == DeleteOp(HeadIndex, IntId(ids[k])))
      && (isConcept ==> forall k :: 0 <= k < |ids| ==> ops[2 * k + 1] == DeleteOp(ExplicitIndex(lookupIndex, Lookup), Md5OfId(ids[k])))
    decreases |ids|
  {
    if ids != [] {
      var init := ids[..|ids| - 1];
      DeleteOpsShape(init, isConcept, lookupIndex);
      var w := if isConcept then 2 else 1;
      var prev := DeleteOps(init, isConcept, lookupIndex);
      var ops := DeleteOps(ids, isConcept, lookupIndex);
      assert ops == prev + DeleteOpsFor(ids[|ids| - 1], isConcept, lookupIndex);
      forall k | 0 <= k < |ids| ensures ops[w * k] == DeleteOp(HeadIndex, IntId(ids[k])) {
        if k < |init| {
          assert w * k < |prev| by { assert w * k <= w * (|init| - 1); }
          assert ids[k] == init[k];
        } else {
          assert w * k == |prev|;
        }
      }
      if isConcept {
        forall k | 0 <= k < |ids| ensures ops[2 * k + 1] == DeleteOp(ExplicitIndex(lookupIndex, Lookup), Md5OfId(ids[k])) {
          if k < |init| {
            assert ids[k] == init[k];
          } else {
            assert 2 * k + 1 == |prev| + 1;
          }
        }
      }
    }
  }

  // ---------------------------------------------------------------------
  // The indexer

  class Indexer {
    var versions: map<IndexType, string>
    var origin: string
    const conn: Connection
    const jobs: JobQueue
    const store: Store

    constructor (conn: Connection, jobs: JobQueue, store: Store)
      ensures this.conn == conn && this.jobs == jobs && this.store == store
      ensures versions == map[] && origin == ""
    {
      this.conn := conn;
      this.jobs := jobs;
      this.store := store;
      versions := map[];
      origin := "";
    }

    method SetVersions(vs: map<IndexType, string>)
      modifies this`versions
      ensures versions == vs
    {
      versions := vs;
    }

    method SetOrigin(o: string)
      modifies this`origin
      ensures origin == o
    {
      origin := o;
    }

    /** `isSafe`: the data index is not locked by the rebuilder and a node answers the ping. */
    predicate IsSafe()
      reads conn
    {
      Data !in conn.locks && conn.reachable
    }

    function GetIndexName(t: IndexType): (r: string)
      reads this, conn
    {
      IndexName(conn.IndexNameByType(t), versions, t)
    }

    /** `delete`: per-id deletes in one bulk, or a recovery job when unsafe. */
    method Delete(ids: seq<int>, isConcept: bool)
      modifies conn`requests, jobs
      ensures !IsSafe() ==> (conn.requests == old(conn.requests) &&
        jobs.jobs == old(jobs.jobs) + [IndexerRecoveryJob(IdListTitle(origin, ids), DeleteParams(ids))])
      ensures IsSafe() ==> (jobs.jobs == old(jobs.jobs) &&
        conn.requests == old(conn.requests) + [BulkRequest(GetIndexName(Data), Data, DeleteOps(ids, isConcept, GetIndexName(Lookup)))])
    {
      if !IsSafe() {
        jobs.Insert(IndexerRecoveryJob(IdListTitle(origin, ids), DeleteParams(ids)));
        return;
      }
      var head := GetIndexName(Data);
      var lookup := GetIndexName(Lookup);
      var ops: seq<BulkOp> := [];
      var i := 0;
      while i < |ids|
        invariant 0 <= i <= |ids|
        invariant ops == DeleteOps(ids[..i], isConcept, lookup)
      {
        ops := ops + [DeleteOp(HeadIndex, IntId(ids[i]))];
        if isConcept {
          ops := ops + [DeleteOp(ExplicitIndex(lookup, Lookup), Md5OfId(ids[i]))];
        }
        assert ids[..i + 1][..i] == ids[..i];
        i := i + 1;
      }
      assert ids[..|ids|] == ids;
      conn.Send(BulkRequest(head, Data, ops));
    }

    /** `create`: a document holding only the subject descriptor, or a recovery job when unsafe. */
    method Create(item: SubjectItem)
      modifies conn`requests, jobs
      ensures !IsSafe() ==> (conn.requests == old(conn.requests) &&
        jobs.jobs == old(jobs.jobs) + [IndexerRecoveryJob(PageTitle(item.title), CreateParams(item.hash))])
      ensures IsSafe() ==> (jobs.jobs == old(jobs.jobs) &&
        conn.requests == old(conn.requests) + [CreateRequest(GetIndexName(Data), Data, item.id,
          SubjectBlock(Spaced(item.dbKey), item.subobject, item.namespace, item.interwiki, RawSortKey(item.sortKey)))])
    {
      if !IsSafe() {
        jobs.Insert(IndexerRecoveryJob(PageTitle(item.title), CreateParams(item.hash)));
        return;
      }
      var block := SubjectBlock(Spaced(item.dbKey), item.subobject, item.namespace, item.interwiki, RawSortKey(item.sortKey));
      conn.Send(CreateRequest(GetIndexName(Data), Data, item.id, block));
    }

    /** `safeReplicate`: index the diff, or a recovery job when unsafe. */
    method SafeReplicate(diff: ChangeDiff)
      modifies conn`requests, jobs
      ensures !IsSafe() ==> (conn.requests == old(conn.requests) &&
        jobs.jobs == old(jobs.jobs) + [IndexerRecoveryJob(PageTitle(diff.subject.title), IndexParams(diff.subject.hash))])
      ensures IsSafe() ==> (jobs.jobs == old(jobs.jobs) &&
        conn.requests == old(conn.requests) + [BulkRequest(GetIndexName(Data), Data, MapDiff(diff, store))])
    {
      if !IsSafe() {
        jobs.Insert(IndexerRecoveryJob(PageTitle(diff.subject.title), IndexParams(diff.subject.hash)));
        return;
      }
      Index(diff);
    }

    /** `index`: one bulk request carrying doMap's operations. */
    method Index(diff: ChangeDiff)
      modifies conn`requests
      ensures conn.requests == old(conn.requests) + [BulkRequest(GetIndexName(Data), Data, MapDiff(diff, store))]
    {
      var ops := DoMap(diff);
      conn.Send(BulkRequest(GetIndexName(Data), Data, ops));
    }

    /** `doMap`: deletes for sub-object rows, then mapRows over the data ops, then the two output loops. */
    method DoMap(diff: ChangeDiff) returns (ops: seq<BulkOp>)
      ensures ops == MapDiff(diff, store)
    {
      var deletes := CollectDeletes(diff.tableChangeOps);
      var cl := RowValues(diff.propertyTypes, store);
      var batch := MapDataOps(diff.dataOps, cl);
      FoldTablesValid(EmptyBatch, diff.dataOps, cl, store);
      var upserts := UpsertOps(batch.inverted);
      assert forall k :: 0 <= k < |batch.order| ==> batch.order[k] in (set k | k in batch.order);
      var indexes := IndexOps(batch.order, batch.docs);
      ops := deletes + upserts + indexes;
    }

    /** The first loop of doMap: one delete per delete-op row carrying `o_id`. */
    method CollectDeletes(tables: seq<TableChangeOp>) returns (ops: seq<BulkOp>)
      ensures ops == SubobjectDeletes(tables)
    {
      ops := [];
      var i := 0;
      while i < |tables|
        invariant 0 <= i <= |tables|
        invariant ops == SubobjectDeletes(tables[..i])
      {
        var rows := tables[i].rows;
        var j := 0;
        var part: seq<BulkOp> := [];
        while j < |rows|
          invariant 0 <= j <= |rows|
          invariant part == RowDeletes(rows[..j])
        {
          if rows[j].kind == OpDelete && rows[j].oId.Some? {
            part := part + [DeleteOp(HeadIndex, IntId(rows[j].oId.value))];
          }
          assert rows[..j + 1][..j] == rows[..j];
          j := j + 1;
        }
        assert rows[..|rows|] == rows;
        assert tables[..i + 1][..i] == tables[..i];
        ops := ops + part;
        i := i + 1;
      }
      assert tables[..|tables|] == tables;
    }

    /** The second loop of doMap: mapRows over every row of every data op, in order. */
    method MapDataOps(data: seq<TableChangeOp>, cl: Classifier) returns (batch: Batch)
      ensures batch == FoldTables(EmptyBatch, data, cl, store)
    {
      batch := EmptyBatch;
      var i := 0;
      while i < |data|
        invariant 0 <= i <= |data|
        invariant batch == FoldTables(EmptyBatch, data[..i], cl, store)
      {
        var rows := data[i].rows;
        var j := 0;
        var inner := batch;
        while j < |rows|
          invariant 0 <= j <= |rows|
          invariant inner == FoldRows(batch, rows[..j], cl, store)
        {
          if rows[j].sId.Some? {
            inner := MapRow(inner, rows[j], cl, store);
          }
          assert rows[..j + 1][..j] == rows[..j];
          j := j + 1;
        }
        assert rows[..|rows|] == rows;
        assert data[..i + 1][..i] == data[..i];
        batch := inner;
        i := i + 1;
      }
      assert data[..|data|] == data;
    }

    /** The inverted-map loop: one stub upsert per id. */
    method UpsertOps(ids: seq<int>) returns (ops: seq<BulkOp>)
      ensures ops == Upserts(ids)
    {
      ops := [];
      var k := 0;
      while k < |ids|
        invariant 0 <= k <= |ids|
        invariant ops == Upserts(ids[..k])
      {
        UpsertsSnoc(ids[..k], ids[k]);
        assert ids[..k + 1] == ids[..k] + [ids[k]];
        ops := ops + [UpsertStub(ids[k])];
        k := k + 1;
      }
      assert ids[..|ids|] == ids;
    }

    /** The insert-map loop: one index operation per subject id, in first-seen order. */
    method IndexOps(order: seq<int>, docs: map<int, Doc>) returns (ops: seq<BulkOp>)
      requires forall k :: 0 <= k < |order| ==> order[k] in docs
      ensures ops == Indexes(order, docs)
    {
      ops := [];
      var k := 0;
      while k < |order|
        invariant 0 <= k <= |order|
        invariant |ops| == k
        invariant forall m :: 0 <= m < k ==> ops[m] == IndexOp(order[m], docs[order[m]])
      {
        ops := ops + [IndexOp(order[k], docs[order[k]])];
        k := k + 1;
      }
    }

    /** `setupIndexByType`: drops a bare root index, then points the alias at v1, v2 or a new version. */
    method SetupIndexByType(t: IndexType, newVersion: string)
      modifies conn`indices, conn`aliases
      ensures var base := conn.IndexNameByType(t); var v1 := base + "-v1"; var v2 := base + "-v2";
        && (old(base in conn.indices && base !in conn.aliases) ==> base !in conn.indices)
        && (old(v1 in conn.indices) ==> v1 in conn.indices && v2 !in conn.indices && base in conn.aliases && conn.aliases[base] == v1)
        && (old(v1 !in conn.indices && v2 in conn.indices) ==> v2 in conn.indices && base in conn.aliases && conn.aliases[base] == v2)
        && (old(v1 !in conn.indices && v2 !in conn.indices) ==>
              base + "-" + newVersion in conn.indices && base in conn.aliases && conn.aliases[base] == base + "-" + newVersion)
      ensures var base := conn.IndexNameByType(t); var v1 := base + "-v1"; var v2 := base + "-v2";
        var created := base + "-" + newVersion;
        var useV1 := old(v1 in conn.indices);
        var useV2 := !useV1 && old(v2 in conn.indices);
        var gone := (if old(base in conn.indices && base !in conn.aliases) then {base} else {})
                    + (if useV1 && old(v2 in conn.indices) then {v2} else {});
        && conn.indices == old(conn.indices) - gone + (if useV1 || useV2 then {} else {created})
        && conn.aliases == Without(old(conn.aliases), gone)[base := if useV1 then v1 else if useV2 then v2 else created]
    {
      var base := conn.IndexNameByType(t);
      var v1 := base + "-v1";
      var v2 := base + "-v2";
      assert base != v1 && base != v2 by { assert |v1| == |v2| == |base| + 3; }
      assert v1 != v2 by { assert v1[|base| + 2] == '1'; assert v2[|base| + 2] == '2'; }
      ghost var aliases0 := conn.aliases;
      ghost var gone: set<string> := {};
      assert Without(aliases0, {}) == aliases0;
      if base in conn.indices && base !in conn.aliases {
        conn.DeleteIndex(base);
        gone := {base};
      }
      var target;
      if v1 in conn.indices {
        if v2 in conn.indices {
          conn.DeleteIndex(v2);
          WithoutTwice(aliases0, gone, {v2});
          gone := gone + {v2};
        }
        target := v1;
      } else if v2 in conn.indices {
        target := v2;
      } else {
        var version := conn.CreateIndex(t, newVersion);
        target := base + "-" + version;
        assert |target| > |base|;
      }
      conn.AddAlias(target, base);
    }

    /** `deleteIndexByType`: deletes v1, v2 and a bare root index, then releases the lock. */
    method DeleteIndexByType(t: IndexType)
      modifies conn`indices, conn`aliases, conn`locks
      ensures var base := conn.IndexNameByType(t);
        && base + "-v1" !in conn.indices && base + "-v2" !in conn.indices
        && (base !in conn.indices || base in conn.aliases)
        && conn.indices <= old(conn.indices)
        && conn.locks == old(conn.locks) - {t}
      ensures var base := conn.IndexNameByType(t); var v1 := base + "-v1"; var v2 := base + "-v2";
        var versions := (if old(v1 in conn.indices) then {v1} else {}) + (if old(v2 in conn.indices) then {v2} else {});
        var gone := versions + (if old(base in conn.indices) && base !in Without(old(conn.aliases), versions) then {base} else {});
        && conn.indices == old(conn.indices) - gone
        && conn.aliases == Without(old(conn.aliases), gone)
    {
      var base := conn.IndexNameByType(t);
      assert base != base + "-v1" && base != base + "-v2";
      ghost var aliases0 := conn.aliases;
      ghost var gone: set<string> := {};
      assert Without(aliases0, {}) == aliases0;
      if base + "-v1" in conn.indices {
        conn.DeleteIndex(base + "-v1");
        gone := {base + "-v1"};
      }
      if base + "-v2" in conn.indices {
        conn.DeleteIndex(base + "-v2");
        WithoutTwice(aliases0, gone, {base + "-v2"});
        gone := gone + {base + "-v2"};
      }
      if base in conn.indices && base !in conn.aliases {
        conn.DeleteIndex(base);
        WithoutTwice(aliases0, gone, {base});
        gone := gone + {base};
      }
      conn.ReleaseLock(t);
    }

    /** `setup`: both index types. */
    method Setup(dataVersion: string, lookupVersion: string)
      modifies conn`indices, conn`aliases
      ensures conn.IndexNameByType(Lookup) in conn.aliases
    {
      SetupIndexByType(Data, dataVersion);
      SetupIndexByType(Lookup, lookupVersion);
    }

    /** `drop`: both index types; both locks are released. */
    method Drop()
      modifies conn`indices, conn`aliases, conn`locks
      ensures conn.locks == old(conn.locks) - {Data, Lookup}
      ensures conn.indices <= old(conn.indices)
    {
      DeleteIndexByType(Data);
      DeleteIndexByType(Lookup);
    }
  }

  lemma UpsertsSnoc(ids: seq<int>, id: int)
    ensures Upserts(ids + [id]) == Upserts(ids) + [UpsertStub(id)]
  {
  }
}
