/**
 * Translation of one value constraint (a data item, a comparator and an
 * optional property) into a query-DSL fragment: field selection, the
 * page-identity cases, the proximity sub-algorithm, hierarchy wrapping and
 * the placement into a `bool` slot.
 */
module ValueDescriptionInterpreter {

  import opened Common
  import opened QueryDsl
  import Php

  /** The data item a constraint compares against. */
  datatype DataItem =
    | PageItem(id: int, dbKey: string, sortKey: string)   // DIWikiPage; `id` is QueryBuilder::getID
    | TimeItem(jd: string)                                 // DITime; the JD number is an opaque float
    | BooleanItem(b: bool)                                 // DIBoolean
    | NumberItem(number: string)                           // DINumber; an opaque float
    | BlobItem(serialization: string)                      // DIBlob
    | OtherItem(serialization: string)                     // any other kind (URI, geo, ...)

  /** A property resolved to its id and to its subordinate properties. */
  datatype Member = Member(key: string, id: int)

  /**
   * `typeField` is the field name FieldMapper::getField assigns to the
   * property's type; `members` is the hierarchy lookup's consecutive list.
   */
  datatype Property = Property(id: int, inverse: bool, typeField: string, members: seq<Member>)

  datatype ValueDescription = ValueDescription(item: DataItem, cmp: Comparator, property: Option<Property>)

  /** Interpreter options; an unset entry takes the default named in each accessor. */
  datatype Options = Options(
    matchPhrase: Option<bool>,           // 'wide.proximity.match_phrase'
    wideFields: Option<seq<string>>,     // 'wide.proximity.fields'
    caseInsensitive: Option<bool>)       // 'page.field.case.insensitive.proximity.match'

  function MatchPhrase(o: Options): (r: bool)
    ensures o.matchPhrase.None? ==> r
  {
    if o.matchPhrase.Some? then o.matchPhrase.value else true
  }

  function WideFields(o: Options): (r: seq<string>)
    ensures o.wideFields.None? ==> r == ["text_copy"]
  {
    if o.wideFields.Some? then o.wideFields.value else ["text_copy"]
  }

  function CaseInsensitive(o: Options): (r: bool)
    ensures o.caseInsensitive.None? ==> r
  {
    if o.caseInsensitive.Some? then o.caseInsensitive.value else true
  }

  /** The error the source throws for an inverse property. */
  datatype Error = InversePropertyError(pid: int)

  /** `isRange`: exactly the four ordering comparators. */
  predicate IsRange(c: Comparator) {
    c == GRTR || c == GEQ || c == LESS || c == LEQ
  }

  /** `isNot`: exactly the two negated comparators. */
  predicate IsNot(c: Comparator) {
    c == NLKE || c == NEQ
  }

  /** The first `n` elements in the sense of `array_slice($s, 0, $n)` (a negative `n` drops from the end). */
  function SliceFront<T>(s: seq<T>, n: int): (r: seq<T>)
    ensures n >= 0 ==> |r| == (if n <= |s| then n else |s|)
    ensures n < 0 ==> |r| == (if |s| + n >= 0 then |s| + n else 0)
    ensures r == s[..|r|]
  {
    if n >= 0 then (if n <= |s| then s[..n] else s)
    else if |s| + n >= 0 then s[..|s| + n] else []
  }

  function MemberIds(ms: seq<Member>): (r: seq<int>)
    ensures |r| == |ms| && forall k :: 0 <= k < |ms| ==> r[k] == ms[k].id
  {
    if ms == [] then [] else [ms[0].id] + MemberIds(ms[1..])
  }

  /** `findHierarchyMembers`: the ids of the property's subordinate properties, depth-limited. */
  function FindHierarchyMembers(property: Option<Property>, depth: Option<int>): (r: seq<int>)
    ensures property.None? || property.value.members == [] ==> r == []
    ensures property.Some? && depth.None? ==> r == MemberIds(property.value.members)
    ensures depth == Some(0) ==> r == []
    ensures property.Some? && depth.Some? && depth.value > 0 ==>
      |r| == (if depth.value <= |property.value.members| then depth.value else |property.value.members|) &&
      forall k :: 0 <= k < |r| ==> r[k] == property.value.members[k].id
  {
    if property.None? || property.value.members == [] then []
    else
      var members := property.value.members;
      var kept := if depth.None? then members else if depth.value == 0 then [] else SliceFront(members, depth.value);
      MemberIds(kept)
  }

  /** The field before any comparator-specific adjustment. */
  function BaseField(property: Option<Property>): (f: FieldPath)
    ensures property.None? ==> f == SubjectSortkey
    ensures property.Some? ==> f == PropertyField(property.value.id, property.value.typeField)
  {
    if property.None? then SubjectSortkey else PropertyField(property.value.id, property.value.typeField)
  }

  /** The field and literal chosen from the data item (the first if-chain of `interpretDescription`). */
  function FieldAndValue(item: DataItem, cmp: Comparator, property: Option<Property>): (FieldPath, Literal)
  {
    var field := BaseField(property);
    match item
    case PageItem(id, _, sortKey) =>
      if (cmp == EQ || cmp == NEQ) && property.None? then (DocumentId, IntLit(id))
      else if cmp == EQ || cmp == NEQ then (PropertyField(property.value.id, "wpgID"), IntLit(id))
      else (field, StrLit(sortKey))
    case _ => (if item.TimeItem? then Suffixed(field, "keyword") else field, ItemValue(item))
  }

  /** The value compared against, for items other than pages. */
  function ItemValue(item: DataItem): Literal
    requires !item.PageItem?
  {
    match item
    case TimeItem(jd) => NumLit(jd)
    case BooleanItem(b) => BoolLit(b)
    case NumberItem(n) => NumLit(n)
    case BlobItem(s) => StrLit(s)
    case OtherItem(s) => StrLit(s)
  }

  /** The text `strpos` searches: a string as is, other literals as PHP prints them. */
  function LiteralText(v: Literal): string {
    match v
    case StrLit(s) => s
    case IntLit(i) => Php.IntToString(i)
    case BoolLit(b) => if b then "1" else ""
    case NumLit(r) => r
  }

  /** `$value{0} === '~'`; a non-string or empty value has no such first character. */
  predicate IsWide(v: Literal) {
    v.StrLit? && |v.s| > 0 && v.s[0] == '~'
  }

  /** A fragment and whether it must go to the `filter` slot. */
  datatype Fragment = Fragment(query: Query, filter: bool)

  /** The LIKE/NLKE proximity sub-algorithm. */
  function Proximity(field: FieldPath, value: Literal, o: Options): (r: Fragment)
  {
    var text := LiteralText(value);
    var hasWildcard := Php.Contains(text, '*');
    var isPhrase := Php.Contains(text, '"');
    if IsWide(value) then
      var stripped := value.s[1..];
      var v := if !hasWildcard && MatchPhrase(o) then "\"" + Php.Trim(stripped, '"') + "\"" else stripped;
      var fields := Fields(WideFields(o));
      if hasWildcard && !isPhrase then Fragment(QueryString(fields, StrLit(v), 1), false)
      else Fragment(Match(fields, StrLit(v)), false)
    else if hasWildcard && !isPhrase then
      var suffix := if CaseInsensitive(o) then "lowercase" else "keyword";
      Fragment(Wildcard(Path(Suffixed(field, suffix)), value), true)
    else Fragment(Match(Path(field), value), false)
  }

  /** The comparator dispatch (the second if-chain of `interpretDescription`). */
  function Dispatch(item: DataItem, cmp: Comparator, field: FieldPath, value: Literal, o: Options): Fragment
  {
    if item.PageItem? && IsRange(cmp) then Fragment(Range(Path(Suffixed(field, "keyword")), value, cmp), false)
    else if item.PageItem? && item.dbKey == "NO_SUBOBJECT" then Fragment(Term(Path(SubjectSubobjectKeyword), StrLit("")), true)
    else if item.BlobItem? && cmp == EQ then Fragment(Match(Path(field), StrLit("\"" + LiteralText(value) + "\"")), false)
    else if cmp == EQ || cmp == NEQ then Fragment(Terms(Path(field), value), false)
    else if cmp == LIKE || cmp == NLKE then Proximity(field, value, o)
    else if IsRange(cmp) then Fragment(Range(Path(field), value, cmp), false)
    else Fragment(Match(Path(field), value), false)
  }

  /** The fragment with the hierarchy wrapping, before any negation or outer `bool`. */
  function Core(d: ValueDescription, o: Options): Fragment
  {
    var (field, value) := FieldAndValue(d.item, d.cmp, d.property);
    var frag := Dispatch(d.item, d.cmp, field, value, o);
    Fragment(InHierarchy(frag.query, d.property), frag.filter)
  }

  /** `hierarchy` wrapping: only when there is a property. */
  function InHierarchy(q: Query, property: Option<Property>): Query {
    if property.Some? then Hierarchy(q, property.value.id, FindHierarchyMembers(property, None)) else q
  }

  /** The outer slot used outside a conjunction, as written. */
  function OuterSlot(cmp: Comparator, filter: bool): (s: Slot)
  {
    if IsNot(cmp) then MustNot else if filter then Filter else Must
  }

  /** `interpretDescription` as written. */
  function InterpretDescription(d: ValueDescription, isConjunction: bool, o: Options): Result<Query, Error>
  {
    if d.property.Some? && d.property.value.inverse then Err(InversePropertyError(d.property.value.id))
    else
      var core := Core(d, o);
      var negated := if IsNot(d.cmp) then Bool(MustNot, core.query) else core.query;
      if isConjunction then Ok(negated) else Ok(Bool(OuterSlot(d.cmp, core.filter), negated))
  }

  // ---------------------------------------------------------------------
  // Properties of the translation

  /**
   * For items other than pages the target field is subject.sortkey without a
   * property and P:<id>.<typeField> with one, on its keyword sub-field for a
   * time value; the value is the item's own.
   */
  lemma TargetField(d: ValueDescription)
    requires !d.item.PageItem?
    ensures var base := if d.property.None? then SubjectSortkey else PropertyField(d.property.value.id, d.property.value.typeField);
      FieldAndValue(d.item, d.cmp, d.property) == (if d.item.TimeItem? then Suffixed(base, "keyword") else base, ItemValue(d.item))
  {
  }

  /** An inverse property is an error, never a query. */
  lemma InverseIsError(d: ValueDescription, isConjunction: bool, o: Options)
    ensures (d.property.Some? && d.property.value.inverse) <==> InterpretDescription(d, isConjunction, o).Err?
  {
  }

  /** A page compared with EQ/NEQ is matched by id: on `_id` without a property, on `P:<id>.wpgID` with one. */
  lemma PageIdentity(d: ValueDescription, o: Options)
    requires d.item.PageItem? && (d.cmp == EQ || d.cmp == NEQ) && d.item.dbKey != "NO_SUBOBJECT"
    ensures Core(d, o).query ==
      if d.property.None? then Terms(Path(DocumentId), IntLit(d.item.id))
      else Hierarchy(Terms(Path(PropertyField(d.property.value.id, "wpgID")), IntLit(d.item.id)),
                     d.property.value.id, FindHierarchyMembers(d.property, None))
  {
  }

  /** A range comparator on a page ranges over the keyword sub-field of the target field with the sort key. */
  lemma PageRange(d: ValueDescription, o: Options)
    requires d.item.PageItem? && IsRange(d.cmp)
    ensures Core(d, o) ==
      Fragment(InHierarchy(Range(Path(Suffixed(BaseField(d.property), "keyword")), StrLit(d.item.sortKey), d.cmp), d.property), false)
  {
  }

  /** The NO_SUBOBJECT marker page (not under a range comparator) filters on an empty subobject. */
  lemma NoSubobjectFilter(d: ValueDescription, o: Options)
    requires d.item.PageItem? && d.item.dbKey == "NO_SUBOBJECT" && !IsRange(d.cmp)
    ensures Core(d, o) == Fragment(InHierarchy(Term(Path(SubjectSubobjectKeyword), StrLit("")), d.property), true)
  {
  }

  /** A blob with EQ is a phrase match on the quoted value. */
  lemma BlobEquality(s: string, property: Option<Property>, o: Options)
    ensures Core(ValueDescription(BlobItem(s), EQ, property), o) ==
      Fragment(InHierarchy(Match(Path(BaseField(property)), StrLit("\"" + s + "\"")), property), false)
  {
  }

  /** Any other item under EQ/NEQ is a `terms` query on its target field. */
  lemma EqualityTerms(d: ValueDescription, o: Options)
    requires !d.item.PageItem? && (d.cmp == EQ || d.cmp == NEQ) && !(d.item.BlobItem? && d.cmp == EQ)
    ensures var (field, value) := FieldAndValue(d.item, d.cmp, d.property);
      Core(d, o) == Fragment(InHierarchy(Terms(Path(field), value), d.property), false)
  {
  }

  /** LIKE/NLKE (except on the NO_SUBOBJECT page) goes through the proximity rules on the target field. */
  lemma LikeProximity(d: ValueDescription, o: Options)
    requires d.cmp == LIKE || d.cmp == NLKE
    requires !(d.item.PageItem? && d.item.dbKey == "NO_SUBOBJECT")
    ensures var (field, value) := FieldAndValue(d.item, d.cmp, d.property);
      var p := Proximity(field, value, o);
      Core(d, o) == Fragment(InHierarchy(p.query, d.property), p.filter)
  {
  }

  /** A range comparator on any other item is a `range` on its target field. */
  lemma ValueRange(d: ValueDescription, o: Options)
    requires !d.item.PageItem? && IsRange(d.cmp)
    ensures var (field, value) := FieldAndValue(d.item, d.cmp, d.property);
      Core(d, o) == Fragment(InHierarchy(Range(Path(field), value, d.cmp), d.property), false)
  {
  }

  /** Every remaining comparator (the PRIM_ ones) is a plain `match` on the target field. */
  lemma DefaultMatch(d: ValueDescription, o: Options)
    requires d.cmp == PRIM_LIKE || d.cmp == PRIM_NLKE
    requires !(d.item.PageItem? && d.item.dbKey == "NO_SUBOBJECT")
    ensures var (field, value) := FieldAndValue(d.item, d.cmp, d.property);
      Core(d, o) == Fragment(InHierarchy(Match(Path(field), value), d.property), false)
  {
  }

  /** Proximity dispatch: query_string, wildcard filter or match, decided on the unmodified value. */
  lemma ProximityDispatch(field: FieldPath, s: string, o: Options)
    ensures var r := Proximity(field, StrLit(s), o);
      var wild := '*' in s; var phrase := '"' in s; var wide := |s| > 0 && s[0] == '~';
      && (r.query.QueryString? <==> wild && wide && !phrase)
      && (r.query.Wildcard? <==> wild && !wide && !phrase)
      && (r.query.Match? <==> !(wild && !phrase))
      && (r.filter <==> r.query.Wildcard?)
      && (r.query.QueryString? ==> r.query.minimumShouldMatch == 1)
  {
  }

  /** Wide proximity strips the marker and searches the configured fields (default text_copy). */
  lemma WideProximity(field: FieldPath, s: string, o: Options)
    requires |s| > 0 && s[0] == '~'
    ensures var r := Proximity(field, StrLit(s), o);
      && r.query.field == Fields(WideFields(o))
      && (o.wideFields.None? ==> r.query.field == Fields(["text_copy"]))
      && ('*' !in s && MatchPhrase(o) ==>
            r.query.value == StrLit("\"" + Php.Trim(s[1..], '"') + "\""))
      && ('*' in s || !MatchPhrase(o) ==> r.query.value == StrLit(s[1..]))
  {
    var stripped := s[1..];
    var fields := Fields(WideFields(o));
    var r := Proximity(field, StrLit(s), o);
    assert IsWide(StrLit(s)) && LiteralText(StrLit(s)) == s;
    if '*' in s && '"' !in s {
      assert r == Fragment(QueryString(fields, StrLit(stripped), 1), false);
    } else {
      var v := if '*' !in s && MatchPhrase(o) then "\"" + Php.Trim(stripped, '"') + "\"" else stripped;
      assert r == Fragment(Match(fields, StrLit(v)), false);
    }
  }

  /** A wildcard without marker or quote goes to the lowercase (or keyword) sub-field. */
  lemma SimpleWildcard(field: FieldPath, s: string, o: Options)
    requires '*' in s && '"' !in s && !(|s| > 0 && s[0] == '~')
    ensures Proximity(field, StrLit(s), o) ==
      Fragment(Wildcard(Path(Suffixed(field, if CaseInsensitive(o) then "lowercase" else "keyword")), StrLit(s)), true)
  {
  }

  /** A quoted wide wildcard never becomes wildcard-prefix matching. */
  lemma PhraseBeatsWildcard(field: FieldPath, s: string, o: Options)
    requires '"' in s
    ensures Proximity(field, StrLit(s), o).query.Match?
  {
  }

  /** Hierarchy wrapping happens exactly when there is a property. */
  lemma HierarchyOnlyWithProperty(d: ValueDescription, o: Options)
    ensures Core(d, o).query.Hierarchy? <==> d.property.Some?
  {
    var (field, value) := FieldAndValue(d.item, d.cmp, d.property);
    var frag := Dispatch(d.item, d.cmp, field, value, o);
    assert !frag.query.Hierarchy?;
  }

  /** Slotting: negated comparators get `must_not`, and outside a conjunction one more `bool` whose slot follows the flags. */
  lemma Slotting(d: ValueDescription, isConjunction: bool, o: Options)
    requires d.property.None? || !d.property.value.inverse
    ensures var r := InterpretDescription(d, isConjunction, o).value; var core := Core(d, o);
      && (isConjunction ==> r == if IsNot(d.cmp) then Bool(MustNot, core.query) else core.query)
      && (!isConjunction ==> r.Bool? && r.slot == (if IsNot(d.cmp) then MustNot else if core.filter then Filter else Must))
  {
  }

  // ---------------------------------------------------------------------
  // The double negation outside a conjunction

  /**
   * Whether a document matches a fragment, given which leaf fragments it
   * matches: a single-clause `bool` passes its clause through, except
   * `must_not`, which negates it.
   */
  function Matches(q: Query, leaf: Query -> bool): bool {
    match q
    case Bool(slot, inner) => if slot == MustNot then !Matches(inner, leaf) else Matches(inner, leaf)
    case _ => leaf(q)
  }

  /**
   * As written, a negated comparator outside a conjunction is wrapped in
   * `must_not` twice, so the query matches exactly the documents the
   * un-negated fragment matches.
   */
  lemma NegationCancelsAsWritten(d: ValueDescription, o: Options, leaf: Query -> bool)
    requires d.property.None? || !d.property.value.inverse
    requires IsNot(d.cmp)
    ensures Matches(InterpretDescription(d, false, o).value, leaf) == Matches(Core(d, o).query, leaf)
  {
  }

  /** The concrete input: `[[!Foo]]` (NEQ on a page, no property) matches the page itself. */
  lemma NegatedPageMatchesItself(o: Options, leaf: Query -> bool)
    requires leaf(Terms(Path(DocumentId), IntLit(42)))
    ensures Matches(InterpretDescription(ValueDescription(PageItem(42, "Foo", "Foo"), NEQ, None), false, o).value, leaf)
  {
  }

  /** The outer slot intended for the corrected translation: the negation is already inside. */
  function CorrectedOuterSlot(filter: bool): (s: Slot)
    ensures s != MustNot
  {
    if filter then Filter else Must
  }

  /** `interpretDescription` with a single negation outside a conjunction. */
  function InterpretDescriptionCorrected(d: ValueDescription, isConjunction: bool, o: Options): Result<Query, Error>
  {
    if d.property.Some? && d.property.value.inverse then Err(InversePropertyError(d.property.value.id))
    else
      var core := Core(d, o);
      var negated := if IsNot(d.cmp) then Bool(MustNot, core.query) else core.query;
      if isConjunction then Ok(negated) else Ok(Bool(CorrectedOuterSlot(core.filter), negated))
  }

  /** Corrected: a negated comparator matches exactly the documents the fragment does not match. */
  lemma CorrectedNegation(d: ValueDescription, isConjunction: bool, o: Options, leaf: Query -> bool)
    requires d.property.None? || !d.property.value.inverse
    ensures var r := InterpretDescriptionCorrected(d, isConjunction, o).value;
      Matches(r, leaf) == (if IsNot(d.cmp) then !Matches(Core(d, o).query, leaf) else Matches(Core(d, o).query, leaf))
  {
  }

  /** Corrected and as-written translations agree on every comparator that is not negated, and inside conjunctions. */
  lemma CorrectedAgreesElsewhere(d: ValueDescription, isConjunction: bool, o: Options)
    requires !IsNot(d.cmp) || isConjunction
    ensures InterpretDescriptionCorrected(d, isConjunction, o) == InterpretDescription(d, isConjunction, o)
  {
  }
}
