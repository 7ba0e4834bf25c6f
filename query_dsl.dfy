/**
 * The query-DSL fragments the interpreters and the query engine build. The
 * builder class that renders them as arrays (FieldMapper) is not part of this
 * model, so each builder call is an uninterpreted constructor here.
 */
module QueryDsl {

  /** A field path of the indexed document. */
  datatype FieldPath =
    | SubjectSortkey                          // "subject.sortkey"
    | SubjectSubobjectKeyword                 // "subject.subobject.keyword"
    | DocumentId                              // "_id"
    | PropertyField(pid: int, name: string)   // "P:<pid>.<name>"
    | Suffixed(base: FieldPath, suffix: string)  // "<base>.<suffix>"

  /** One field, or a list of fields (wide proximity). */
  datatype Field = Path(path: FieldPath) | Fields(names: seq<string>)

  /** A literal compared against a field. */
  datatype Literal = IntLit(i: int) | StrLit(s: string) | BoolLit(b: bool) | NumLit(repr: string)

  /** Comparators of a value description (SMW_CMP_*). */
  datatype Comparator = EQ | NEQ | LESS | GRTR | LEQ | GEQ | LIKE | NLKE | PRIM_LIKE | PRIM_NLKE

  /** Slots of a `bool` query. */
  datatype Slot = Must | Filter | MustNot | Should

  /** The builder results (`term`, `terms`, `match`, `range`, `wildcard`, `query_string`, `hierarchy`, `bool`, `function_score_random`). */
  datatype Query =
    | Term(field: Field, value: Literal)
    | Terms(field: Field, value: Literal)
    | Match(field: Field, value: Literal)
    | Range(field: Field, value: Literal, cmp: Comparator)
    | Wildcard(field: Field, value: Literal)
    | QueryString(field: Field, value: Literal, minimumShouldMatch: int)
    | Hierarchy(inner: Query, pid: int, members: seq<int>)
    | Bool(slot: Slot, inner: Query)
    | FunctionScoreRandom(inner: Query)
}
