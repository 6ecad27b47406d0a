/** Decoded JSON trees: the query clause a matcher is built with, and the
    documents it is matched against. */
module Json {

  /** A query clause. A leaf is a regular-expression pattern; a keyed clause
      keeps its fields in insertion order, because that order fixes the paths
      of the findings; a list clause is the "descend into the first element"
      marker. */
  datatype Clause =
    | Pattern(pattern: string)
    | Keyed(fields: seq<(string, Clause)>)
    | Listed(items: seq<Clause>)

  /** A decoded document: strings, the other scalars, mappings and lists.
      Numbers, booleans and null are never compared; they only give a
      document its identity. */
  datatype Doc =
    | Str(s: string)
    | Num(n: real)
    | Bool(b: bool)
    | Null
    | Object(members: map<string, Doc>)
    | Array(elems: seq<Doc>)

  /** Python truthiness of a clause: the empty string, the empty dict and the
      empty list are false, every other clause is true. */
  predicate IsFalsy(c: Clause)
  {
    c == Pattern("") || c == Keyed([]) || c == Listed([])
  }
}
