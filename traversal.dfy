/** The traversal of `compare_verbose` as functions: the findings one call
    appends to the shared lists, or Fatal when it raises. */
module Traversal {
  import opened Json
  import opened Findings

  /** The clause a call actually uses: a falsy clause argument is replaced by
      the stored clause. */
  function Effective(stored: Clause, c: Clause): Clause
  {
    if IsFalsy(c) then stored else c
  }

  /** The replacement happens once: the clause a call uses is falsy only when
      the stored clause itself is, and replacing again changes nothing. */
  lemma EffectiveSettles(stored: Clause, c: Clause)
    ensures IsFalsy(Effective(stored, c)) ==> Effective(stored, c) == stored && IsFalsy(stored)
    ensures Effective(stored, Effective(stored, c)) == Effective(stored, c)
  {
  }

  /** One `re.match` of `pattern` against a document value: exactly one
      finding, a match carrying the value or a value mismatch; a value that is
      not a string, or a pattern that does not compile, raises. */
  function Leaf(regex: Regex, pattern: string, doc: Doc, path: string): (r: Outcome<Results>)
    ensures r.Ok? <==> doc.Str? && regex(pattern, doc.s) != InvalidPattern
    ensures r.Ok? ==> Count(r.value) == 1
    ensures r.Ok? ==> (r.value.matches != [] <==> regex(pattern, doc.s) == MatchAtStart)
    ensures r.Ok? ==> forall f :: f in r.value.matches ==> f == Finding(path, doc.s)
    ensures r.Ok? ==> forall f :: f in r.value.mismatches ==> f == Finding(path, ValueMismatch)
  {
    match doc
    case Str(s) =>
      (match regex(pattern, s)
       case MatchAtStart => Ok(Results([], [Finding(path, s)]))
       case NoMatch => Ok(Results([Finding(path, ValueMismatch)], []))
       case InvalidPattern => Fatal)
    case _ => Fatal
  }

  /** The findings of one call `compare_verbose(doc, c, current_json_path=path)`. */
  function Walk(regex: Regex, stored: Clause, doc: Doc, c: Clause, path: string): Outcome<Results>
    decreases doc, 2, 0
  {
    match Effective(stored, c)
    case Pattern(p) => Leaf(regex, p, doc, path)
    case Keyed(fields) => WalkFields(regex, stored, doc, fields, 0, path)
    case Listed(_) => Fatal
  }

  /** The loop over the keys of a keyed clause from field `i` on; `path` is
      the path as the previous iterations left it, and each key extends it for
      itself and for all later keys. */
  function WalkFields(regex: Regex, stored: Clause, doc: Doc, fields: seq<(string, Clause)>,
                      i: nat, path: string): Outcome<Results>
    requires i <= |fields|
    decreases doc, 1, |fields| - i
  {
    if i == |fields| then Ok(Empty)
    else
      var p := path + "/" + fields[i].0;
      Then(Field(regex, stored, doc, fields[i].0, fields[i].1, p),
           WalkFields(regex, stored, doc, fields, i + 1, p))
  }

  /** One iteration of that loop, for clause key `key` with clause value `cv`,
      at the already extended `path`. */
  function Field(regex: Regex, stored: Clause, doc: Doc, key: string, cv: Clause,
                 path: string): Outcome<Results>
    decreases doc, 0, 0
  {
    match doc
    case Object(m) =>
      if key !in m then Ok(Results([Finding(path, KeyNotFound)], []))
      else
        var dv := m[key];
        if (cv.Listed? && dv.Array?) || cv.Keyed? then
          if cv.Listed? then
            if dv.elems == [] || cv.items == [] then Fatal
            else Walk(regex, stored, dv.elems[0], cv.items[0], path)
          else
            Walk(regex, stored, dv, cv, path)
        else if dv.Array? && !cv.Listed? then
          Ok(Results([Finding(path, ValueMismatch)], []))
        else
          (match cv
           case Pattern(p) => Leaf(regex, p, dv, path)
           case _ => Fatal)
    case _ => Fatal
  }

  /** The path of the `i`-th key of a level: `prefix + "/k1" + ... + "/ki"`. */
  function KeyPath(prefix: string, fields: seq<(string, Clause)>, i: nat): string
    requires i <= |fields|
  {
    if i == 0 then prefix else KeyPath(prefix, fields, i - 1) + "/" + fields[i - 1].0
  }

  /** The first `n` keys of one level, each processed at its own `KeyPath`,
      their findings in key order. */
  function FieldsUpTo(regex: Regex, stored: Clause, doc: Doc, fields: seq<(string, Clause)>,
                      prefix: string, n: nat): Outcome<Results>
    requires n <= |fields|
  {
    if n == 0 then Ok(Empty)
    else
      Then(FieldsUpTo(regex, stored, doc, fields, prefix, n - 1),
           Field(regex, stored, doc, fields[n - 1].0, fields[n - 1].1, KeyPath(prefix, fields, n)))
  }

  /** Paths accumulate across siblings: the loop from its start equals the
      first `n` keys, each at `prefix + "/k1/.../kj"`, followed by the rest of
      the loop started at the path the first `n` keys left behind. */
  lemma {:induction false} SiblingPaths(regex: Regex, stored: Clause, doc: Doc,
                                        fields: seq<(string, Clause)>, prefix: string, n: nat)
    requires n <= |fields|
    ensures WalkFields(regex, stored, doc, fields, 0, prefix)
         == Then(FieldsUpTo(regex, stored, doc, fields, prefix, n),
                 WalkFields(regex, stored, doc, fields, n, KeyPath(prefix, fields, n)))
  {
    if n == 0 {
      ThenEmpty(WalkFields(regex, stored, doc, fields, 0, prefix));
    } else {
      SiblingPaths(regex, stored, doc, fields, prefix, n - 1);
      var before := FieldsUpTo(regex, stored, doc, fields, prefix, n - 1);
      var step := Field(regex, stored, doc, fields[n - 1].0, fields[n - 1].1, KeyPath(prefix, fields, n));
      var rest := WalkFields(regex, stored, doc, fields, n, KeyPath(prefix, fields, n));
      assert WalkFields(regex, stored, doc, fields, n - 1, KeyPath(prefix, fields, n - 1)) == Then(step, rest);
      ThenAssociative(before, step, rest);
    }
  }

  /** A whole level is the key-by-key fold with the accumulated paths. */
  lemma LevelIsFold(regex: Regex, stored: Clause, doc: Doc, fields: seq<(string, Clause)>, prefix: string)
    ensures WalkFields(regex, stored, doc, fields, 0, prefix)
         == FieldsUpTo(regex, stored, doc, fields, prefix, |fields|)
  {
    SiblingPaths(regex, stored, doc, fields, prefix, |fields|);
    ThenEmpty(FieldsUpTo(regex, stored, doc, fields, prefix, |fields|));
  }
}
