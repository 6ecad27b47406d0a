/** Findings, the result set of one traversal, and the outcome of a call that
    may raise. */
module Findings {

  /** The two sentinel values a mismatch finding carries. */
  const KeyNotFound: string := "JSON_key_not_found"
  const ValueMismatch: string := "JSON_value_mismatch"

  /** One path-annotated finding: the document value for a match, a sentinel
      for a mismatch. */
  datatype Finding = Finding(path: string, value: string)

  /** The pair of finding lists, mismatches first, as the source returns them. */
  datatype Results = Results(mismatches: seq<Finding>, matches: seq<Finding>)

  /** Python's None or a value. */
  datatype Option<+T> = None | Some(value: T)

  /** A call either returns a value or raises one of the errors the source
      does not catch. */
  datatype Outcome<+T> = Ok(value: T) | Fatal

  /** What `re.match(pattern, subject)` does: a match at the start of the
      subject, no match, or an error because the pattern does not compile. */
  datatype RegexResult = MatchAtStart | NoMatch | InvalidPattern

  /** The regular-expression engine, which is not part of this model. */
  type Regex = (string, string) -> RegexResult

  const Empty: Results := Results([], [])

  /** Number of findings of a result set. */
  function Count(r: Results): nat
  {
    |r.mismatches| + |r.matches|
  }

  /** The findings of `a` followed by those of `b`, in the order they are
      appended to the shared lists; an error in either raises. */
  function Then(a: Outcome<Results>, b: Outcome<Results>): (r: Outcome<Results>)
    ensures r.Ok? <==> a.Ok? && b.Ok?
    ensures r.Ok? ==> Count(r.value) == Count(a.value) + Count(b.value)
    ensures r.Ok? ==> a.value.mismatches <= r.value.mismatches && a.value.matches <= r.value.matches
  {
    if a.Fatal? || b.Fatal? then Fatal
    else Ok(Results(a.value.mismatches + b.value.mismatches, a.value.matches + b.value.matches))
  }

  lemma ThenAssociative(a: Outcome<Results>, b: Outcome<Results>, c: Outcome<Results>)
    ensures Then(Then(a, b), c) == Then(a, Then(b, c))
  {
    if a.Ok? && b.Ok? && c.Ok? {
      assert (a.value.mismatches + b.value.mismatches) + c.value.mismatches
          == a.value.mismatches + (b.value.mismatches + c.value.mismatches);
      assert (a.value.matches + b.value.matches) + c.value.matches
          == a.value.matches + (b.value.matches + c.value.matches);
    }
  }

  lemma ThenEmpty(a: Outcome<Results>)
    ensures Then(Ok(Empty), a) == a
    ensures Then(a, Ok(Empty)) == a
  {
    if a.Ok? {
      assert [] + a.value.mismatches == a.value.mismatches && [] + a.value.matches == a.value.matches;
      assert a.value.mismatches + [] == a.value.mismatches && a.value.matches + [] == a.value.matches;
    }
  }
}
