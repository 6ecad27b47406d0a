/** The verdict classifier `overall_result`. */
module Verdicts {
  import opened Findings

  /** The three verdict strings `AND_match`, `OR_match_mismatch` and
      `AND_mismatch`. */
  datatype Verdict = AndMatch | OrMatchMismatch | AndMismatch

  /** No verdict when both lists are empty; otherwise the list built by the
      three `if`s of the source, which always holds exactly one verdict. */
  function OverallResult(r: Results): (v: Option<seq<Verdict>>)
    ensures v.None? <==> r.mismatches == [] && r.matches == []
    ensures v.Some? ==> |v.value| == 1
    ensures v == Some([AndMatch]) <==> r.mismatches == [] && r.matches != []
    ensures v == Some([OrMatchMismatch]) <==> r.mismatches != [] && r.matches != []
    ensures v == Some([AndMismatch]) <==> r.mismatches != [] && r.matches == []
  {
    if r.mismatches == [] && r.matches == [] then None
    else
      var retval := (if r.mismatches == [] && r.matches != [] then [AndMatch] else [])
                    + (if r.mismatches != [] && r.matches != [] then [OrMatchMismatch] else [])
                    + (if r.mismatches != [] && r.matches == [] then [AndMismatch] else []);
      assert r.mismatches == [] ==> retval == [AndMatch];
      assert r.mismatches != [] && r.matches != [] ==> retval == [OrMatchMismatch];
      assert r.matches == [] ==> retval == [AndMismatch];
      Some(retval)
  }
}
