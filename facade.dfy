/** The public calls of a matcher, as functions of its stored clause and of
    the regular-expression engine. */
module Facade {
  import opened Json
  import opened Findings
  import opened Traversal
  import opened Verdicts
  import TraversalProperties

  /** `compare_verbose(doc, arg)` from fresh, empty lists at the empty path;
      an absent clause argument is `None`, which is falsy. */
  function CompareVerbose(regex: Regex, stored: Clause, doc: Doc, arg: Option<Clause>): Outcome<Results>
  {
    Walk(regex, stored, doc, if arg.Some? then arg.value else stored, "")
  }

  /** `compare(doc)`: the verdict of `compare_verbose(doc)`. */
  function Compare(regex: Regex, stored: Clause, doc: Doc): Outcome<Option<seq<Verdict>>>
  {
    var r := CompareVerbose(regex, stored, doc, None);
    if r.Fatal? then Fatal else Ok(OverallResult(r.value))
  }

  /** The verdicts `list_of_compares` keeps. */
  predicate Kept(v: Option<seq<Verdict>>)
  {
    v == Some([OrMatchMismatch]) || v == Some([AndMatch])
  }

  /** A document that `list_of_compares` keeps. */
  predicate Keep(regex: Regex, stored: Clause, doc: Doc)
  {
    var v := Compare(regex, stored, doc);
    v.Ok? && Kept(v.value)
  }

  /** `list_of_compares(docs)`: the documents processed left to right, each
      kept one appended; an error on any document raises. */
  function Selected(regex: Regex, stored: Clause, docs: seq<Doc>): Outcome<seq<Doc>>
  {
    if docs == [] then Ok([])
    else
      var last := docs[|docs| - 1];
      var before := Selected(regex, stored, docs[..|docs| - 1]);
      var v := Compare(regex, stored, last);
      if before.Fatal? || v.Fatal? then Fatal
      else Ok(if Kept(v.value) then before.value + [last] else before.value)
  }

  /** `xs` is `ys` with some elements left out, the rest in order. */
  ghost predicate IsSubsequence<T>(xs: seq<T>, ys: seq<T>)
    decreases |ys|
  {
    xs == [] ||
    (ys != [] &&
     ((xs[|xs| - 1] == ys[|ys| - 1] && IsSubsequence(xs[..|xs| - 1], ys[..|ys| - 1])) ||
      IsSubsequence(xs, ys[..|ys| - 1])))
  }

  /** Passing no clause, a falsy clause or the stored clause itself are the
      same call. */
  lemma DefaultClauseIsStored(regex: Regex, stored: Clause, doc: Doc, c: Clause)
    requires IsFalsy(c)
    ensures CompareVerbose(regex, stored, doc, None) == CompareVerbose(regex, stored, doc, Some(c))
    ensures CompareVerbose(regex, stored, doc, None) == CompareVerbose(regex, stored, doc, Some(stored))
  {
  }

  /** An empty stored dict gives two empty lists, hence no verdict, whatever
      the document. */
  lemma EmptyStoredClauseNoVerdict(regex: Regex, doc: Doc)
    ensures CompareVerbose(regex, Keyed([]), doc, None) == Ok(Empty)
    ensures Compare(regex, Keyed([]), doc) == Ok(None)
  {
    assert Walk(regex, Keyed([]), doc, Keyed([]), "") == WalkFields(regex, Keyed([]), doc, [], 0, "");
  }

  /** The empty stored dict is the only source of "no verdict". */
  lemma VerdictUnlessEmptyStored(regex: Regex, stored: Clause, doc: Doc)
    requires stored != Keyed([])
    ensures Compare(regex, stored, doc).Ok? ==> Compare(regex, stored, doc).value.Some?
  {
    TraversalProperties.WalkCovers(regex, stored, doc, stored, "");
  }

  /** `list_of_compares` raises exactly when some document's comparison
      raises. */
  lemma {:induction false} SelectedFatal(regex: Regex, stored: Clause, docs: seq<Doc>)
    ensures Selected(regex, stored, docs).Fatal? <==>
              exists i :: 0 <= i < |docs| && Compare(regex, stored, docs[i]).Fatal?
  {
    if docs != [] {
      var init := docs[..|docs| - 1];
      SelectedFatal(regex, stored, init);
      if Selected(regex, stored, docs).Fatal? {
        if Selected(regex, stored, init).Fatal? {
          var i :| 0 <= i < |init| && Compare(regex, stored, init[i]).Fatal?;
          assert docs[i] == init[i];
        } else {
          assert Compare(regex, stored, docs[|docs| - 1]).Fatal?;
        }
      } else {
        forall i | 0 <= i < |docs| ensures Compare(regex, stored, docs[i]).Ok? {
          if i < |init| {
            assert docs[i] == init[i];
          }
        }
      }
    }
  }

  /** The output of `list_of_compares` keeps the input order. */
  lemma {:induction false} SelectedIsSubsequence(regex: Regex, stored: Clause, docs: seq<Doc>)
    ensures Selected(regex, stored, docs).Ok? ==> IsSubsequence(Selected(regex, stored, docs).value, docs)
  {
    if docs != [] {
      var init := docs[..|docs| - 1];
      var last := docs[|docs| - 1];
      SelectedIsSubsequence(regex, stored, init);
      var r := Selected(regex, stored, docs);
      if r.Ok? {
        var before := Selected(regex, stored, init).value;
        if Kept(Compare(regex, stored, last).value) {
          assert r.value == before + [last];
          assert r.value[..|r.value| - 1] == before;
        } else {
          assert r.value == before;
          SubsequenceOfPrefix(before, init, last);
          assert init + [last] == docs;
        }
      }
    }
  }

  lemma SubsequenceOfPrefix<T>(xs: seq<T>, ys: seq<T>, y: T)
    requires IsSubsequence(xs, ys)
    ensures IsSubsequence(xs, ys + [y])
  {
    assert (ys + [y])[..|ys|] == ys;
  }

  /** The output of `list_of_compares` holds every kept document exactly as
      often as the input does, and no other document: nothing is added,
      dropped or duplicated. */
  lemma {:induction false} SelectedMultiplicity(regex: Regex, stored: Clause, docs: seq<Doc>)
    ensures Selected(regex, stored, docs).Ok? ==>
              forall d :: multiset(Selected(regex, stored, docs).value)[d]
                          == if Keep(regex, stored, d) then multiset(docs)[d] else 0
  {
    if docs != [] {
      var init := docs[..|docs| - 1];
      var last := docs[|docs| - 1];
      SelectedMultiplicity(regex, stored, init);
      assert docs == init + [last];
      var r := Selected(regex, stored, docs);
      if r.Ok? {
        var before := Selected(regex, stored, init).value;
        assert r.value == if Keep(regex, stored, last) then before + [last] else before;
      }
    }
  }
}
