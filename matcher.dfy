/** The matcher object: a stored clause, the finding lists one traversal
    shares, and the loops of `compare_verbose` and `list_of_compares`. */
module Matcher {
  import opened Json
  import opened Findings
  import opened Traversal
  import opened Verdicts
  import Facade

  /** The two lists one traversal appends to in place, passed by reference
      to every recursive call. */
  class Accumulator {
    var mismatches: seq<Finding>
    var matches: seq<Finding>

    constructor ()
      ensures mismatches == [] && matches == []
    {
      mismatches := [];
      matches := [];
    }

    method AddMismatch(f: Finding)
      modifies this
      ensures mismatches == old(mismatches) + [f] && matches == old(matches)
    {
      mismatches := mismatches + [f];
    }

    method AddMatch(f: Finding)
      modifies this
      ensures matches == old(matches) + [f] && mismatches == old(mismatches)
    {
      matches := matches + [f];
    }
  }

  /** Proof hint for `Traverse`: regrouping the appends of one more key. */
  lemma AppendTwice(a: seq<Finding>, b: seq<Finding>, c: seq<Finding>)
    ensures (a + b) + c == a + (b + c)
    ensures a <= a + b
  {
  }

  /** Proof hint for `Traverse`: the caller's findings stay a prefix when a
      key raises part-way. */
  lemma PrefixTransitive(a: seq<Finding>, b: seq<Finding>, c: seq<Finding>)
    requires a <= b && b <= c
    ensures a <= c
  {
  }

  class JnesaisQ {
    /** The clause the matcher is built with; it never changes. */
    const clause: Clause
    /** The regular-expression engine `re.match` stands for. */
    const regex: Regex

    constructor (clause: Clause, regex: Regex)
      ensures this.clause == clause && this.regex == regex
    {
      this.clause := clause;
      this.regex := regex;
    }

    /** `compare_verbose(doc, arg)` for an outside caller: fresh lists, the
        empty path, and the result set, or Fatal for an uncaught error. */
    method CompareVerbose(doc: Doc, arg: Option<Clause>) returns (r: Outcome<Results>)
      ensures r == Facade.CompareVerbose(regex, clause, doc, arg)
    {
      var acc := new Accumulator();
      var c := if arg.Some? then arg.value else clause;
      var failed := Traverse(doc, c, "", acc);
      ghost var w := Walk(regex, clause, doc, c, "");
      if !failed {
        assert acc.mismatches == w.value.mismatches && acc.matches == w.value.matches;
      }
      r := if failed then Fatal else Ok(Results(acc.mismatches, acc.matches));
    }

    /** One `re.match` and the single append it causes. */
    method MatchLeaf(pattern: string, doc: Doc, path: string, acc: Accumulator) returns (failed: bool)
      modifies acc
      ensures failed <==> Leaf(regex, pattern, doc, path).Fatal?
      ensures !failed ==> acc.mismatches == old(acc.mismatches) + Leaf(regex, pattern, doc, path).value.mismatches
      ensures !failed ==> acc.matches == old(acc.matches) + Leaf(regex, pattern, doc, path).value.matches
      ensures failed ==> acc.mismatches == old(acc.mismatches) && acc.matches == old(acc.matches)
    {
      if !doc.Str? {
        return true;
      }
      match regex(pattern, doc.s)
      case MatchAtStart =>
        acc.AddMatch(Finding(path, doc.s));
        failed := false;
      case NoMatch =>
        acc.AddMismatch(Finding(path, ValueMismatch));
        failed := false;
      case InvalidPattern =>
        failed := true;
    }

    /** `compare_verbose(doc, c, current_json_path=path)` with the caller's
        lists: it appends exactly the findings of `Walk` unless it raises,
        and never removes or changes an earlier finding. */
    method Traverse(doc: Doc, c: Clause, path: string, acc: Accumulator) returns (failed: bool)
      modifies acc
      decreases doc, 1
      ensures failed <==> Walk(regex, clause, doc, c, path).Fatal?
      ensures !failed ==> acc.mismatches == old(acc.mismatches) + Walk(regex, clause, doc, c, path).value.mismatches
      ensures !failed ==> acc.matches == old(acc.matches) + Walk(regex, clause, doc, c, path).value.matches
      ensures old(acc.mismatches) <= acc.mismatches && old(acc.matches) <= acc.matches
    {
      var effective := Effective(clause, c);
      match effective
      case Pattern(p) =>
        failed := MatchLeaf(p, doc, path, acc);
      case Listed(_) =>
        failed := true;
      case Keyed(fields) =>
        var i := 0;
        var current := path;
        while i < |fields|
          invariant 0 <= i <= |fields|
          invariant current == KeyPath(path, fields, i)
          invariant FieldsUpTo(regex, clause, doc, fields, path, i).Ok?
          invariant acc.mismatches == old(acc.mismatches) + FieldsUpTo(regex, clause, doc, fields, path, i).value.mismatches
          invariant acc.matches == old(acc.matches) + FieldsUpTo(regex, clause, doc, fields, path, i).value.matches
        {
          current := current + "/" + fields[i].0;
          ghost var before := FieldsUpTo(regex, clause, doc, fields, path, i);
          ghost var step := Field(regex, clause, doc, fields[i].0, fields[i].1, current);
          assert FieldsUpTo(regex, clause, doc, fields, path, i + 1) == Then(before, step);
          ghost var mismatchesBefore, matchesBefore := acc.mismatches, acc.matches;
          var stepFailed := VisitField(doc, fields[i].0, fields[i].1, current, acc);
          if stepFailed {
            SiblingPaths(regex, clause, doc, fields, path, i);
            assert WalkFields(regex, clause, doc, fields, i, KeyPath(path, fields, i))
                == Then(step, WalkFields(regex, clause, doc, fields, i + 1, current));
            assert Walk(regex, clause, doc, c, path) == WalkFields(regex, clause, doc, fields, 0, path);
            PrefixTransitive(old(acc.mismatches), mismatchesBefore, acc.mismatches);
            PrefixTransitive(old(acc.matches), matchesBefore, acc.matches);
            return true;
          }
          AppendTwice(old(acc.mismatches), before.value.mismatches, step.value.mismatches);
          AppendTwice(old(acc.matches), before.value.matches, step.value.matches);
          i := i + 1;
        }
        LevelIsFold(regex, clause, doc, fields, path);
        failed := false;
    }

    /** One iteration of the loop over the clause keys: the lookup of `key`
        (a missing key is the one error the source catches), then descent,
        a recorded mismatch or a leaf comparison. */
    method VisitField(doc: Doc, key: string, cv: Clause, path: string, acc: Accumulator) returns (failed: bool)
      modifies acc
      decreases doc, 0
      ensures failed <==> Field(regex, clause, doc, key, cv, path).Fatal?
      ensures !failed ==> acc.mismatches == old(acc.mismatches) + Field(regex, clause, doc, key, cv, path).value.mismatches
      ensures !failed ==> acc.matches == old(acc.matches) + Field(regex, clause, doc, key, cv, path).value.matches
      ensures old(acc.mismatches) <= acc.mismatches && old(acc.matches) <= acc.matches
    {
      if !doc.Object? {
        return true;
      }
      if key !in doc.members {
        acc.AddMismatch(Finding(path, KeyNotFound));
        return false;
      }
      var dv := doc.members[key];
      if (cv.Listed? && dv.Array?) || cv.Keyed? {
        if cv.Listed? {
          if dv.elems == [] || cv.items == [] {
            return true;
          }
          failed := Traverse(dv.elems[0], cv.items[0], path, acc);
        } else {
          failed := Traverse(dv, cv, path, acc);
        }
      } else if dv.Array? && !cv.Listed? {
        acc.AddMismatch(Finding(path, ValueMismatch));
        failed := false;
      } else if cv.Pattern? {
        failed := MatchLeaf(cv.pattern, dv, path, acc);
      } else {
        failed := true;
      }
    }

    /** `compare(doc)`: the verdict of one traversal from fresh lists. */
    method Compare(doc: Doc) returns (r: Outcome<Option<seq<Verdict>>>)
      ensures r == Facade.Compare(regex, clause, doc)
    {
      var results := CompareVerbose(doc, None);
      r := if results.Fatal? then Fatal else Ok(OverallResult(results.value));
    }

    /** `is_this_a_full_match(doc)`: the document itself exactly when its
        verdict is `[AND_match]`, None for every other verdict. */
    method IsThisAFullMatch(doc: Doc) returns (r: Outcome<Option<Doc>>)
      ensures r.Fatal? <==> Facade.Compare(regex, clause, doc).Fatal?
      ensures r == Ok(Some(doc)) <==> Facade.Compare(regex, clause, doc) == Ok(Some([AndMatch]))
      ensures r.Ok? && r.value != Some(doc) ==> r.value == None
    {
      var v := Compare(doc);
      if v.Fatal? {
        return Fatal;
      }
      r := if v.value == Some([AndMatch]) then Ok(Some(doc)) else Ok(None);
    }

    /** `list_of_compares(docs)`: the documents whose verdict is
        `[OR_match_mismatch]` or `[AND_match]`, in input order. */
    method ListOfCompares(docs: seq<Doc>) returns (r: Outcome<seq<Doc>>)
      ensures r == Facade.Selected(regex, clause, docs)
    {
      var output: seq<Doc> := [];
      for i := 0 to |docs|
        invariant Facade.Selected(regex, clause, docs[..i]) == Ok(output)
      {
        var v := Compare(docs[i]);
        assert docs[..i + 1][..i] == docs[..i];
        if v.Fatal? {
          Facade.SelectedFatal(regex, clause, docs);
          return Fatal;
        }
        if Facade.Kept(v.value) {
          output := output + [docs[i]];
        }
      }
      assert docs[..|docs|] == docs;
      r := Ok(output);
    }
  }
}
