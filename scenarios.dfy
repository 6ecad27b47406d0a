/** Worked examples of the matcher, for any regular-expression engine that
    answers the few questions each example asks. */
module Scenarios {
  import opened Json
  import opened Findings
  import opened Traversal
  import opened Verdicts
  import opened Facade

  /** A top-level call with a one-key stored clause is that key at `/k`. */
  lemma OneKey(regex: Regex, stored: Clause, doc: Doc, k: string, v: Clause)
    requires stored == Keyed([(k, v)])
    ensures CompareVerbose(regex, stored, doc, None) == Field(regex, stored, doc, k, v, "/" + k)
  {
    assert "" + "/" + k == "/" + k;
    assert !IsFalsy(stored);
    assert WalkFields(regex, stored, doc, [(k, v)], 1, "/" + k) == Ok(Empty);
    assert Walk(regex, stored, doc, stored, "") == WalkFields(regex, stored, doc, [(k, v)], 0, "");
    ThenEmpty(Field(regex, stored, doc, k, v, "/" + k));
  }

  /** A top-level call with a two-key stored clause is the first key at `/k1`
      followed by the second at `/k1/k2`. */
  lemma TwoKeys(regex: Regex, stored: Clause, doc: Doc, k1: string, v1: Clause, k2: string, v2: Clause)
    requires stored == Keyed([(k1, v1), (k2, v2)])
    ensures CompareVerbose(regex, stored, doc, None)
         == Then(Field(regex, stored, doc, k1, v1, "/" + k1), Field(regex, stored, doc, k2, v2, "/" + k1 + "/" + k2))
  {
    assert "" + "/" + k1 == "/" + k1;
    assert !IsFalsy(stored);
    var fields := [(k1, v1), (k2, v2)];
    assert WalkFields(regex, stored, doc, fields, 2, "/" + k1 + "/" + k2) == Ok(Empty);
    assert WalkFields(regex, stored, doc, fields, 1, "/" + k1)
        == Then(Field(regex, stored, doc, k2, v2, "/" + k1 + "/" + k2), Ok(Empty));
    assert Walk(regex, stored, doc, stored, "") == WalkFields(regex, stored, doc, fields, 0, "");
    ThenEmpty(Field(regex, stored, doc, k2, v2, "/" + k1 + "/" + k2));
  }

  const NameAge: Clause := Keyed([("name", Pattern("^Al.*$")), ("age", Pattern("^3[0-9]$"))])

  /** Both keys match: `AND_match`. A failing first key and a matching second
      key: `OR_match_mismatch`, and the second key's finding sits at
      `/name/age` because the path accumulates across siblings. */
  lemma NameAgeVerdicts(regex: Regex)
    requires regex("^Al.*$", "Alice") == MatchAtStart && regex("^Al.*$", "Bob") == NoMatch
    requires regex("^3[0-9]$", "34") == MatchAtStart
    ensures Compare(regex, NameAge, Object(map["name" := Str("Alice"), "age" := Str("34")]))
         == Ok(Some([AndMatch]))
    ensures CompareVerbose(regex, NameAge, Object(map["name" := Str("Bob"), "age" := Str("34")]), None)
         == Ok(Results([Finding("/name", ValueMismatch)], [Finding("/name/age", "34")]))
    ensures Compare(regex, NameAge, Object(map["name" := Str("Bob"), "age" := Str("34")]))
         == Ok(Some([OrMatchMismatch]))
  {
    var alice := Object(map["name" := Str("Alice"), "age" := Str("34")]);
    var bob := Object(map["name" := Str("Bob"), "age" := Str("34")]);
    assert "/" + "name" == "/name" && "/" + "name" + "/" + "age" == "/name/age";
    TwoKeys(regex, NameAge, alice, "name", Pattern("^Al.*$"), "age", Pattern("^3[0-9]$"));
    TwoKeys(regex, NameAge, bob, "name", Pattern("^Al.*$"), "age", Pattern("^3[0-9]$"));
    assert Field(regex, NameAge, alice, "name", Pattern("^Al.*$"), "/name")
        == Ok(Results([], [Finding("/name", "Alice")]));
    assert Field(regex, NameAge, alice, "age", Pattern("^3[0-9]$"), "/name/age")
        == Ok(Results([], [Finding("/name/age", "34")]));
    assert Field(regex, NameAge, bob, "name", Pattern("^Al.*$"), "/name")
        == Ok(Results([Finding("/name", ValueMismatch)], []));
    assert Field(regex, NameAge, bob, "age", Pattern("^3[0-9]$"), "/name/age")
        == Ok(Results([], [Finding("/name/age", "34")]));
    assert [Finding("/name", ValueMismatch)] + [] == [Finding("/name", ValueMismatch)];
    assert [] + [Finding("/name/age", "34")] == [Finding("/name/age", "34")];
  }

  /** A missing key is one `JSON_key_not_found` at its path, with no descent
      into the nested clause: `AND_mismatch`. */
  lemma MissingKeyScenario(regex: Regex)
    ensures CompareVerbose(regex, Keyed([("a", Keyed([("b", Pattern("^1$"))]))]), Object(map[]), None)
         == Ok(Results([Finding("/a", KeyNotFound)], []))
    ensures Compare(regex, Keyed([("a", Keyed([("b", Pattern("^1$"))]))]), Object(map[]))
         == Ok(Some([AndMismatch]))
  {
    var c := Keyed([("a", Keyed([("b", Pattern("^1$"))]))]);
    assert "/" + "a" == "/a";
    OneKey(regex, c, Object(map[]), "a", Keyed([("b", Pattern("^1$"))]));
    assert Field(regex, c, Object(map[]), "a", Keyed([("b", Pattern("^1$"))]), "/a")
        == Ok(Results([Finding("/a", KeyNotFound)], []));
  }

  const Items: Clause := Keyed([("items", Listed([Keyed([("id", Pattern("^42$"))])]))])

  /** Only the first element of a document list is compared: the second
      element's `id` does not matter. */
  lemma ItemsScenario(regex: Regex, other: Doc)
    requires regex("^42$", "42") == MatchAtStart
    ensures CompareVerbose(regex, Items,
              Object(map["items" := Array([Object(map["id" := Str("42")]), other])]), None)
         == Ok(Results([], [Finding("/items/id", "42")]))
    ensures Compare(regex, Items, Object(map["items" := Array([Object(map["id" := Str("42")]), other])]))
         == Ok(Some([AndMatch]))
  {
    var first := Object(map["id" := Str("42")]);
    var doc := Object(map["items" := Array([first, other])]);
    assert Walk(regex, Items, first, Keyed([("id", Pattern("^42$"))]), "/items")
        == Ok(Results([], [Finding("/items/id", "42")])) by {
      assert "/items" + "/" + "id" == "/items/id";
      var fields := [("id", Pattern("^42$"))];
      var step := Field(regex, Items, first, "id", Pattern("^42$"), "/items/id");
      assert step == Ok(Results([], [Finding("/items/id", "42")]));
      assert WalkFields(regex, Items, first, fields, 1, "/items/id") == Ok(Empty);
      assert WalkFields(regex, Items, first, fields, 0, "/items") == Then(step, Ok(Empty));
      ThenEmpty(step);
    }
    assert "/" + "items" == "/items";
    OneKey(regex, Items, doc, "items", Listed([Keyed([("id", Pattern("^42$"))])]));
    assert Field(regex, Items, doc, "items", Listed([Keyed([("id", Pattern("^42$"))])]), "/items")
        == Ok(Results([], [Finding("/items/id", "42")]));
  }

  const AB: Clause := Keyed([("a", Pattern("^x$")), ("b", Pattern("^x$"))])

  /** A document of `ListScenario`: key `a` at `/a`, then key `b` at
      `/a/b`. */
  lemma ABDocument(regex: Regex, x: string, y: string)
    ensures CompareVerbose(regex, AB, Object(map["a" := Str(x), "b" := Str(y)]), None)
         == Then(Leaf(regex, "^x$", Str(x), "/a"), Leaf(regex, "^x$", Str(y), "/a/b"))
  {
    var d := Object(map["a" := Str(x), "b" := Str(y)]);
    assert "/" + "a" == "/a" && "/" + "a" + "/" + "b" == "/a/b";
    TwoKeys(regex, AB, d, "a", Pattern("^x$"), "b", Pattern("^x$"));
  }

  /** The three verdicts of `ListScenario`. */
  lemma ABVerdicts(regex: Regex)
    requires regex("^x$", "x") == MatchAtStart && regex("^x$", "y") == NoMatch
    ensures Compare(regex, AB, Object(map["a" := Str("x"), "b" := Str("x")])) == Ok(Some([AndMatch]))
    ensures Compare(regex, AB, Object(map["a" := Str("y"), "b" := Str("y")])) == Ok(Some([AndMismatch]))
    ensures Compare(regex, AB, Object(map["a" := Str("x"), "b" := Str("y")])) == Ok(Some([OrMatchMismatch]))
  {
    ABDocument(regex, "x", "x");
    ABDocument(regex, "y", "y");
    ABDocument(regex, "x", "y");
  }

  /** A full match and a partial match are kept, a full mismatch is not,
      and the order is the input order. */
  lemma ListScenario(regex: Regex)
    requires regex("^x$", "x") == MatchAtStart && regex("^x$", "y") == NoMatch
    ensures Selected(regex, AB, [Object(map["a" := Str("x"), "b" := Str("x")]),
                                 Object(map["a" := Str("y"), "b" := Str("y")]),
                                 Object(map["a" := Str("x"), "b" := Str("y")])])
         == Ok([Object(map["a" := Str("x"), "b" := Str("x")]), Object(map["a" := Str("x"), "b" := Str("y")])])
  {
    ABVerdicts(regex);
    var d1 := Object(map["a" := Str("x"), "b" := Str("x")]);
    var d2 := Object(map["a" := Str("y"), "b" := Str("y")]);
    var d3 := Object(map["a" := Str("x"), "b" := Str("y")]);
    var docs := [d1, d2, d3];
    assert docs[..2] == [d1, d2] && [d1, d2][..1] == [d1] && [d1][..0] == [];
    assert [] + [d1] == [d1];
    assert Selected(regex, AB, [d1]) == Ok([d1]);
    assert Selected(regex, AB, [d1, d2]) == Ok([d1]);
    assert docs[..2] == [d1, d2] && docs[2] == d3;
    assert Selected(regex, AB, docs) == Ok([d1] + [d3]);
    assert [d1] + [d3] == [d1, d3];
  }
}
