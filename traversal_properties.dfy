/** What the traversal promises: where findings go, how their paths are
    built, which shape conflicts are recorded and which raise. */
module TraversalProperties {
  import opened Json
  import opened Findings
  import opened Traversal

  /** Every finding of `r` lies under `path`, and every mismatch carries one
      of the two sentinels. */
  ghost predicate Annotated(r: Outcome<Results>, path: string)
  {
    r.Ok? ==>
      (forall f :: f in r.value.mismatches ==>
         path <= f.path && (f.value == KeyNotFound || f.value == ValueMismatch)) &&
      (forall f :: f in r.value.matches ==> path <= f.path)
  }

  lemma AnnotatedThen(a: Outcome<Results>, b: Outcome<Results>, path: string)
    requires Annotated(a, path) && Annotated(b, path)
    ensures Annotated(Then(a, b), path)
  {
  }

  lemma AnnotatedUnderPrefix(r: Outcome<Results>, prefix: string, path: string)
    requires prefix <= path && Annotated(r, path)
    ensures Annotated(r, prefix)
  {
  }

  /** A call's findings all lie under the path it was given: what a recursive
      call appends extends the caller's current path, and the caller's later
      keys keep extending its own path, never the callee's. */
  lemma {:induction false} WalkAnnotated(regex: Regex, stored: Clause, doc: Doc, c: Clause, path: string)
    ensures Annotated(Walk(regex, stored, doc, c, path), path)
    decreases doc, 2, 0
  {
    match Effective(stored, c)
    case Pattern(_) =>
    case Keyed(fields) => FieldsAnnotated(regex, stored, doc, fields, 0, path);
    case Listed(_) =>
  }

  lemma {:induction false} FieldsAnnotated(regex: Regex, stored: Clause, doc: Doc,
                                           fields: seq<(string, Clause)>, i: nat, path: string)
    requires i <= |fields|
    ensures Annotated(WalkFields(regex, stored, doc, fields, i, path), path)
    decreases doc, 1, |fields| - i
  {
    if i < |fields| {
      var p := path + "/" + fields[i].0;
      FieldAnnotated(regex, stored, doc, fields[i].0, fields[i].1, p);
      FieldsAnnotated(regex, stored, doc, fields, i + 1, p);
      AnnotatedThen(Field(regex, stored, doc, fields[i].0, fields[i].1, p),
                    WalkFields(regex, stored, doc, fields, i + 1, p), p);
      assert path <= p;
      AnnotatedUnderPrefix(WalkFields(regex, stored, doc, fields, i, path), path, p);
    }
  }

  lemma {:induction false} FieldAnnotated(regex: Regex, stored: Clause, doc: Doc, key: string,
                                          cv: Clause, path: string)
    ensures Annotated(Field(regex, stored, doc, key, cv, path), path)
    decreases doc, 0, 0
  {
    if doc.Object? && key in doc.members {
      var dv := doc.members[key];
      if cv.Listed? && dv.Array? {
        if dv.elems != [] && cv.items != [] {
          WalkAnnotated(regex, stored, dv.elems[0], cv.items[0], path);
        }
      } else if cv.Keyed? {
        WalkAnnotated(regex, stored, dv, cv, path);
      }
    }
  }

  /** Unless the stored clause is the empty dict, a call that returns has
      produced at least one finding. */
  lemma {:induction false} WalkCovers(regex: Regex, stored: Clause, doc: Doc, c: Clause, path: string)
    requires stored != Keyed([])
    ensures Walk(regex, stored, doc, c, path).Ok? ==> Count(Walk(regex, stored, doc, c, path).value) >= 1
    decreases doc, 2, 0
  {
    match Effective(stored, c)
    case Pattern(_) =>
    case Keyed(fields) => FieldsCover(regex, stored, doc, fields, 0, path);
    case Listed(_) =>
  }

  /** Every clause key of a level contributes at least one finding: a
      missing key, a mismatch, a leaf comparison or the findings of the
      descent (unless the stored clause is the empty dict). */
  lemma {:induction false} FieldsCover(regex: Regex, stored: Clause, doc: Doc,
                                       fields: seq<(string, Clause)>, i: nat, path: string)
    requires stored != Keyed([]) && i <= |fields|
    ensures WalkFields(regex, stored, doc, fields, i, path).Ok? ==>
              Count(WalkFields(regex, stored, doc, fields, i, path).value) >= |fields| - i
    decreases doc, 1, |fields| - i
  {
    if i < |fields| {
      var p := path + "/" + fields[i].0;
      FieldCovers(regex, stored, doc, fields[i].0, fields[i].1, p);
      FieldsCover(regex, stored, doc, fields, i + 1, p);
    }
  }

  lemma {:induction false} FieldCovers(regex: Regex, stored: Clause, doc: Doc, key: string,
                                       cv: Clause, path: string)
    requires stored != Keyed([])
    ensures Field(regex, stored, doc, key, cv, path).Ok? ==>
              Count(Field(regex, stored, doc, key, cv, path).value) >= 1
    decreases doc, 0, 0
  {
    if doc.Object? && key in doc.members {
      var dv := doc.members[key];
      if cv.Listed? && dv.Array? {
        if dv.elems != [] && cv.items != [] {
          WalkCovers(regex, stored, dv.elems[0], cv.items[0], path);
        }
      } else if cv.Keyed? {
        WalkCovers(regex, stored, dv, cv, path);
      }
    }
  }

  /** A clause key absent from the document mapping records one
      `KeyNotFound` at `prefix + "/k1/.../ki"`, does not descend, and the
      later keys are still processed at their accumulated paths. */
  lemma MissingKeyRecorded(regex: Regex, stored: Clause, m: map<string, Doc>,
                           fields: seq<(string, Clause)>, prefix: string, i: nat)
    requires i < |fields| && fields[i].0 !in m
    ensures WalkFields(regex, stored, Object(m), fields, 0, prefix)
         == Then(FieldsUpTo(regex, stored, Object(m), fields, prefix, i),
                 Then(Ok(Results([Finding(KeyPath(prefix, fields, i + 1), KeyNotFound)], [])),
                      WalkFields(regex, stored, Object(m), fields, i + 1, KeyPath(prefix, fields, i + 1))))
  {
    SiblingPaths(regex, stored, Object(m), fields, prefix, i);
  }

  /** A list clause value against a list document value compares element
      `[0]` of each and nothing else. */
  lemma OnlyFirstElements(regex: Regex, stored: Clause, m: map<string, Doc>, key: string,
                          c0: Clause, cs1: seq<Clause>, cs2: seq<Clause>,
                          d0: Doc, ds1: seq<Doc>, ds2: seq<Doc>, path: string)
    ensures Field(regex, stored, Object(m[key := Array([d0] + ds1)]), key, Listed([c0] + cs1), path)
         == Walk(regex, stored, d0, c0, path)
    ensures Field(regex, stored, Object(m[key := Array([d0] + ds1)]), key, Listed([c0] + cs1), path)
         == Field(regex, stored, Object(m[key := Array([d0] + ds2)]), key, Listed([c0] + cs2), path)
  {
  }

  /** An empty list on either side of that descent raises instead of being
      recorded. */
  lemma EmptyListDescentIsFatal(regex: Regex, stored: Clause, m: map<string, Doc>, key: string,
                                cs: seq<Clause>, ds: seq<Doc>, path: string)
    requires key in m && m[key] == Array(ds) && (ds == [] || cs == [])
    ensures Field(regex, stored, Object(m), key, Listed(cs), path) == Fatal
  {
  }

  /** Recorded shape conflict: a document list against a leaf clause value is
      one `ValueMismatch`, with no descent. */
  lemma ListAgainstLeafRecorded(regex: Regex, stored: Clause, m: map<string, Doc>, key: string,
                                p: string, path: string)
    requires key in m && m[key].Array?
    ensures Field(regex, stored, Object(m), key, Pattern(p), path)
         == Ok(Results([Finding(path, ValueMismatch)], []))
  {
  }

  /** Fatal shape conflict: a keyed clause with keys against a document that
      is not a mapping. */
  lemma KeyedAgainstNonMappingFatal(regex: Regex, stored: Clause, doc: Doc, c: Clause, path: string)
    requires Effective(stored, c).Keyed? && Effective(stored, c).fields != [] && !doc.Object?
    ensures Walk(regex, stored, doc, c, path) == Fatal
  {
    var fields := Effective(stored, c).fields;
    var p := path + "/" + fields[0].0;
    assert Field(regex, stored, doc, fields[0].0, fields[0].1, p) == Fatal;
  }

  /** Fatal shape conflict: a list clause value against a document value that
      is not a list. */
  lemma ListedAgainstNonListFatal(regex: Regex, stored: Clause, m: map<string, Doc>, key: string,
                                  cs: seq<Clause>, path: string)
    requires key in m && !m[key].Array?
    ensures Field(regex, stored, Object(m), key, Listed(cs), path) == Fatal
  {
  }

  /** Fatal shape conflict: a leaf pattern against a value that is not a
      string, at the top of a call and inside the loop over keys. */
  lemma NonStringLeafFatal(regex: Regex, stored: Clause, doc: Doc, c: Clause, m: map<string, Doc>,
                           key: string, p: string, path: string)
    ensures Effective(stored, c).Pattern? && !doc.Str? ==> Walk(regex, stored, doc, c, path) == Fatal
    ensures key in m && !m[key].Str? && !m[key].Array? ==>
              Field(regex, stored, Object(m), key, Pattern(p), path) == Fatal
  {
  }

  /** Fatal shape conflict: a list as the effective clause of a call. */
  lemma ListedClauseAtTopFatal(regex: Regex, stored: Clause, doc: Doc, c: Clause, path: string)
    requires Effective(stored, c).Listed?
    ensures Walk(regex, stored, doc, c, path) == Fatal
  {
  }

  /** A falsy clause argument behaves as the stored clause. */
  lemma FalsyClauseUsesStored(regex: Regex, stored: Clause, doc: Doc, c: Clause, path: string)
    requires IsFalsy(c)
    ensures Walk(regex, stored, doc, c, path) == Walk(regex, stored, doc, stored, path)
  {
  }

  /** A nested `{}` clause value, or a `[""]` against a document list,
      re-applies the whole stored clause to the sub-document. */
  lemma NestedFalsyReappliesStored(regex: Regex, stored: Clause, m: map<string, Doc>, key: string,
                                   d0: Doc, ds: seq<Doc>, path: string)
    ensures key in m ==>
              Field(regex, stored, Object(m), key, Keyed([]), path) == Walk(regex, stored, m[key], stored, path)
    ensures Field(regex, stored, Object(m[key := Array([d0] + ds)]), key, Listed([Pattern("")]), path)
         == Walk(regex, stored, d0, stored, path)
  {
  }
}
