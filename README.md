# JnesaisQ in Dafny

JnesaisQ matches decoded JSON documents against a *query clause*. A clause is
a tree. Its leaves are regular-expression patterns. Its dicts name the keys a
document must have. A one-element list in a clause means "descend into the
first element of the document's list".

`compare_verbose` walks a document in step with a clause. It appends
path-annotated findings to two shared lists, mismatches and matches. A match
records the document string. A mismatch records one of the sentinels
`JSON_key_not_found` or `JSON_value_mismatch`. `overall_result` reduces the
two lists to one verdict: `AND_match`, `OR_match_mismatch`, `AND_mismatch`,
or none. `compare`, `is_this_a_full_match` and `list_of_compares` are built
on top of it.

Files:

- `json.dfy` (`Json`): the `Clause` and `Doc` trees. `IsFalsy` is Python
  truthiness for clauses. A clause keeps its keys as an ordered sequence,
  because key order fixes the paths.
- `findings.dfy` (`Findings`): `Finding`, the result pair `Results`, the two
  sentinel strings, and `Outcome` (`Ok` or `Fatal`). `Fatal` stands for every
  exception the source does not catch. `Then` appends the findings of two
  steps. The regular-expression engine `re.match` is a parameter of type
  `Regex`. It answers `MatchAtStart`, `NoMatch` or `InvalidPattern`.
- `traversal.dfy` (`Traversal`): the specification functions of the
  traversal. `Walk` is one call. `WalkFields` is the loop over a clause's
  keys, threading the path from key to key as line 106 reassigns it. `Field`
  is one iteration of that loop. `Leaf` is one `re.match`. `FieldsUpTo` and
  `KeyPath` give the same loop in closed form: the i-th key is processed at
  `prefix + "/k1/.../ki"`.
- `traversal_properties.dfy` (`TraversalProperties`): lemmas about these
  functions, covering paths, sentinels, coverage, list descent, the shape
  conflicts and falsy clauses.
- `verdicts.dfy` (`Verdicts`): `overall_result`.
- `facade.dfy` (`Facade`): `compare_verbose` with fresh lists, `compare`, and
  `list_of_compares` (`Selected`), as functions, with their lemmas.
- `matcher.dfy` (`Matcher`): the `JnesaisQ` class. It holds the immutable
  stored clause and the engine. `Accumulator` is the pair of lists that one
  traversal shares by reference, with in-place appends. The methods
  `Traverse`/`VisitField` (the recursive loop of lines 105-165) and
  `ListOfCompares` (the loop of lines 214-219) are proved equal to the
  specification functions.
- `scenarios.dfy` (`Scenarios`): worked examples. Each holds for every regex
  engine that gives the stated answers.

Sharp edges of the source, kept as written:

- The path accumulates across sibling keys. For the clause
  `{"name": …, "age": …}`, the `age` finding is reported at `/name/age`
  (`Scenarios.NameAgeVerdicts`).
- A falsy clause value (`{}`, `[]`, `""`) at the top of a call is replaced by
  the whole stored clause.
- Some shape conflicts are recorded as findings and others raise.
- A list against a list compares only element `[0]` of each.

Two of the fatal cases, and one consequence of the one-finding-per-leaf rule:

- Inside the key loop, a leaf pattern against a document value that is
  neither a string nor a list reaches `re.match` at line 152. There it raises
  `TypeError` and is not recorded as a value mismatch. At the top of a call
  (line 90), any value that is not a string raises, a list included.
- A list clause value against a document value that is not a list fails the
  test at lines 121-125 and the one at line 144. It reaches
  `re.match(list, …)` at line 152 and raises.
- A leaf-valued clause key that does not raise appends exactly one finding:
  a missing key (lines 107-117), a list value (lines 144-150) or one
  `re.match` (lines 152-165). So a clause with one leaf-valued key can never
  give `OR_match_mismatch`, which needs a match and a mismatch
  (lines 186-188). `Scenarios.ListScenario` uses the two-key clause
  `{"a": "^x$", "b": "^x$"}` to show all three verdicts.

`Compare`, `IsThisAFullMatch` and `ListOfCompares` are specified by their
ensures as functions of their argument and the two `const` fields. So calling
`Compare` twice on the same document gives the same verdict.

## Model

| member | source | states |
|---|---|---|
| Json.IsFalsy | JnesaisQ.py:81 | definition of the truthiness test `not json_query_clause` on clauses (`""`, `{}`, `[]`); its properties are `Traversal.EffectiveSettles` and `TraversalProperties.FalsyClauseUsesStored` |
| Traversal.EffectiveSettles | JnesaisQ.py:81-82 | the clause a call uses is falsy only when the stored clause is, and replacing a second time changes nothing |
| Traversal.Walk | JnesaisQ.py:81-165 | definition of one call's findings (leaf, key loop, or raise for a list clause); its properties are `TraversalProperties.WalkAnnotated`, `WalkCovers`, `ListedClauseAtTopFatal`, `NonStringLeafFatal`, and it is what `Matcher.JnesaisQ.Traverse` is proved to do |
| Traversal.WalkFields | JnesaisQ.py:105-106 | definition of the key loop with the path reassigned per key; its properties are `Traversal.SiblingPaths`, `TraversalProperties.FieldsAnnotated` and `FieldsCover` |
| Traversal.Field | JnesaisQ.py:107-165 | definition of one key's lookup, descent, recorded mismatch or leaf match; its properties are `TraversalProperties.MissingKeyRecorded`, `OnlyFirstElements`, `FieldAnnotated`, and it is what `Matcher.JnesaisQ.VisitField` is proved to do |
| Facade.CompareVerbose | JnesaisQ.py:60-86 | definition of an outside call from fresh lists at the empty path; its properties are `Facade.DefaultClauseIsStored` and `Matcher.JnesaisQ.CompareVerbose` |
| Facade.Compare | JnesaisQ.py:194-199 | definition of `compare`; its properties are `Facade.EmptyStoredClauseNoVerdict` and `Facade.VerdictUnlessEmptyStored` |
| Facade.Kept | JnesaisQ.py:218 | definition of the kept verdicts `[OR_match_mismatch]` and `[AND_match]`; used by `Facade.SelectedMultiplicity` and `Matcher.JnesaisQ.ListOfCompares` |
| Facade.Keep | JnesaisQ.py:216-218 | definition of a kept document: its comparison returns a kept verdict; its property is `Facade.SelectedMultiplicity` |
| Facade.Selected | JnesaisQ.py:207-220 | definition of `list_of_compares`; its properties are `Facade.SelectedFatal`, `SelectedIsSubsequence`, `SelectedMultiplicity`, and `Matcher.JnesaisQ.ListOfCompares` is proved equal to it |
| Traversal.Leaf | JnesaisQ.py:89-103 | one `re.match` yields exactly one finding: `(path, value)` in matches iff the pattern matches at the start, else `(path, JSON_value_mismatch)` in mismatches; raises iff the value is not a string or the pattern is invalid (same rule at lines 152-165) |
| Findings.Then | JnesaisQ.py:127-143 | findings of a recursive call are appended after the caller's earlier ones; count adds up; earlier findings form a prefix; an error anywhere raises |
| Traversal.SiblingPaths | JnesaisQ.py:105-106 | the key loop from its start equals the first n keys, each processed at `prefix + "/k1/.../kj"`, followed by the rest of the loop at the path the first n keys left behind |
| Traversal.LevelIsFold | JnesaisQ.py:105-165 | a whole level equals the key-by-key fold with accumulated paths |
| TraversalProperties.WalkAnnotated | JnesaisQ.py:127-143 | every finding of a call lies under the path it was given, and every mismatch carries one of the two sentinels |
| TraversalProperties.FieldsAnnotated | JnesaisQ.py:105-117 | the same for the key loop from any key on |
| TraversalProperties.FieldAnnotated | JnesaisQ.py:118-165 | the same for one key |
| TraversalProperties.WalkCovers | JnesaisQ.py:89-165 | unless the stored clause is `{}`, a call that returns produces at least one finding |
| TraversalProperties.FieldsCover | JnesaisQ.py:105-165 | unless the stored clause is `{}`, each remaining clause key contributes at least one finding |
| TraversalProperties.FieldCovers | JnesaisQ.py:107-165 | unless the stored clause is `{}`, one key that returns contributes at least one finding |
| TraversalProperties.MissingKeyRecorded | JnesaisQ.py:107-117 | a key absent from the document mapping adds exactly `(prefix/k1/.../ki, JSON_key_not_found)` after the earlier keys' findings, with no descent, and the later keys are still processed |
| TraversalProperties.OnlyFirstElements | JnesaisQ.py:121-134 | a list clause value against a list document value is the comparison of element `[0]` with element `[0]`; later elements on either side never matter |
| TraversalProperties.EmptyListDescentIsFatal | JnesaisQ.py:127-128 | an empty list on either side of that descent raises `IndexError` and is not recorded |
| TraversalProperties.ListAgainstLeafRecorded | JnesaisQ.py:144-150 | a document list against a leaf clause value is the single finding `(path, JSON_value_mismatch)` |
| TraversalProperties.KeyedAgainstNonMappingFatal | JnesaisQ.py:105-108 | an effective dict clause with keys against a document that is not a mapping raises |
| TraversalProperties.ListedAgainstNonListFatal | JnesaisQ.py:151-152 | a list clause value against a document value that is not a list raises |
| TraversalProperties.NonStringLeafFatal | JnesaisQ.py:152 | a leaf pattern against a value that is not a string raises, at the top of a call and inside the key loop |
| TraversalProperties.ListedClauseAtTopFatal | JnesaisQ.py:105 | a list as the effective clause of a call raises (a list has no `.keys()`) |
| TraversalProperties.FalsyClauseUsesStored | JnesaisQ.py:81-82 | a call with a falsy clause equals the call with the stored clause |
| TraversalProperties.NestedFalsyReappliesStored | JnesaisQ.py:126-143 | a nested `{}`, or `[""]` against a document list, re-applies the whole stored clause to the sub-document |
| Verdicts.OverallResult | JnesaisQ.py:179-192 | None iff both lists are empty; otherwise exactly one verdict: `AND_match` iff no mismatches, `OR_match_mismatch` iff both non-empty, `AND_mismatch` iff no matches |
| Facade.DefaultClauseIsStored | JnesaisQ.py:60-82 | calling with no clause, a falsy clause or the stored clause is the same call |
| Facade.EmptyStoredClauseNoVerdict | JnesaisQ.py:179-182 | an empty stored dict yields two empty lists and no verdict for every document |
| Facade.VerdictUnlessEmptyStored | JnesaisQ.py:194-199 | with any other stored clause, a comparison that returns always has a verdict |
| Facade.SelectedFatal | JnesaisQ.py:214-219 | `list_of_compares` raises iff some document's comparison raises |
| Facade.SelectedIsSubsequence | JnesaisQ.py:214-220 | its output is a subsequence of the input |
| Facade.SelectedMultiplicity | JnesaisQ.py:214-220 | each document with verdict `AND_match` or `OR_match_mismatch` appears in the output exactly as often as in the input; no other document appears |
| Matcher.Accumulator.constructor | JnesaisQ.py:83-86 | each outside call starts with two fresh, empty lists |
| Matcher.Accumulator.AddMismatch | JnesaisQ.py:98-103 | `append` to the mismatch list; the match list is unchanged |
| Matcher.Accumulator.AddMatch | JnesaisQ.py:91-96 | `append` to the match list; the mismatch list is unchanged |
| Matcher.JnesaisQ.constructor | JnesaisQ.py:44-58 | the matcher stores its clause, which never changes afterwards |
| Matcher.JnesaisQ.CompareVerbose | JnesaisQ.py:60-169 | from fresh lists and the empty path, the result equals the specified traversal with the given or the stored clause, or Fatal |
| Matcher.JnesaisQ.MatchLeaf | JnesaisQ.py:89-103 | one `re.match` appends the findings of `Leaf` and nothing else; nothing is appended when it raises |
| Matcher.JnesaisQ.Traverse | JnesaisQ.py:104-165 | with the caller's lists, it appends exactly the findings of `Walk` in order, or raises exactly when `Walk` does; earlier findings are never changed |
| Matcher.JnesaisQ.VisitField | JnesaisQ.py:106-165 | one key: it appends exactly the findings of `Field`, or raises exactly when `Field` does; append-only |
| Matcher.JnesaisQ.Compare | JnesaisQ.py:194-199 | the verdict of one traversal of the document with the stored clause from fresh lists |
| Matcher.JnesaisQ.IsThisAFullMatch | JnesaisQ.py:201-205 | returns the document iff the verdict is `[AND_match]`, None for every other verdict; raises iff the comparison raises |
| Matcher.JnesaisQ.ListOfCompares | JnesaisQ.py:207-220 | equals `Selected`: kept documents in input order, or Fatal |
| Scenarios.NameAgeVerdicts | JnesaisQ.py:105-165 | `{"name": "^Al.*$", "age": "^3[0-9]$"}` gives `AND_match` for Alice/34; for Bob/34 it gives `OR_match_mismatch`, with findings `/name` mismatch and `/name/age` match |
| Scenarios.MissingKeyScenario | JnesaisQ.py:107-117 | `{"a": {"b": "^1$"}}` against `{}` gives exactly `("/a", JSON_key_not_found)` and `AND_mismatch` |
| Scenarios.ItemsScenario | JnesaisQ.py:121-134 | `{"items": [{"id": "^42$"}]}` matches the first element only: one match at `/items/id`, whatever the second element is |
| Scenarios.ListScenario | JnesaisQ.py:214-219 | full match, full mismatch and partial match documents give the full and the partial one, in input order |

## Left out

- The `jnesaisq_compare` context manager (JnesaisQ.py:26-34) is left out. It only yields the bound method `is_this_a_full_match`, so it is equivalent to `Matcher.JnesaisQ.IsThisAFullMatch`, and it holds no resource.
- `debug_mode` and the logging set-up (JnesaisQ.py:87-88) are left out. They are I/O and do not affect any result.
- The `namedtuple` types (JnesaisQ.py:45-52) are plain datatypes.
- The regular-expression engine is a parameter. The model states nothing about its semantics (anchoring at the start, pattern syntax). A pattern error (`re.error`) is `InvalidPattern`, which raises.
- Clause leaves are strings only: non-string clause leaves (numbers, booleans, `None`) are not modelled. `None` appears only as the absent top-level clause argument.
- Exceptions are not told apart. `TypeError`, `IndexError`, `AttributeError` and `re.error` are all the single outcome `Fatal`.
- Matcher.JnesaisQ.Traverse: when it raises, the contract says only that the lists kept their earlier findings as a prefix. It does not pin down which partial findings were appended before the error. Outside callers never see those lists.
- A Python dict clause cannot repeat a key. The model's key sequence is not required to have distinct keys. The traversal reads each key's value from its own pair, so this admits more clauses without changing any distinct-key case.
- Document mappings are Dafny maps without key order. The source only looks keys up, so their order never affects a result.
- Numbers are `real`. Floating-point behaviour is not modelled: numbers are never compared, only carried as document values.
- Cyclic documents and recursion depth are left out. Dafny datatypes are finite and acyclic.
