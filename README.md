# jsonschema `_utils.py` in Dafny

A model of the utility core of the Python `jsonschema` validator
(`jsonschema/_utils.py`), with proofs about it:

- **Instance equality** (`unbool`, `equal`, `list_equal`, `dict_equal`): JSON
  equality that never treats `true` as `1` or `false` as `0`, as `const`,
  `enum` and `uniqueItems` require (section 4.2.2 of JSON Schema Core
  2020-12). Module `Equality`, file `equality.dfy`; Python's own `==` is
  modelled next to it as `PyEq`.
- **`uniq`**, the `uniqueItems` check, with its three tiers (hash set; sort
  and scan neighbours; brute force). Python chooses a tier by catching
  `TypeError`; the model chooses it by classifying the items (all scalars,
  all dict-free lists, anything else). Modules `Uniqueness` and `Ordering`
  (the total order the sort tier uses).
- **`URIDict`**, the mutable map whose reads, writes and deletions go through
  `normalize`. A class over `map<string, V>` with `normalize` as an
  uninterpreted function (module `UriDict`).
- **The evaluated-location trackers** `find_evaluated_item_indexes_by_schema`
  and `find_evaluated_property_keys_by_schema`, which compute what
  `unevaluatedItems` and `unevaluatedProperties` need (sections 11.2 and 11.3
  of JSON Schema Core 2020-12). Each is a pure specification function of the
  resolver's scope stack (`ItemIndexes`, `PropertyKeys`) and an imperative
  procedure (`FindEvaluatedItemIndexes`, `FindEvaluatedPropertyKeys`) that
  pushes and pops scopes on a `Resolver` object and is proved to return what
  the specification says, to leave the stack as it found it, and to push and
  pop in balanced pairs (modules `ItemTracker`, `PropertyTracker`,
  `Validator`).
- **The helpers** `format_as_index`, `find_additional_properties`,
  `extras_msg`, `flatten` and `ensure_list` (module `Helpers`).

JSON values are `Null | Bool | Int | Str | Arr | Obj`, with an object's
members kept in insertion order (module `Json`).

The validator handed to the trackers is a record of three functions,
`isType`, `isValid` and `descend`, with no keyword semantics. `isValid` and
`descend` also receive the resolver's scope stack, since validation may
consult it. The resolver is a `Resolver` object: an optional `resolve`
function (looked up with `getattr(..., None)` in the source), a `scopes`
stack, and a ghost record of the pushes and pops made. `$ref` chains need not
end, and the source has no cycle check, so each `$ref` followed spends one
unit of `fuel`. Running out yields `RecursionLimit`, which stands for
Python's `RecursionError`. An unresolvable reference yields
`RefResolutionError`.

Two behaviours of the trackers are modelled as written:

- `prefixItems` reports every position `0 .. len(prefixItems) - 1`, including
  positions past the end of the instance (`ItemTracker.PrefixItemsPastTheEnd`).
- `patternProperties` validates the one-member object `{name: value}`
  against the whole `patternProperties` value, once for every pattern found
  in the name.

## Model

| member | source | states |
|---|---|---|
| Equality.PyEq | jsonschema/_utils.py:201 | Python's `==` on decoded JSON never relates values of different kinds, except that booleans and numbers count as one kind; equal lists have equal lengths |
| Equality.Unbool | jsonschema/_utils.py:204-213 | `true` and `false` become two distinct markers; every other value passes through unchanged |
| Equality.UnboolEq | jsonschema/_utils.py:201 | `unbool(a) == unbool(b)` only relates values of the same JSON kind, and a boolean only to itself |
| Equality.Equal | jsonschema/_utils.py:191-201 | `equal` only relates values of the same JSON kind, so never a boolean to a number |
| Equality.ListEqual | jsonschema/_utils.py:177-188 | `list_equal` implies equal lengths and items of the same kind at every position |
| Equality.DictEqual | jsonschema/_utils.py:161-174 | `dict_equal` implies equal sizes and that every key of the first dict is a key of the second |
| Equality.BoolsAreNotNumbers | jsonschema/_utils.py:191-213 | `equal` never relates a boolean to an integer (either order), is true on equal booleans and equal integers, while Python's `==` relates `true` to `1` and `false` to `0` |
| Equality.EqualOnMixedIsIdentity | jsonschema/_utils.py:191-201 | outside list/list and dict/dict pairs, `equal(a, b)` holds exactly when `a` and `b` are the same value |
| Equality.EqualOnDictFree | jsonschema/_utils.py:177-201 | for a value holding no dict at any depth, `equal` is exactly structural identity, so nested booleans stay apart from numbers |
| Equality.DictEqualSameKeys | jsonschema/_utils.py:161-174 | on dicts (unique keys), `dict_equal` implies both have the same key set |
| Equality.DictEqualIsOrderFree | jsonschema/_utils.py:161-174 | on dicts, `dict_equal` holds iff both have the same keys and `equal` values under every key, whatever the insertion order |
| Equality.EqualReflexive | jsonschema/_utils.py:161-201 | `equal(a, a)` for every value `json.loads` can produce |
| Equality.EqualSymmetric | jsonschema/_utils.py:161-201 | `equal(a, b)` implies `equal(b, a)` for every such pair |
| Equality.NestedDocEqualsItself | jsonschema/_utils.py:191-201 | `{"a": [1, {"b": true}]}` is `equal` to itself |
| Equality.NestedTrueIsNotOne | jsonschema/_utils.py:191-213 | `{"a": [1, {"b": true}]}` is not `equal` to `{"a": [1, {"b": 1}]}`, though Python's `==` relates them |
| Ordering.SortJson | jsonschema/_utils.py:229 | `sorted(...)`: the result is a permutation of the input and ascending in the model's order |
| Ordering.BelowTransitive | jsonschema/_utils.py:229 | the order the sort tier uses is transitive |
| Ordering.BelowTotal | jsonschema/_utils.py:229 | it is total on distinct dict-free values (with `BelowIrreflexive` and `BelowAsymmetric`, a strict total order) |
| Ordering.SortKeepsNoDup | jsonschema/_utils.py:229 | sorting neither creates nor removes duplicates |
| Ordering.AscendingGroupsDuplicates | jsonschema/_utils.py:229-236 | in an ascending sequence of dict-free values, no two neighbours equal means no two items equal at all |
| Uniqueness.Classify | jsonschema/_utils.py:225-245 | the hash tier is taken exactly when every item is a scalar; the sort tier only for a non-empty list of lists; brute force exactly when some item is not a scalar and some item is not a dict-free list |
| Uniqueness.HashVerdict | jsonschema/_utils.py:226 | the hash tier answers true exactly when no value occurs twice |
| Uniqueness.UnboolSetSize | jsonschema/_utils.py:226 | the set of unbooled items is never larger than the list, and has its size exactly when no item repeats |
| Uniqueness.HashVerdictCorrect | jsonschema/_utils.py:225-226 | when every item is a scalar, the hash tier's verdict is pairwise distinctness under `equal` (`[true, 1]` unique, `[1, 1]` not) |
| Uniqueness.ScanAsWritten | jsonschema/_utils.py:232-236 | the as-written scan never reports a duplicate that the corrected scan misses; with no neighbouring pair of lists it is the corrected scan |
| Uniqueness.ScanFindsNeighbours | jsonschema/_utils.py:232-236 | the corrected neighbour scan over lists fails exactly when some neighbouring pair is equal |
| Uniqueness.SortVerdictCorrect | jsonschema/_utils.py:228-236 | the sort tier with the corrected scan answers pairwise distinctness under `equal` |
| Uniqueness.SortTierJudgesFirstPair | jsonschema/_utils.py:232-234 | as written, the sort tier's verdict on two or more lists is `not list_equal` of the first two sorted items |
| Uniqueness.SortTierMissesLaterDuplicate | jsonschema/_utils.py:232-234 | `[[1], [2], [2]]` takes the sort tier, is judged unique as written, has a duplicate, and the corrected scan finds it |
| Uniqueness.BruteMatchAsWritten | jsonschema/_utils.py:243-249 | the as-written comparison (`dict_equal` for two dicts, Python's `==` otherwise) relates every pair that `equal` relates |
| Uniqueness.EqualImpliesPyEq | jsonschema/_utils.py:191-201 | Python's `==` never separates two values that `equal` relates |
| Uniqueness.UnorderableListsTakeSortTier | jsonschema/_utils.py:228-249 | `[[1], ["a"], ["a"]]` goes to the model's sort tier and is judged unique, while the brute-force comparison finds a duplicate; Python cannot order `1` and `"a"` and takes the brute-force tier |
| Uniqueness.BoolsSortBelowNumbers | jsonschema/_utils.py:228-236 | `[[true], [0], [0]]`, which Python can sort, goes to the sort tier, has a duplicate, and is judged unique as written because the model orders `[true]` before `[0]`; Python orders `[0]` first and answers false |
| Uniqueness.BruteForceUniq | jsonschema/_utils.py:238-251 | the nested loop over `seen` answers true iff no item matches an earlier one under the given comparison |
| Uniqueness.BruteTierConflatesNestedBooleans | jsonschema/_utils.py:243-249 | `[{}, [true], [1]]` takes the brute-force tier and is judged not unique as written, though its items are pairwise not `equal` |
| Uniqueness.Uniq | jsonschema/_utils.py:216-252 | `uniq` as written: true on empty and one-item lists; the hash tier answers distinctness; the sort tier answers the as-written scan; the brute tier answers "no item matches an earlier one" under `dict_equal` for dicts and `==` otherwise, and never accepts a duplicate |
| Uniqueness.UniqueItems | jsonschema/_utils.py:216-252 | with the two tiers corrected, the verdict is exactly pairwise distinctness under `equal`, whichever tier answers |
| UriDict.Lookup | jsonschema/_utils.py:21-22 | `d[uri]` reads the entry under `normalize(uri)`, and fails (`KeyError`) exactly when there is none |
| UriDict.RawUpdate | jsonschema/_utils.py:17-19 | `dict.update(pairs)`: the keys are the old keys plus the raw keys of the pairs, and the last pair's key reads the last pair's value; `RawUpdateLastWins` and `RawUpdateUntouched` give the value of every key |
| UriDict.RawUpdateLastWins | jsonschema/_utils.py:17-19 | after `dict.update(pairs)`, a key reads the value of the last pair that names it |
| UriDict.RawUpdateUntouched | jsonschema/_utils.py:17-19 | a key that no pair names is present after the update exactly when it was before, with the same value |
| UriDict.Assign | jsonschema/_utils.py:24-25 | after `d[uri] = value` every URI normalizing like `uri` reads `value`, every other URI reads what it read before, the keys gain `normalize(uri)`, and the size grows by one exactly when that key is new |
| UriDict.Remove | jsonschema/_utils.py:27-28 | `del d[uri]` fails iff nothing is stored under `normalize(uri)`; otherwise exactly that key goes, other URIs read what they read before, and the size drops by one |
| UriDict.URIDict.constructor | jsonschema/_utils.py:17-19 | the initial pairs are stored as given, without normalization |
| UriDict.URIDict.Normalized | jsonschema/_utils.py:17-19 | the corrected constructor: the store is the initial pairs assigned one by one through `d[key] = value` |
| UriDict.URIDict.GetItem | jsonschema/_utils.py:21-22 | a URI reads a value iff its normalization is stored, and then reads the stored value |
| UriDict.URIDict.SetItem | jsonschema/_utils.py:24-25 | the new store is `Assign` of the old one |
| UriDict.URIDict.DelItem | jsonschema/_utils.py:27-28 | fails iff the URI reads nothing, and then the store is unchanged; otherwise the new store is `Remove` of the old one |
| UriDict.URIDict.Keys | jsonschema/_utils.py:30-31 | the stored keys: a URI reads a value iff its normalization is one of them |
| UriDict.URIDict.Len | jsonschema/_utils.py:33-34 | the number of distinct stored keys |
| UriDict.NormalizedUpdateLastWins | jsonschema/_utils.py:24-25 | after pairs are assigned one by one, a URI reads the value of the last pair whose key normalizes like it |
| UriDict.NormalizedUpdateUntouched | jsonschema/_utils.py:24-25 | a URI that no assigned key normalizes like reads what it read before |
| UriDict.InitialKeyIsNotNormalized | jsonschema/_utils.py:17-22 | `URIDict([("http://example.com/s#", v)])` cannot be read back under that URI as written, and can with the corrected constructor |
| Validator.Resolver.PushScope | jsonschema/_utils.py:273 | `push_scope` appends the scope to the stack and records the push |
| Validator.Resolver.PopScope | jsonschema/_utils.py:278 | `pop_scope` drops the top scope and records the pop; on an empty stack it fails and changes nothing |
| Validator.ExtendsWrap | jsonschema/_utils.py:273-278 | a push, a balanced stretch, and a pop leave the event record extended by a balanced stretch |
| ItemTracker.ValidIndexes | jsonschema/_utils.py:295-297 | the positions reported are exactly the positions `k < n` whose item is valid, in increasing order |
| ItemTracker.KeywordIndexes | jsonschema/_utils.py:293-297 | `contains` / `unevaluatedItems` report exactly the positions whose item is valid under the keyword's value, and nothing when the keyword is absent |
| ItemTracker.PrefixIndexes | jsonschema/_utils.py:280-282 | `prefixItems` reports exactly `0 .. len(prefixItems) - 1` when the instance is valid under `{"prefixItems": ...}`, and nothing otherwise |
| ItemTracker.ItemIndexes | jsonschema/_utils.py:262-267 | a non-object schema yields `[]`; a schema with `items` yields exactly `0 .. len(instance) - 1` |
| ItemTracker.ObjectIndexes | jsonschema/_utils.py:264-306 | when tracking succeeds, every position reported by `prefixItems`, `contains` or `unevaluatedItems` is in the result |
| ItemTracker.RefIndexes | jsonschema/_utils.py:269-278 | no `$ref` or no `resolve` attribute yields `[]`; an unresolvable reference is a `RefResolutionError` naming it; with no fuel left no reference is followed |
| ItemTracker.IfIndexes | jsonschema/_utils.py:284-291 | no `if` yields `[]`, and so does an `if` the instance fails when there is no `else` |
| ItemTracker.ApplicatorsIndexes | jsonschema/_utils.py:299-304 | a position is reported iff `allOf`, `oneOf` or `anyOf` reports it, and tracking fails iff one of the three fails |
| ItemTracker.ApplicatorIndexes | jsonschema/_utils.py:300-304 | when `descend` reports errors under every subschema, nothing is tracked and nothing fails |
| ItemTracker.FindEvaluatedItemIndexes | jsonschema/_utils.py:255-306 | returns `ItemIndexes` for the stack it started with, leaves the stack as it was, pushes and pops in balanced pairs, and makes no resolver call when `items` is present |
| ItemTracker.ObjectStep | jsonschema/_utils.py:264-306 | the keywords after `items`, in source order: returns `ObjectIndexes` for the starting stack, stack restored, balanced pushes and pops |
| ItemTracker.RefStep | jsonschema/_utils.py:269-278 | `$ref` pushes the resolved scope, tracks the resolved schema under it, and pops again whether or not that failed: returns `RefIndexes`, stack restored, balanced |
| ItemTracker.IfStep | jsonschema/_utils.py:284-291 | returns `IfIndexes` for the starting stack, stack restored, balanced |
| ItemTracker.ApplicatorsStep | jsonschema/_utils.py:299-304 | returns `ApplicatorsIndexes` for the starting stack, stack restored, balanced |
| ItemTracker.ApplicatorStep | jsonschema/_utils.py:301-304 | the loop over one applicator's subschemas returns `ApplicatorIndexes`, stack restored, balanced |
| ItemTracker.CollectValid | jsonschema/_utils.py:295-297 | the loop over the instance returns `ValidIndexes` |
| ItemTracker.ApplicatorIndexesMembers | jsonschema/_utils.py:299-304 | an applicator reports exactly the positions reported by its subschemas under which `descend` yields no error, and every such subschema's tracking succeeded |
| ItemTracker.IfIndexesBranches | jsonschema/_utils.py:284-291 | when `if` is valid, the positions come from `if` and `then` only; when it is not, from `else` only |
| ItemTracker.ItemIndexesFuel | jsonschema/_utils.py:269-278 | any result other than `RecursionLimit` stays the same with more fuel: fuel only cuts off `$ref` chains |
| ItemTracker.PrefixItemsOnly | jsonschema/_utils.py:280-282 | a schema holding only `prefixItems` reports `0 .. len(prefixItems) - 1` when the instance is valid under `{"prefixItems": ...}`, and nothing otherwise |
| ItemTracker.PrefixItemsPastTheEnd | jsonschema/_utils.py:280-282 | an accepted empty array under `{"prefixItems": [{}]}` is reported as having position 0 evaluated |
| PropertyTracker.ValidMemberKeys | jsonschema/_utils.py:333-336 | boolean branch: a name is reported iff some instance member with that name is valid as the one-member object `{name: value}` |
| PropertyTracker.ListedKeys | jsonschema/_utils.py:338-341 | object branch: a name is reported iff it is listed, the instance has it, and its value is valid under the listed subschema |
| PropertyTracker.PropertiesKeys | jsonschema/_utils.py:331-341 | one of `properties`, `additionalProperties`, `unevaluatedProperties` reports only names of the instance |
| PropertyTracker.PatternHits | jsonschema/_utils.py:345-348 | a member's name is reported iff the one-member object is valid under the `patternProperties` value and some pattern is found in the name |
| PropertyTracker.PatternMemberKeys | jsonschema/_utils.py:343-348 | a name is reported iff some instance member with that name has at least one pattern hit |
| PropertyTracker.PatternKeys | jsonschema/_utils.py:343-348 | `patternProperties` reports a name iff the instance has a member of that name, some pattern is found in the name, and the one-member object is valid under the whole `patternProperties` value |
| PropertyTracker.PatternMemberKeysHits | jsonschema/_utils.py:343-348 | over all members, a pattern hit is exactly a pattern found in the name with the member valid under the `patternProperties` value |
| PropertyTracker.PropertyKeys | jsonschema/_utils.py:316-375 | a non-object schema yields `[]`; every name reported is a property of the instance |
| PropertyTracker.ObjectKeys | jsonschema/_utils.py:318-375 | every name reported is a property of the instance |
| PropertyTracker.LocalKeys | jsonschema/_utils.py:331-348 | the keywords that read the instance's members directly report only names of the instance |
| PropertyTracker.NestedKeys | jsonschema/_utils.py:350-373 | `dependentSchemas`, the applicators and `if` report only names of the instance |
| PropertyTracker.RefKeys | jsonschema/_utils.py:320-329 | every name reported through `$ref` is a property of the instance |
| PropertyTracker.DependentKeys | jsonschema/_utils.py:350-357 | every name reported through `dependentSchemas` is a property of the instance |
| PropertyTracker.ApplicatorsKeys | jsonschema/_utils.py:359-364 | every name reported through `allOf`/`oneOf`/`anyOf` is a property of the instance |
| PropertyTracker.ApplicatorKeys | jsonschema/_utils.py:360-364 | one applicator's subschemas report only names of the instance |
| PropertyTracker.IfKeys | jsonschema/_utils.py:366-373 | every name reported through `if`/`then`/`else` is a property of the instance |
| PropertyTracker.FindEvaluatedPropertyKeys | jsonschema/_utils.py:309-375 | returns `PropertyKeys` for the stack it started with, leaves the stack as it was, and pushes and pops in balanced pairs |
| PropertyTracker.ObjectStep | jsonschema/_utils.py:318-375 | returns `ObjectKeys` for the starting stack, stack restored, balanced |
| PropertyTracker.RefStep | jsonschema/_utils.py:320-329 | `$ref` pushes, tracks, and pops even on failure: returns `RefKeys`, stack restored, balanced |
| PropertyTracker.LocalStep | jsonschema/_utils.py:331-348 | the keywords that read the instance's members directly return `LocalKeys` |
| PropertyTracker.NestedStep | jsonschema/_utils.py:350-373 | `dependentSchemas`, the applicators and `if`, in source order: returns `NestedKeys`, stack restored, balanced |
| PropertyTracker.PropertiesStep | jsonschema/_utils.py:331-341 | returns `PropertiesKeys` |
| PropertyTracker.CollectValidMembers | jsonschema/_utils.py:334-336 | the loop over the instance returns `ValidMemberKeys` |
| PropertyTracker.CollectListed | jsonschema/_utils.py:339-341 | the loop over the listed properties returns `ListedKeys` |
| PropertyTracker.CollectPatternKeys | jsonschema/_utils.py:343-348 | the nested loop over members and patterns returns `PatternKeys` |
| PropertyTracker.DependentStep | jsonschema/_utils.py:350-357 | the loop over `dependentSchemas` returns `DependentKeys`, stack restored, balanced |
| PropertyTracker.ApplicatorsStep | jsonschema/_utils.py:359-364 | returns `ApplicatorsKeys`, stack restored, balanced |
| PropertyTracker.ApplicatorStep | jsonschema/_utils.py:361-364 | the loop over one applicator's subschemas returns `ApplicatorKeys`, stack restored, balanced |
| PropertyTracker.IfStep | jsonschema/_utils.py:366-373 | returns `IfKeys`, stack restored, balanced |
| PropertyTracker.DependentKeysMembers | jsonschema/_utils.py:350-357 | `dependentSchemas` reports a name iff an entry whose name the instance has, and under which `descend` yields no error, reports it; entries for absent names contribute nothing |
| PropertyTracker.ApplicatorKeysMembers | jsonschema/_utils.py:359-364 | an applicator reports exactly the names reported by its subschemas under which `descend` yields no error |
| PropertyTracker.IfKeysBranches | jsonschema/_utils.py:366-373 | when `if` is valid, the names come from `if` and `then` only; when it is not, from `else` only |
| PropertyTracker.PropertiesReportsValidListed | jsonschema/_utils.py:338-341 | an object-valued `properties` reports a name iff it is listed, the instance has it, and its value is valid under the listed subschema |
| Helpers.FormatAsIndex | jsonschema/_utils.py:58-73 | empty exactly for no indices; otherwise starts with `[` and ends with `]` |
| Helpers.FormatAsIndexIsBracketed | jsonschema/_utils.py:72-73 | the joined form equals each index's text in its own brackets, one after another |
| Helpers.FormatAsIndexAppend | jsonschema/_utils.py:72-73 | `format_as_index(a + b) == format_as_index(a) + format_as_index(b)` |
| Helpers.FormatAsIndexExample | jsonschema/_utils.py:62 | with Python's `repr`, `[1, 2, "foo"]` formats as `[1][2]['foo']` |
| Helpers.Extras | jsonschema/_utils.py:88-92 | a name is kept iff some instance member has it, `properties` does not list it, and the pattern test does not claim it |
| Helpers.CollectExtras | jsonschema/_utils.py:88-92 | the generator's loop yields `Extras` in instance order |
| Helpers.AdditionalPropertiesAsWritten | jsonschema/_utils.py:76-92 | as written: a name is additional iff the instance has it, `properties` lacks it, and not (the joined pattern text is non-empty and found in the name) |
| Helpers.AdditionalProperties | jsonschema/_utils.py:76-92 | corrected: a name is additional iff the instance has it, `properties` lacks it, and not (some pattern exists and the joined patterns are found in the name) |
| Helpers.MatchedAsWritten | jsonschema/_utils.py:86-90 | the as-written pattern test claims no name the intended test does not, and none at all for the single pattern `""` |
| Helpers.FindAdditionalProperties | jsonschema/_utils.py:76-92 | the generator as written yields `AdditionalPropertiesAsWritten` |
| Helpers.FindAdditionalPropertiesCorrected | jsonschema/_utils.py:76-92 | the generator with the intended pattern test yields `AdditionalProperties` |
| Helpers.MatchedDiffersOnlyForEmptyPattern | jsonschema/_utils.py:86-90 | the as-written and corrected pattern tests differ exactly when `patternProperties` has the single pattern `""` |
| Helpers.EmptyPatternIsIgnored | jsonschema/_utils.py:86-90 | with `patternProperties: {"": {}}`, the property `a` is additional as written and not after the correction |
| Helpers.ExtrasMsg | jsonschema/_utils.py:95-104 | the verb is `was` iff there is exactly one extra, `were` otherwise; one extra's text is its `repr`, none gives `""` |
| Helpers.LeavesAreOccurrences | jsonschema/_utils.py:126-146 | the collected types of a tuple tree are exactly the types occurring anywhere in it |
| Helpers.Flatten | jsonschema/_utils.py:126-146 | `flatten` returns the collected types: a type is in the result iff it occurs anywhere in the tree |
| Helpers.EnsureList | jsonschema/_utils.py:149-158 | the result is never a string; a string becomes the one-item list holding it; anything else is returned unchanged |

## Left out

- `load_schema` (package resources and JSON decoding), `types_msg`, the
  `Unset` class and `URIDict.__repr__`: I/O and message text.
- `urlsplit(uri).geturl()`: `normalize` is an uninterpreted function, and
  nothing assumes it is idempotent.
- `re.search`: an uninterpreted `search(pattern, name)`. An invalid pattern
  raising an error is not modelled.
- Python's `repr` is a parameter in `format_as_index` and `extras_msg`.
- jsonschema/validators.py is not part of this model: `is_type`, `is_valid`,
  `descend` and `resolve` are abstract, and `push_scope` appends the scope
  exactly as `resolve` returns it.
- Floats (where `1 == 1.0`) are not modelled: numbers are integers.
- Python's hashing, its ordering of lists and its `TypeError` control flow in
  `uniq` are replaced by an explicit classification and a total order of the
  model's own. The verdicts do not depend on the order chosen except for the
  as-written sort tier, whose first pair depends on it.
- A keyword value of the wrong shape (an applicator that is not a list, a
  `dependentSchemas` that is not an object) is read as holding no entries,
  where Python would raise or iterate differently.
- `$ref` cycles are not detected, as in the source; `fuel` bounds the depth.
  The claim that more fuel changes nothing is proved for the items tracker
  only (`ItemIndexesFuel`).
- Exceptions raised by `is_valid` or `descend` themselves are not modelled.
- UriDict.URIDict.Keys: returns the set of stored keys; the insertion order
  of iteration is not modelled.
- Helpers.Flatten: returns a set; the order of the tuple Python builds from
  it is not modelled.
- Uniqueness.Uniq: the sort tier is taken for every list of dict-free
  lists, and Python's `sorted` is not modelled. That is wrong in both
  directions. Lists that Python could still sort in spite of a nested dict
  go to brute force here. Dict-free lists that Python cannot order go to
  the sort tier here, where Python raises `TypeError` and falls back to
  brute force. An example is a number against a string at the first
  difference: `uniq([[1], ["a"], ["a"]])` is false in Python and true in
  the model (`UnorderableListsTakeSortTier`). Which pairs `sorted` compares
  depends on its merge strategy, so the model does not try to predict the
  `TypeError`. The order differs on lists Python can sort, too: Python
  compares `True` with `0` as the number 1, sorts `[[True], [0], [0]]` to
  `[[0], [0], [True]]` and answers false, while the model orders booleans
  below numbers, sorts it to `[[true], [0], [0]]` and answers true
  (`BoolsSortBelowNumbers`).
- UriDict.URIDict.constructor: takes a sequence of pairs only. The keyword
  arguments that `URIDict(**kwargs)` passes on to `dict.update` are not
  modelled.

## Findings

| source | as written | input that shows it | evidently intended | confidence | as-written member | corrected member |
|---|---|---|---|---|---|---|
| jsonschema/_utils.py:232-234 | in the sort tier, the first neighbouring pair of lists decides the verdict | `uniq([[1], [2], [2]])` is true | scan every neighbouring pair and return false on the first equal one | not executed; high | Uniqueness.SortTierMissesLaterDuplicate | Uniqueness.UniqueItems |
| jsonschema/_utils.py:243-249 | the brute-force tier compares non-dict items with Python's `==`, which relates nested `true` to `1` | `uniq([{}, [True], [1]])` is false | compare with `equal`, which keeps booleans apart from numbers at every depth | not executed; high | Uniqueness.BruteTierConflatesNestedBooleans | Uniqueness.UniqueItems |
| jsonschema/_utils.py:17-19 | `URIDict(...)` stores its initial pairs under their raw keys | `URIDict([("http://example.com/s#", v)])["http://example.com/s#"]` raises `KeyError` | store initial pairs through `__setitem__`, so that they are normalized | not executed; medium | UriDict.InitialKeyIsNotNormalized | UriDict.URIDict.Normalized |
| jsonschema/_utils.py:87-90 | `if patterns and re.search(...)` skips the search when the joined pattern text is empty, which is also the case for the single pattern `""` | `find_additional_properties({"a": None}, {"patternProperties": {"": {}}})` yields `"a"` | skip the search only when there are no patterns | not executed; medium | Helpers.EmptyPatternIsIgnored | Helpers.AdditionalProperties |
