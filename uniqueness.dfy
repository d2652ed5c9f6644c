/** `uniq` (jsonschema/_utils.py): are all items of an array pairwise
    distinct, as `uniqueItems` asks. Python picks one of three strategies by
    trying each and catching `TypeError`; here the strategy is chosen by
    classifying the items up front. */
module Uniqueness {
  import opened Json
  import opened Equality
  import opened Ordering

  /** The reference: no item is `equal` to a later one. */
  predicate Distinct(c: seq<Json>)
  {
    forall i, j :: 0 <= i < j < |c| ==> !Equal(c[i], c[j])
  }

  predicate IsScalar(j: Json)
  {
    j.Null? || j.Bool? || j.Int? || j.Str?
  }

  predicate IsDictFreeList(j: Json)
  {
    j.Arr? && DictFree(j)
  }

  /** Hashing works when every item is a scalar; sorting when every item is
      a list Python can order, here a list holding no dict; otherwise only
      brute force is left. */
  datatype Tier = Hashing | Sorting | BruteForce

  function Classify(c: seq<Json>): (t: Tier)
    ensures t == Hashing <==> forall i :: 0 <= i < |c| ==> IsScalar(c[i])
    ensures t == Sorting ==> c != [] && forall i :: 0 <= i < |c| ==> c[i].Arr?
    ensures t == BruteForce <==>
      (exists i :: 0 <= i < |c| && !IsScalar(c[i])) && (exists i :: 0 <= i < |c| && !IsDictFreeList(c[i]))
  {
    if forall i :: 0 <= i < |c| ==> IsScalar(c[i]) then Hashing
    else if forall i :: 0 <= i < |c| ==> IsDictFreeList(c[i]) then Sorting
    else BruteForce
  }

  // ---------------------------------------------------------------------
  // Tier 1: count the distinct unbooled items

  function UnboolSet(c: seq<Json>): set<Unboxed>
  {
    set x | x in c :: Unbool(x)
  }

  /** The hash tier's verdict: no value occurs twice. */
  function HashVerdict(c: seq<Json>): (r: bool)
    ensures r <==> NoDup(c)
  {
    UnboolSetSize(c);
    |UnboolSet(c)| == |c|
  }

  lemma UnboolInjective(a: Json, b: Json)
    ensures Unbool(a) == Unbool(b) <==> a == b
  {
  }

  lemma {:induction false} UnboolSetSize(c: seq<Json>)
    ensures |UnboolSet(c)| <= |c|
    ensures |UnboolSet(c)| == |c| <==> NoDup(c)
  {
    if |c| > 0 {
      var init, last := c[..|c| - 1], c[|c| - 1];
      assert c == init + [last];
      UnboolSetSize(init);
      assert UnboolSet(c) == UnboolSet(init) + {Unbool(last)};
      if last in init {
        assert Unbool(last) in UnboolSet(init);
        var i :| 0 <= i < |init| && init[i] == last;
        assert c[i] == c[|c| - 1];
      } else {
        forall x | x in init ensures Unbool(x) != Unbool(last) {
          UnboolInjective(x, last);
        }
        assert Unbool(last) !in UnboolSet(init);
        if NoDup(init) {
          forall i, j | 0 <= i < j < |c| ensures c[i] != c[j] {
            if j < |c| - 1 {
              assert c[i] == init[i] && c[j] == init[j];
            } else {
              assert c[i] in init;
            }
          }
        } else {
          var i, j :| 0 <= i < j < |init| && init[i] == init[j];
          assert c[i] == c[j];
        }
      }
    }
  }

  /** On scalars, `equal` is identity, so the hash tier answers exactly the
      reference question: `[true, 1]` is unique, `[1, 1]` is not. */
  lemma HashVerdictCorrect(c: seq<Json>)
    requires Classify(c) == Hashing
    ensures HashVerdict(c) <==> Distinct(c)
  {
    UnboolSetSize(c);
    forall i, j | 0 <= i < j < |c| ensures Equal(c[i], c[j]) <==> c[i] == c[j] {
      EqualOnMixedIsIdentity(c[i], c[j]);
    }
  }

  // ---------------------------------------------------------------------
  // Tier 2: sort, then compare neighbours

  /** The neighbour scan as written: the first pair of lists decides the
      verdict, whatever follows it. */
  function ScanAsWritten(t: seq<Json>, k: nat): (r: bool)
    ensures Scan(t, k) ==> r
    ensures (forall i :: k <= i < |t| - 1 ==> !(t[i].Arr? && t[i + 1].Arr?)) ==> (r <==> Scan(t, k))
    decreases |t| - k
  {
    if k + 1 >= |t| then true
    else if t[k].Arr? && t[k + 1].Arr? then !ListEqual(t[k].items, t[k + 1].items)
    else if UnboolEq(t[k], t[k + 1]) then false
    else ScanAsWritten(t, k + 1)
  }

  predicate SortVerdictAsWritten(c: seq<Json>)
  {
    ScanAsWritten(SortJson(c), 0)
  }

  /** The scan that goes on to the next pair when a pair of lists differs. */
  predicate Scan(t: seq<Json>, k: nat)
    decreases |t| - k
  {
    if k + 1 >= |t| then true
    else if t[k].Arr? && t[k + 1].Arr? && ListEqual(t[k].items, t[k + 1].items) then false
    else if !(t[k].Arr? && t[k + 1].Arr?) && UnboolEq(t[k], t[k + 1]) then false
    else Scan(t, k + 1)
  }

  predicate SortVerdict(c: seq<Json>)
  {
    Scan(SortJson(c), 0)
  }

  /** On lists, the scan finds exactly the neighbouring duplicates. */
  lemma {:induction false} ScanFindsNeighbours(t: seq<Json>, k: nat)
    requires forall x :: x in t ==> IsDictFreeList(x)
    requires k <= |t|
    ensures Scan(t, k) <==> forall i :: k <= i < |t| - 1 ==> t[i] != t[i + 1]
    decreases |t| - k
  {
    if k + 1 < |t| {
      assert t[k] in t && t[k + 1] in t;
      EqualOnDictFree(t[k], t[k + 1]);
      ScanFindsNeighbours(t, k + 1);
    }
  }

  /** With the scan corrected, the sort tier agrees with the reference. */
  lemma SortVerdictCorrect(c: seq<Json>)
    requires Classify(c) == Sorting
    ensures SortVerdict(c) <==> Distinct(c)
  {
    var t := SortJson(c);
    forall x | x in t ensures IsDictFreeList(x) {
      assert x in multiset(c);
    }
    ScanFindsNeighbours(t, 0);
    if Scan(t, 0) {
      AscendingGroupsDuplicates(t);
    }
    SortKeepsNoDup(c);
    forall i, j | 0 <= i < j < |c| ensures Equal(c[i], c[j]) <==> c[i] == c[j] {
      EqualOnDictFree(c[i], c[j]);
    }
  }

  /** As written, a sorted sequence of two or more lists is judged by its
      first two items alone. */
  lemma SortTierJudgesFirstPair(c: seq<Json>)
    requires Classify(c) == Sorting && |c| >= 2
    ensures var t := SortJson(c);
            |t| == |c| && t[0].Arr? && t[1].Arr? &&
            SortVerdictAsWritten(c) == !ListEqual(t[0].items, t[1].items)
  {
    var t := SortJson(c);
    assert t[0] in multiset(c) && t[1] in multiset(c);
  }

  lemma SortOfExample(one: Json, two: Json)
    requires Below(one, two)
    ensures SortJson([one, two, two]) == [one, two, two]
  {
    BelowAsymmetric(one, two);
    BelowIrreflexive(two);
    var c := [one, two, two];
    assert c[1..] == [two, two] && c[1..][1..] == [two];
    assert SortJson([two]) == [two];
    assert SortJson([two, two]) == [two, two];
  }

  lemma OneBelowTwo()
    ensures Below(Arr([Int(1)]), Arr([Int(2)]))
  {
    FirstDiffIs([Int(1)], [Int(2)], 0, 0);
  }

  lemma ExampleIsListTier(c: seq<Json>)
    requires c == [Arr([Int(1)]), Arr([Int(2)]), Arr([Int(2)])]
    ensures Classify(c) == Sorting
  {
    assert forall i :: 0 <= i < |c| ==> IsDictFreeList(c[i]);
    assert !IsScalar(c[0]);
  }

  lemma ExampleHasDuplicate(c: seq<Json>)
    requires c == [Arr([Int(1)]), Arr([Int(2)]), Arr([Int(2)])]
    ensures !Distinct(c) && !SortVerdict(c)
  {
    var two := Arr([Int(2)]);
    OneBelowTwo();
    SortOfExample(c[0], two);
    assert ListEqual(two.items, two.items);
    assert Equal(c[1], c[2]);
    assert !Scan(SortJson(c), 1);
  }

  /** The as-written scan over lists answers after the first pair. */
  lemma FirstPairDecides(t: seq<Json>)
    requires |t| >= 2 && t[0].Arr? && t[1].Arr?
    ensures ScanAsWritten(t, 0) == !ListEqual(t[0].items, t[1].items)
  {
  }

  /** `uniq([[1], [2], [2]])` is `True` as written: the sorted items are
      `[1], [2], [2]`, the first pair differs, and the scan returns before it
      reaches the duplicate pair. */
  lemma SortTierMissesLaterDuplicate(c: seq<Json>)
    requires c == [Arr([Int(1)]), Arr([Int(2)]), Arr([Int(2)])]
    ensures Classify(c) == Sorting && SortVerdictAsWritten(c) && !Distinct(c) && !SortVerdict(c)
  {
    ExampleIsListTier(c);
    ExampleHasDuplicate(c);
    ExampleJudgedUnique(c);
  }

  lemma ExampleJudgedUnique(c: seq<Json>)
    requires c == [Arr([Int(1)]), Arr([Int(2)]), Arr([Int(2)])]
    ensures SortVerdictAsWritten(c)
  {
    var one, two := Arr([Int(1)]), Arr([Int(2)]);
    OneBelowTwo();
    SortOfExample(one, two);
    assert !Equal(one.items[0], two.items[0]);
    FirstPairDecides(c);
  }

  /** Where the model and Python part ways: Python cannot order `1` and
      `"a"`, so `sorted` raises `TypeError` on `[[1], ["a"], ["a"]]` and
      brute force finds the duplicate; the model orders numbers below
      strings, sends the items to the sort tier, and the as-written scan
      judges them unique after the first pair. */
  lemma UnorderableListsTakeSortTier(c: seq<Json>)
    requires c == [Arr([Int(1)]), Arr([Str("a")]), Arr([Str("a")])]
    ensures Classify(c) == Sorting && SortVerdictAsWritten(c) && !NoMatch(c, BruteMatchAsWritten)
  {
    UnorderableExampleIsListTier(c);
    UnorderableExampleJudgedUnique(c);
    UnorderableExampleMatches(c);
  }

  lemma UnorderableExampleIsListTier(c: seq<Json>)
    requires c == [Arr([Int(1)]), Arr([Str("a")]), Arr([Str("a")])]
    ensures Classify(c) == Sorting
  {
    assert forall i :: 0 <= i < |c| ==> IsDictFreeList(c[i]);
    assert !IsScalar(c[0]);
  }

  lemma UnorderableExampleJudgedUnique(c: seq<Json>)
    requires c == [Arr([Int(1)]), Arr([Str("a")]), Arr([Str("a")])]
    ensures SortVerdictAsWritten(c)
  {
    var one, two := Arr([Int(1)]), Arr([Str("a")]);
    FirstDiffIs(one.items, two.items, 0, 0);
    SortOfExample(one, two);
    assert Kind(one.items[0]) != Kind(two.items[0]);
    FirstPairDecides(c);
  }

  lemma UnorderableExampleMatches(c: seq<Json>)
    requires c == [Arr([Int(1)]), Arr([Str("a")]), Arr([Str("a")])]
    ensures !NoMatch(c, BruteMatchAsWritten)
  {
    assert PyEq(c[1].items[0], c[2].items[0]);
    assert BruteMatchAsWritten(c[1], c[2]);
  }

  /** The model's order also parts from Python's on lists Python can sort.
      Python compares `True` with `0` as the number 1, so `sorted` puts
      `[0], [0]` first and `uniq([[True], [0], [0]])` is `False`. The model
      orders booleans below numbers, the first sorted pair is `[true], [0]`,
      and the as-written scan judges the items unique, though two are equal. */
  lemma BoolsSortBelowNumbers(c: seq<Json>)
    requires c == [Arr([Bool(true)]), Arr([Int(0)]), Arr([Int(0)])]
    ensures Classify(c) == Sorting && SortVerdictAsWritten(c) && !Distinct(c)
  {
    BoolExampleIsListTier(c);
    BoolExampleJudgedUnique(c);
    assert ListEqual(c[2].items, c[2].items);
    assert Equal(c[1], c[2]);
  }

  lemma BoolExampleIsListTier(c: seq<Json>)
    requires c == [Arr([Bool(true)]), Arr([Int(0)]), Arr([Int(0)])]
    ensures Classify(c) == Sorting
  {
    assert forall i :: 0 <= i < |c| ==> IsDictFreeList(c[i]);
    assert !IsScalar(c[0]);
  }

  lemma BoolExampleJudgedUnique(c: seq<Json>)
    requires c == [Arr([Bool(true)]), Arr([Int(0)]), Arr([Int(0)])]
    ensures SortVerdictAsWritten(c)
  {
    var one, two := Arr([Bool(true)]), Arr([Int(0)]);
    FirstDiffIs(one.items, two.items, 0, 0);
    SortOfExample(one, two);
    assert Kind(one.items[0]) != Kind(two.items[0]);
    FirstPairDecides(c);
  }

  // ---------------------------------------------------------------------
  // Tier 3: compare every item with every earlier one

  /** No item matches an earlier one under `matches`. */
  predicate NoMatch(c: seq<Json>, matches: (Json, Json) -> bool)
  {
    forall i, j :: 0 <= i < j < |c| ==> !matches(c[i], c[j])
  }

  /** Python's `==` never separates values that `equal` relates. */
  lemma {:induction false} EqualImpliesPyEq(a: Json, b: Json)
    ensures Equal(a, b) ==> PyEq(a, b)
    decreases a
  {
    if Equal(a, b) {
      match a
      case Arr(xs) =>
        if b.Arr? {
          assert ListEqual(xs, b.items);
          forall i | 0 <= i < |xs| ensures PyEq(xs[i], b.items[i]) {
            assert Equal(xs[i], b.items[i]);
            EqualImpliesPyEq(xs[i], b.items[i]);
          }
        }
      case Obj(ms) =>
        if b.Obj? {
          assert DictEqual(ms, b.members);
          forall i | 0 <= i < |ms| ensures HasKey(b.members, ms[i].0) && PyEq(ms[i].1, Get(b.members, ms[i].0)) {
            assert HasKey(b.members, ms[i].0) && Equal(ms[i].1, Get(b.members, ms[i].0));
            EqualImpliesPyEq(ms[i].1, Get(b.members, ms[i].0));
          }
        }
      case _ =>
    }
  }

  /** The comparison as written: `dict_equal` for two dicts, and Python's
      `==` on the unbooled items for everything else, lists included. */
  function BruteMatchAsWritten(seen: Json, e: Json): (r: bool)
    ensures Equal(seen, e) ==> r
  {
    EqualImpliesPyEq(seen, e);
    if seen.Obj? && e.Obj? then DictEqual(seen.members, e.members)
    else UnboolEq(seen, e)
  }

  /** The brute-force loop: each item is compared with every item seen
      before it and then appended to `seen`. The items are kept as they
      are; `matches` applies `unbool` itself. */
  method BruteForceUniq(container: seq<Json>, matches: (Json, Json) -> bool) returns (unique: bool)
    ensures unique <==> NoMatch(container, matches)
  {
    var seen: seq<Json> := [];
    var n := 0;
    while n < |container|
      invariant 0 <= n <= |container|
      invariant seen == container[..n]
      invariant NoMatch(seen, matches)
    {
      var e := container[n];
      var k := 0;
      while k < |seen|
        invariant 0 <= k <= |seen|
        invariant forall i :: 0 <= i < k ==> !matches(seen[i], e)
      {
        if matches(seen[k], e) {
          assert container[k] == seen[k];
          return false;
        }
        k := k + 1;
      }
      seen := seen + [e];
      n := n + 1;
    }
    assert seen == container;
    return true;
  }

  /** `[{}, [true], [1]]` is not unique as written: the lists `[true]` and
      `[1]` are compared with Python's `==`, which calls them equal, though
      `equal` keeps them apart. */
  lemma BruteTierConflatesNestedBooleans()
    ensures var c := [Obj([]), Arr([Bool(true)]), Arr([Int(1)])];
            Classify(c) == BruteForce && !NoMatch(c, BruteMatchAsWritten) && Distinct(c)
  {
    var c := [Obj([]), Arr([Bool(true)]), Arr([Int(1)])];
    assert !IsDictFreeList(c[0]);
    assert BruteMatchAsWritten(c[1], c[2]);
    assert !ListEqual([Bool(true)], [Int(1)]) by {
      assert [Bool(true)][0] == Bool(true) && [Int(1)][0] == Int(1);
      assert !Equal(Bool(true), Int(1));
    }
  }

  // ---------------------------------------------------------------------
  // The whole check

  /** `uniq` as written. */
  method Uniq(container: seq<Json>) returns (unique: bool)
    ensures |container| <= 1 ==> unique
    ensures Classify(container) == Hashing ==> (unique <==> Distinct(container))
    ensures Classify(container) == Sorting ==> unique == SortVerdictAsWritten(container)
    ensures Classify(container) == BruteForce ==>
      (unique <==> NoMatch(container, BruteMatchAsWritten))
    ensures Classify(container) != Sorting && unique ==> Distinct(container)
  {
    match Classify(container)
    case Hashing =>
      HashVerdictCorrect(container);
      unique := HashVerdict(container);
    case Sorting =>
      unique := SortVerdictAsWritten(container);
    case BruteForce =>
      unique := BruteForceUniq(container, BruteMatchAsWritten);
      if unique {
        forall i, j | 0 <= i < j < |container| ensures !Equal(container[i], container[j]) {
          assert !BruteMatchAsWritten(container[i], container[j]);
        }
      }
  }

  /** `uniq` with the sort tier scanning every neighbouring pair and the
      brute-force tier comparing with `equal`: pairwise distinctness under
      `equal`, whichever tier answers. */
  method UniqueItems(container: seq<Json>) returns (unique: bool)
    ensures unique <==> Distinct(container)
  {
    match Classify(container)
    case Hashing =>
      HashVerdictCorrect(container);
      unique := HashVerdict(container);
    case Sorting =>
      SortVerdictCorrect(container);
      unique := SortVerdict(container);
    case BruteForce =>
      unique := BruteForceUniq(container, Equal);
  }
}
