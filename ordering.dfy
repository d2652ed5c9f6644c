/** The order the sort-based tier of `uniq` sorts by, and the sort itself.
    Python's `sorted` compares lists item by item at the first position
    where they differ; this module fixes one total order on dict-free JSON
    values of that lexicographic shape (null < booleans < numbers <
    strings < lists; dicts are never below one another), and an insertion
    sort that is a permutation and ascends under it. */
module Ordering {
  import opened Json
  import opened Equality

  /** The first position at or after `i` where `xs` and `ys` differ, or the
      end of the shorter one. */
  function FirstDiff<T(==)>(xs: seq<T>, ys: seq<T>, i: nat): (k: nat)
    requires i <= |xs| && i <= |ys|
    ensures i <= k <= |xs| && k <= |ys|
    ensures forall j :: i <= j < k ==> xs[j] == ys[j]
    ensures k < |xs| && k < |ys| ==> xs[k] != ys[k]
    decreases |xs| - i
  {
    if i == |xs| || i == |ys| || xs[i] != ys[i] then i else FirstDiff(xs, ys, i + 1)
  }

  /** The three facts above pin the first difference down. */
  lemma {:induction false} FirstDiffIs<T>(xs: seq<T>, ys: seq<T>, i: nat, k: nat)
    requires i <= k <= |xs| && k <= |ys|
    requires forall j :: i <= j < k ==> xs[j] == ys[j]
    requires k < |xs| && k < |ys| ==> xs[k] != ys[k]
    ensures FirstDiff(xs, ys, i) == k
    decreases k - i
  {
    if i < k {
      FirstDiffIs(xs, ys, i + 1, k);
    }
  }

  lemma FirstDiffSymmetric<T>(xs: seq<T>, ys: seq<T>)
    ensures FirstDiff(xs, ys, 0) == FirstDiff(ys, xs, 0)
  {
    var k := FirstDiff(xs, ys, 0);
    FirstDiffIs(ys, xs, 0, k);
  }

  /** Code-point order on strings, as Python compares `str` values. */
  predicate StrBelow(x: string, y: string)
  {
    var k := FirstDiff(x, y, 0);
    if k == |x| then k < |y| else k < |y| && x[k] < y[k]
  }

  /** The strict order the model's sort uses. Values of different kinds
      are ordered by kind, so booleans come before numbers; Python instead
      compares a boolean with a number as 0 or 1, and refuses to compare
      most other pairs of kinds. */
  predicate Below(a: Json, b: Json)
    decreases a
  {
    if Kind(a) != Kind(b) then Kind(a) < Kind(b)
    else
      match a
      case Null => false
      case Bool(x) => !x && b.b
      case Int(x) => x < b.i
      case Str(x) => StrBelow(x, b.s)
      case Arr(xs) =>
        var k := FirstDiff(xs, b.items, 0);
        if k == |xs| then k < |b.items| else k < |b.items| && Below(xs[k], b.items[k])
      case Obj(_) => false
  }

  // ---------------------------------------------------------------------
  // Below is a strict order, total on dict-free values

  lemma StrBelowIrreflexive(x: string)
    ensures !StrBelow(x, x)
  {
    FirstDiffIs(x, x, 0, |x|);
  }

  lemma {:induction false} BelowIrreflexive(a: Json)
    ensures !Below(a, a)
    decreases a
  {
    match a
    case Str(x) => StrBelowIrreflexive(x);
    case Arr(xs) => FirstDiffIs(xs, xs, 0, |xs|);
    case _ =>
  }

  lemma StrBelowTransitive(x: string, y: string, z: string)
    requires StrBelow(x, y) && StrBelow(y, z)
    ensures StrBelow(x, z)
  {
    var k1, k2 := FirstDiff(x, y, 0), FirstDiff(y, z, 0);
    if k1 < k2 {
      FirstDiffIs(x, z, 0, k1);
    } else if k2 < k1 {
      FirstDiffIs(x, z, 0, k2);
    } else {
      FirstDiffIs(x, z, 0, k1);
    }
  }

  lemma {:induction false} BelowTransitive(a: Json, b: Json, c: Json)
    requires Below(a, b) && Below(b, c)
    ensures Below(a, c)
    decreases a
  {
    if Kind(a) == Kind(b) == Kind(c) {
      match a
      case Str(x) => StrBelowTransitive(x, b.s, c.s);
      case Arr(xs) =>
        var ys, zs := b.items, c.items;
        var k1, k2 := FirstDiff(xs, ys, 0), FirstDiff(ys, zs, 0);
        if k1 < k2 {
          FirstDiffIs(xs, zs, 0, k1);
        } else if k2 < k1 {
          FirstDiffIs(xs, zs, 0, k2);
        } else if k1 == |xs| {
          FirstDiffIs(xs, zs, 0, k1);
        } else {
          BelowTransitive(xs[k1], ys[k1], zs[k1]);
          BelowIrreflexive(xs[k1]);
          FirstDiffIs(xs, zs, 0, k1);
        }
      case _ =>
    }
  }

  lemma BelowAsymmetric(a: Json, b: Json)
    requires Below(a, b)
    ensures !Below(b, a)
  {
    if Below(b, a) {
      BelowTransitive(a, b, a);
      BelowIrreflexive(a);
    }
  }

  lemma StrBelowTotal(x: string, y: string)
    requires x != y
    ensures StrBelow(x, y) || StrBelow(y, x)
  {
    FirstDiffSymmetric(x, y);
  }

  lemma {:induction false} BelowTotal(a: Json, b: Json)
    requires DictFree(a) && DictFree(b) && a != b
    ensures Below(a, b) || Below(b, a)
    decreases a
  {
    if Kind(a) == Kind(b) {
      match a
      case Str(x) => StrBelowTotal(x, b.s);
      case Arr(xs) =>
        var ys := b.items;
        var k := FirstDiff(xs, ys, 0);
        FirstDiffSymmetric(xs, ys);
        if k < |xs| && k < |ys| {
          BelowTotal(xs[k], ys[k]);
        }
      case _ =>
    }
  }

  // ---------------------------------------------------------------------
  // The sort

  /** No value occurs twice. */
  predicate NoDup(s: seq<Json>)
  {
    forall i, j :: 0 <= i < j < |s| ==> s[i] != s[j]
  }

  /** Every neighbour is at or above the one before it. */
  predicate Ascending(t: seq<Json>)
  {
    forall k :: 0 <= k < |t| - 1 ==> !Below(t[k + 1], t[k])
  }

  function Insert(x: Json, t: seq<Json>): (r: seq<Json>)
    ensures multiset(r) == multiset(t) + multiset{x}
    ensures r[0] == x || (|t| > 0 && r[0] == t[0])
    ensures Ascending(t) ==> Ascending(r)
  {
    if t == [] then [x]
    else if Below(t[0], x) then
      var rest := Insert(x, t[1..]);
      assert t == [t[0]] + t[1..];
      BelowAsymmetric(t[0], x);
      assert Ascending(t) ==> Ascending(t[1..]);
      [t[0]] + rest
    else [x] + t
  }

  /** `sorted(...)`: an ascending permutation of its input. */
  function SortJson(s: seq<Json>): (t: seq<Json>)
    ensures multiset(t) == multiset(s) && |t| == |s|
    ensures Ascending(t)
  {
    if s == [] then []
    else
      assert s == [s[0]] + s[1..];
      Insert(s[0], SortJson(s[1..]))
  }

  lemma {:induction false} NoDupByCount(s: seq<Json>)
    ensures NoDup(s) <==> forall x :: multiset(s)[x] <= 1
  {
    if |s| > 0 {
      var init, last := s[..|s| - 1], s[|s| - 1];
      assert s == init + [last];
      NoDupByCount(init);
      if NoDup(s) {
        assert last !in init by {
          forall i | 0 <= i < |init| ensures init[i] != last {
            assert init[i] == s[i];
          }
        }
      }
      if forall x :: multiset(s)[x] <= 1 {
        assert forall x :: multiset(init)[x] <= 1 by {
          forall x ensures multiset(init)[x] <= 1 {
            assert multiset(s)[x] == multiset(init)[x] + (if x == last then 1 else 0);
          }
        }
        assert multiset(s)[last] == multiset(init)[last] + 1;
        assert multiset(init)[last] == 0;
        forall i, j | 0 <= i < j < |s| ensures s[i] != s[j] {
          if j < |s| - 1 {
            assert s[i] == init[i] && s[j] == init[j];
          } else {
            assert s[i] in multiset(init);
          }
        }
      }
    }
  }

  /** Sorting neither adds nor removes a duplicate. */
  lemma SortKeepsNoDup(s: seq<Json>)
    ensures NoDup(SortJson(s)) <==> NoDup(s)
  {
    NoDupByCount(s);
    NoDupByCount(SortJson(s));
  }

  /** In an ascending sequence of dict-free values, a value that occurs twice
      occurs twice in a row. */
  lemma {:induction false} AscendingGroupsDuplicates(t: seq<Json>)
    requires Ascending(t)
    requires forall x :: x in t ==> DictFree(x)
    requires forall k :: 0 <= k < |t| - 1 ==> t[k] != t[k + 1]
    ensures NoDup(t)
  {
    forall k | 0 <= k < |t| - 1 ensures Below(t[k], t[k + 1]) {
      BelowTotal(t[k], t[k + 1]);
    }
    forall i, j | 0 <= i < j < |t| ensures Below(t[i], t[j]) {
      StrictlyAscending(t, i, j);
    }
    forall i, j | 0 <= i < j < |t| ensures t[i] != t[j] {
      BelowIrreflexive(t[i]);
    }
  }

  lemma {:induction false} StrictlyAscending(t: seq<Json>, i: nat, j: nat)
    requires forall k :: 0 <= k < |t| - 1 ==> Below(t[k], t[k + 1])
    requires i < j < |t|
    ensures Below(t[i], t[j])
    decreases j - i
  {
    if i + 1 < j {
      StrictlyAscending(t, i + 1, j);
      BelowTransitive(t[i], t[i + 1], t[j]);
    }
  }
}
