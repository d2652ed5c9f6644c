/** JSON Schema's instance equality (`unbool`, `equal`, `list_equal`,
    `dict_equal` in jsonschema/_utils.py), next to the Python `==` it has to
    work around: in Python `True == 1` and `False == 0`, in JSON a boolean
    is never a number. */
module Equality {
  import opened Json

  /** The integer a Python bool or int stands for. */
  function NumValue(j: Json): int
    requires j.Bool? || j.Int?
  {
    if j.Int? then j.i else if j.b then 1 else 0
  }

  /** The kind of a JSON value: null, boolean, number, string, array or
      object. */
  function Kind(j: Json): nat
  {
    match j
    case Null => 0
    case Bool(_) => 1
    case Int(_) => 2
    case Str(_) => 3
    case Arr(_) => 4
    case Obj(_) => 5
  }

  /** The kind as Python sees it, where `bool` is a kind of `int`. */
  function PyKind(j: Json): nat
  {
    if j.Bool? then 2 else Kind(j)
  }

  /** Python's `==` on the values `json.loads` returns: booleans compare as
      the integers 1 and 0, lists item by item, dicts key by key. */
  function PyEq(a: Json, b: Json): (r: bool)
    ensures r ==> PyKind(a) == PyKind(b)
    ensures r && a.Arr? ==> |a.items| == |b.items|
    decreases a
  {
    if (a.Bool? || a.Int?) && (b.Bool? || b.Int?) then NumValue(a) == NumValue(b)
    else
      match (a, b)
      case (Null, Null) => true
      case (Str(x), Str(y)) => x == y
      case (Arr(xs), Arr(ys)) =>
        |xs| == |ys| && forall i :: 0 <= i < |xs| ==> PyEq(xs[i], ys[i])
      case (Obj(ms), Obj(ns)) =>
        |ms| == |ns| &&
        forall i :: 0 <= i < |ms| ==> HasKey(ns, ms[i].0) && PyEq(ms[i].1, Get(ns, ms[i].0))
      case _ => false
  }

  /** What `unbool` returns: the two booleans become two private markers
      (`object()` instances made once, when `unbool` is defined); every
      other value passes through. */
  datatype Unboxed = TrueMarker | FalseMarker | Plain(value: Json)

  function Unbool(j: Json): (r: Unboxed)
    ensures r.Plain? <==> !j.Bool?
    ensures r.Plain? ==> r.value == j
    ensures j.Bool? ==> (r == TrueMarker <==> j.b)
  {
    match j
    case Bool(b) => if b then TrueMarker else FalseMarker
    case _ => Plain(j)
  }

  /** Python's `==` on the unbooled values: a marker equals only itself. */
  function UnboolEq(a: Json, b: Json): (r: bool)
    ensures r ==> Kind(a) == Kind(b)
    ensures a.Bool? || b.Bool? ==> (r <==> a == b)
  {
    match (Unbool(a), Unbool(b))
    case (Plain(x), Plain(y)) => PyEq(x, y)
    case (u, w) => u == w
  }

  /** `equal`: lists through `list_equal`, dicts through `dict_equal`,
      anything else by comparing the unbooled values with Python's `==`. */
  function Equal(one: Json, two: Json): (r: bool)
    ensures r ==> Kind(one) == Kind(two)
    decreases one, 1
  {
    if one.Arr? && two.Arr? then ListEqual(one.items, two.items)
    else if one.Obj? && two.Obj? then DictEqual(one.members, two.members)
    else UnboolEq(one, two)
  }

  /** `list_equal`: same length, then `equal` item by item in order. */
  function ListEqual(one: seq<Json>, two: seq<Json>): (r: bool)
    ensures r ==> |one| == |two| && forall i :: 0 <= i < |one| ==> Kind(one[i]) == Kind(two[i])
    decreases Arr(one), 0
  {
    |one| == |two| &&
    forall i :: 0 <= i < |one| ==> Equal(one[i], two[i])
  }

  /** `dict_equal`: same number of keys, then every key of `one` is a key of
      `two` whose value is `equal` to its value in `one`. */
  function DictEqual(one: seq<(string, Json)>, two: seq<(string, Json)>): (r: bool)
    ensures r ==> |one| == |two| && forall k :: HasKey(one, k) ==> HasKey(two, k)
    decreases Obj(one), 0
  {
    |one| == |two| &&
    forall i :: 0 <= i < |one| ==>
      HasKey(two, one[i].0) && Equal(one[i].1, Get(two, one[i].0))
  }

  /** The set of keys of a dict. */
  function KeySet(m: seq<(string, Json)>): (ks: set<string>)
    ensures forall k :: k in ks <==> HasKey(m, k)
  {
    set i | 0 <= i < |m| :: m[i].0
  }

  /** Values in which no dict occurs at any depth. */
  predicate DictFree(j: Json)
    decreases j
  {
    match j
    case Obj(_) => false
    case Arr(xs) => forall i :: 0 <= i < |xs| ==> DictFree(xs[i])
    case _ => true
  }

  // ---------------------------------------------------------------------
  // Properties of `equal`

  /** `equal` keeps booleans apart from numbers, where Python's `==` does not. */
  lemma BoolsAreNotNumbers(b: bool, n: int)
    ensures !Equal(Bool(b), Int(n)) && !Equal(Int(n), Bool(b))
    ensures Equal(Bool(b), Bool(b)) && Equal(Int(n), Int(n))
    ensures PyEq(Bool(b), Int(if b then 1 else 0))
  {
  }

  /** Outside list/list and dict/dict pairs, `equal` is identity of values. */
  lemma EqualOnMixedIsIdentity(a: Json, b: Json)
    requires !(a.Arr? && b.Arr?) && !(a.Obj? && b.Obj?)
    ensures Equal(a, b) <==> a == b
  {
  }

  /** For values without dicts, `equal` is exactly structural identity (so
      nested booleans are kept apart from numbers at every depth). */
  lemma {:induction false} EqualOnDictFree(a: Json, b: Json)
    requires DictFree(a)
    ensures Equal(a, b) <==> a == b
    decreases a
  {
    if a.Arr? && b.Arr? {
      var xs, ys := a.items, b.items;
      if |xs| == |ys| {
        forall i | 0 <= i < |xs|
          ensures Equal(xs[i], ys[i]) <==> xs[i] == ys[i]
        {
          EqualOnDictFree(xs[i], ys[i]);
        }
        if ListEqual(xs, ys) {
          assert xs == ys;
        }
      }
    } else {
      EqualOnMixedIsIdentity(a, b);
    }
  }

  lemma {:induction false} KeySetSize(m: seq<(string, Json)>)
    requires UniqueKeys(m)
    ensures |KeySet(m)| == |m|
  {
    if |m| > 0 {
      var init := m[..|m| - 1];
      KeySetSize(init);
      assert KeySet(m) == KeySet(init) + {m[|m| - 1].0};
      forall i | 0 <= i < |init| ensures init[i].0 != m[|m| - 1].0 {
        assert init[i] == m[i];
      }
    }
  }

  lemma SubsetOfSameSize(a: set<string>, b: set<string>)
    requires a <= b && |a| == |b|
    ensures a == b
  {
    assert |b - a| == |b| - |a|;
  }

  /** Dicts that `dict_equal` relates have the same keys. */
  lemma DictEqualSameKeys(ms: seq<(string, Json)>, ns: seq<(string, Json)>)
    requires UniqueKeys(ms) && UniqueKeys(ns) && DictEqual(ms, ns)
    ensures KeySet(ms) == KeySet(ns)
  {
    KeySetSize(ms);
    KeySetSize(ns);
    forall k | k in KeySet(ms) ensures k in KeySet(ns) {
      var i :| 0 <= i < |ms| && ms[i].0 == k;
    }
    SubsetOfSameSize(KeySet(ms), KeySet(ns));
  }

  /** `dict_equal` does not depend on insertion order: on dicts it holds
      exactly when both have the same keys and `equal` values under each. */
  lemma DictEqualIsOrderFree(ms: seq<(string, Json)>, ns: seq<(string, Json)>)
    requires UniqueKeys(ms) && UniqueKeys(ns)
    ensures DictEqual(ms, ns) <==>
      (KeySet(ms) == KeySet(ns) &&
       forall k :: k in KeySet(ms) ==> Equal(Get(ms, k), Get(ns, k)))
  {
    if DictEqual(ms, ns) {
      DictEqualSameKeys(ms, ns);
      forall k | k in KeySet(ms) ensures Equal(Get(ms, k), Get(ns, k)) {
        var i :| 0 <= i < |ms| && ms[i].0 == k;
        GetOfUniqueKeys(ms, i);
      }
    }
    if KeySet(ms) == KeySet(ns) && forall k :: k in KeySet(ms) ==> Equal(Get(ms, k), Get(ns, k)) {
      KeySetSize(ms);
      KeySetSize(ns);
      forall i | 0 <= i < |ms|
        ensures HasKey(ns, ms[i].0) && Equal(ms[i].1, Get(ns, ms[i].0))
      {
        GetOfUniqueKeys(ms, i);
        assert ms[i].0 in KeySet(ms);
      }
    }
  }

  /** `equal` is reflexive on every value `json.loads` can produce. */
  lemma {:induction false} EqualReflexive(a: Json)
    requires WellFormed(a)
    ensures Equal(a, a)
    decreases a
  {
    match a
    case Arr(xs) =>
      forall i | 0 <= i < |xs| ensures Equal(xs[i], xs[i]) {
        EqualReflexive(xs[i]);
      }
    case Obj(ms) =>
      forall i | 0 <= i < |ms| ensures HasKey(ms, ms[i].0) && Equal(ms[i].1, Get(ms, ms[i].0)) {
        GetOfUniqueKeys(ms, i);
        EqualReflexive(ms[i].1);
      }
    case _ =>
  }

  /** `equal` is symmetric on every value `json.loads` can produce. */
  lemma {:induction false} EqualSymmetric(a: Json, b: Json)
    requires WellFormed(a) && WellFormed(b)
    ensures Equal(a, b) ==> Equal(b, a)
    decreases a
  {
    if !Equal(a, b) {
    } else if a.Arr? && b.Arr? {
      var xs, ys := a.items, b.items;
      assert ListEqual(xs, ys);
      forall i | 0 <= i < |ys| ensures Equal(ys[i], xs[i]) {
        EqualSymmetric(xs[i], ys[i]);
      }
    } else if a.Obj? && b.Obj? {
      var ms, ns := a.members, b.members;
      assert DictEqual(ms, ns);
      DictEqualIsOrderFree(ms, ns);
      forall j | 0 <= j < |ns|
        ensures HasKey(ms, ns[j].0) && Equal(ns[j].1, Get(ms, ns[j].0))
      {
        var k := ns[j].0;
        assert k in KeySet(ns);
        var i :| 0 <= i < |ms| && ms[i].0 == k;
        GetOfUniqueKeys(ms, i);
        GetOfUniqueKeys(ns, j);
        assert Equal(ms[i].1, ns[j].1);
        EqualSymmetric(ms[i].1, ns[j].1);
      }
    } else {
      EqualOnMixedIsIdentity(a, b);
      EqualOnMixedIsIdentity(b, a);
    }
  }

  function NestedDoc(inner: Json): Json
  {
    Obj([("a", Arr([Int(1), Obj([("b", inner)])]))])
  }

  /** The nested example: `{"a": [1, {"b": true}]}` is `equal` to itself ... */
  lemma NestedDocEqualsItself()
    ensures Equal(NestedDoc(Bool(true)), NestedDoc(Bool(true)))
  {
    var inner := Obj([("b", Bool(true))]);
    assert WellFormed(inner);
    assert WellFormed(Arr([Int(1), inner]));
    EqualReflexive(NestedDoc(Bool(true)));
  }

  /** ... and stops being `equal` once the nested `true` becomes `1`, although
      Python's `==` still calls the two equal. */
  lemma NestedTrueIsNotOne()
    ensures !Equal(NestedDoc(Bool(true)), NestedDoc(Int(1)))
    ensures PyEq(NestedDoc(Bool(true)), NestedDoc(Int(1)))
  {
    var inner, innerOne := Obj([("b", Bool(true))]), Obj([("b", Int(1))]);
    assert inner.members[0].0 == "b" && innerOne.members[0].0 == "b";
    assert !Equal(inner, innerOne);
    assert PyEq(inner, innerOne);
    var xs, ys := [Int(1), inner], [Int(1), innerOne];
    assert xs[1] == inner && ys[1] == innerOne;
    assert !ListEqual(xs, ys);
    assert PyEq(Arr(xs), Arr(ys));
    var doc, one := NestedDoc(Bool(true)), NestedDoc(Int(1));
    assert doc.members[0].0 == "a" && one.members[0].0 == "a";
  }
}
