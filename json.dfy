/** JSON values as the validator receives them once parsed: the shapes of
    `json.loads` output. Numbers are integers only; an object keeps its
    members in insertion order, as a Python dict does. */
module Json {

  datatype Json =
    | Null
    | Bool(b: bool)
    | Int(i: int)
    | Str(s: string)
    | Arr(items: seq<Json>)
    | Obj(members: seq<(string, Json)>)

  datatype Option<+T> = None | Some(value: T)

  /** `key in d` for a dict given by its members. */
  predicate HasKey(m: seq<(string, Json)>, k: string)
  {
    exists i :: 0 <= i < |m| && m[i].0 == k
  }

  /** `d[key]`: the value of the first member with that key. */
  function Get(m: seq<(string, Json)>, k: string): (r: Json)
    requires HasKey(m, k)
    ensures exists i :: 0 <= i < |m| && m[i] == (k, r)
  {
    if m[0].0 == k then m[0].1
    else
      assert exists i :: 1 <= i < |m| && m[i].0 == k;
      assert exists i :: 0 <= i < |m[1..]| && m[1..][i].0 == k by {
        var i :| 1 <= i < |m| && m[i].0 == k;
        assert m[1..][i - 1].0 == k;
      }
      Get(m[1..], k)
  }

  /** The keys of a dict, in insertion order. */
  function Keys(m: seq<(string, Json)>): (ks: seq<string>)
    ensures |ks| == |m|
    ensures forall i :: 0 <= i < |m| ==> ks[i] == m[i].0
  {
    seq(|m|, i requires 0 <= i < |m| => m[i].0)
  }

  /** A Python dict never holds a key twice. */
  predicate UniqueKeys(m: seq<(string, Json)>)
  {
    forall i, j :: 0 <= i < j < |m| ==> m[i].0 != m[j].0
  }

  /** Every object nested anywhere in `j` has unique keys: the values that
      `json.loads` can produce. */
  predicate WellFormed(j: Json)
    decreases j
  {
    match j
    case Arr(xs) => forall i :: 0 <= i < |xs| ==> WellFormed(xs[i])
    case Obj(ms) =>
      UniqueKeys(ms) && forall i :: 0 <= i < |ms| ==> WellFormed(ms[i].1)
    case _ => true
  }

  /** The items of an array keyword value; any other shape holds none. */
  function Elements(j: Json): seq<Json>
  {
    if j.Arr? then j.items else []
  }

  /** The members of an object keyword value; any other shape holds none. */
  function Entries(j: Json): seq<(string, Json)>
  {
    if j.Obj? then j.members else []
  }

  /** `list(range(0, n))`. */
  function Range(n: nat): (r: seq<nat>)
    ensures |r| == n
    ensures forall k :: 0 <= k < n ==> r[k] == k
    ensures forall k: int :: k in r <==> 0 <= k < n
  {
    if n == 0 then [] else Range(n - 1) + [n - 1]
  }

  lemma GetOfUniqueKeys(m: seq<(string, Json)>, i: nat)
    requires UniqueKeys(m) && i < |m|
    ensures HasKey(m, m[i].0) && Get(m, m[i].0) == m[i].1
  {
    var j :| 0 <= j < |m| && m[j] == (m[i].0, Get(m, m[i].0));
    assert j == i;
  }

  /** Keyword values and array items are strictly smaller than the schema
      holding them, which is what lets the trackers recurse into them. */
  lemma GetBelow(m: seq<(string, Json)>, k: string)
    requires HasKey(m, k)
    ensures Get(m, k) < Obj(m)
  {
    var i :| 0 <= i < |m| && m[i] == (k, Get(m, k));
  }

  lemma ElementsBelow(m: seq<(string, Json)>, k: string)
    requires HasKey(m, k)
    ensures forall s :: s in Elements(Get(m, k)) ==> s < Obj(m)
  {
    GetBelow(m, k);
  }

  lemma EntriesBelow(m: seq<(string, Json)>, k: string)
    requires HasKey(m, k)
    ensures forall i :: 0 <= i < |Entries(Get(m, k))| ==> Entries(Get(m, k))[i].1 < Obj(m)
  {
    GetBelow(m, k);
  }
}
