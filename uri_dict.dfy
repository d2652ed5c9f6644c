/** `URIDict` (jsonschema/_utils.py): a mutable mapping from URIs to values
    in which reading, storing and deleting an entry all go through
    `normalize` (`urlsplit(uri).geturl()`). The URL parser is not part of
    this model: `normalize` is any function on strings, and nothing here
    assumes it is idempotent. */
module UriDict {
  import opened Json

  /** `d[uri]` on a store: the value under the normalized key, or `None`
      where Python raises `KeyError`. */
  function Lookup<V>(store: map<string, V>, normalize: string -> string, uri: string): (r: Option<V>)
    ensures r.Some? <==> normalize(uri) in store
    ensures r.Some? ==> r.value == store[normalize(uri)]
  {
    if normalize(uri) in store then Some(store[normalize(uri)]) else None
  }

  /** `d[uri] = value`: every URI with the same normalization now reads
      `value`, every other URI reads what it read before, and the size grows
      by one exactly when the normalized key is new. */
  function Assign<V>(store: map<string, V>, normalize: string -> string, uri: string, value: V)
    : (r: map<string, V>)
    ensures forall u :: normalize(u) == normalize(uri) ==> Lookup(r, normalize, u) == Some(value)
    ensures forall u :: normalize(u) != normalize(uri) ==> Lookup(r, normalize, u) == Lookup(store, normalize, u)
    ensures r.Keys == store.Keys + {normalize(uri)}
    ensures |r| == if normalize(uri) in store then |store| else |store| + 1
  {
    store[normalize(uri) := value]
  }

  /** `del d[uri]`: `None` (the `KeyError`) when no entry sits under the
      normalized key; otherwise that one entry is gone, every URI with a
      different normalization reads what it read before, and the size
      drops by one. */
  function Remove<V>(store: map<string, V>, normalize: string -> string, uri: string)
    : (r: Option<map<string, V>>)
    ensures r.None? <==> Lookup(store, normalize, uri).None?
    ensures r.Some? ==> forall u :: normalize(u) == normalize(uri) ==> Lookup(r.value, normalize, u).None?
    ensures r.Some? ==> forall u :: normalize(u) != normalize(uri) ==>
      Lookup(r.value, normalize, u) == Lookup(store, normalize, u)
    ensures r.Some? ==> r.value.Keys == store.Keys - {normalize(uri)} && |r.value| == |store| - 1
  {
    var k := normalize(uri);
    if k in store then
      var rest := store - {k};
      assert rest.Keys == store.Keys - {k};
      Some(rest)
    else None
  }

  /** `dict.update(pairs)` on the plain dict inside: keys are stored as
      given and a later pair overwrites an earlier one. */
  function RawUpdate<V>(store: map<string, V>, pairs: seq<(string, V)>): (r: map<string, V>)
    ensures forall k :: k in r <==> k in store || exists i :: 0 <= i < |pairs| && pairs[i].0 == k
    ensures pairs != [] ==> r[pairs[|pairs| - 1].0] == pairs[|pairs| - 1].1
    decreases |pairs|
  {
    if pairs == [] then store else RawUpdate(store[pairs[0].0 := pairs[0].1], pairs[1..])
  }

  /** The same update made through `d[key] = value`, one pair after another. */
  function NormalizedUpdate<V>(normalize: string -> string, store: map<string, V>, pairs: seq<(string, V)>)
    : map<string, V>
    decreases |pairs|
  {
    if pairs == [] then store
    else NormalizedUpdate(normalize, Assign(store, normalize, pairs[0].0, pairs[0].1), pairs[1..])
  }

  class URIDict<V> {
    const normalize: string -> string
    var store: map<string, V>

    /** `URIDict(pairs)` as written: the initial pairs go straight into the
        inner dict, without normalization. */
    constructor (normalize: string -> string, pairs: seq<(string, V)>)
      ensures this.normalize == normalize
      ensures store == RawUpdate(map[], pairs)
    {
      this.normalize := normalize;
      store := RawUpdate(map[], pairs);
    }

    /** The constructor with its initial pairs stored as `d[key] = value`
        stores them, so that they can be read back. */
    constructor Normalized(normalize: string -> string, pairs: seq<(string, V)>)
      ensures this.normalize == normalize
      ensures store == NormalizedUpdate(normalize, map[], pairs)
    {
      this.normalize := normalize;
      store := map[];
      new;
      var i := 0;
      while i < |pairs|
        invariant i <= |pairs|
        invariant this.normalize == normalize
        invariant NormalizedUpdate(normalize, store, pairs[i..]) == NormalizedUpdate(normalize, map[], pairs)
      {
        assert pairs[i..][1..] == pairs[i + 1..];
        SetItem(pairs[i].0, pairs[i].1);
        i := i + 1;
      }
    }

    /** `__getitem__` */
    function GetItem(uri: string): (r: Option<V>)
      reads this
      ensures r.Some? <==> Contains(uri)
      ensures r.Some? ==> normalize(uri) in store && r.value == store[normalize(uri)]
    {
      Lookup(store, normalize, uri)
    }

    /** `uri in d`, as `MutableMapping` derives it from `__getitem__`. */
    predicate Contains(uri: string)
      reads this
    {
      normalize(uri) in store
    }

    /** `__setitem__` */
    method SetItem(uri: string, value: V)
      modifies this
      ensures store == Assign(old(store), normalize, uri, value)
    {
      store := store[normalize(uri) := value];
    }

    /** `__delitem__`: `ok` is false where Python raises `KeyError`, and then
        nothing changes. */
    method DelItem(uri: string) returns (ok: bool)
      modifies this
      ensures ok <==> old(GetItem(uri)).Some?
      ensures Remove(old(store), normalize, uri) == if ok then Some(store) else None
      ensures !ok ==> store == old(store)
    {
      var k := normalize(uri);
      ok := k in store;
      if ok {
        store := store - {k};
      }
    }

    /** `__iter__`: the stored keys, which are normalized URIs (insertion
        order is not modelled); a URI reads a value exactly when its
        normalization is one of them. */
    function Keys(): (ks: set<string>)
      reads this
      ensures forall u :: GetItem(u).Some? <==> normalize(u) in ks
    {
      store.Keys
    }

    /** `__len__`: the number of distinct stored keys. */
    function Len(): (n: nat)
      reads this
      ensures n == |Keys()|
    {
      |store|
    }
  }

  // ---------------------------------------------------------------------
  // Initial entries

  /** After an update through `d[key] = value`, a URI reads the value of the
      last pair whose key normalizes like it does ... */
  lemma {:induction false} NormalizedUpdateLastWins<V>(
    normalize: string -> string, store: map<string, V>, pairs: seq<(string, V)>, i: nat, u: string)
    requires i < |pairs| && normalize(u) == normalize(pairs[i].0)
    requires forall j :: i < j < |pairs| ==> normalize(pairs[j].0) != normalize(u)
    ensures Lookup(NormalizedUpdate(normalize, store, pairs), normalize, u) == Some(pairs[i].1)
    decreases |pairs|
  {
    var next := Assign(store, normalize, pairs[0].0, pairs[0].1);
    if i == 0 {
      NormalizedUpdateUntouched(normalize, next, pairs[1..], u);
    } else {
      NormalizedUpdateLastWins(normalize, next, pairs[1..], i - 1, u);
    }
  }

  /** ... and a URI that no key normalizes like reads what it read before. */
  lemma {:induction false} NormalizedUpdateUntouched<V>(
    normalize: string -> string, store: map<string, V>, pairs: seq<(string, V)>, u: string)
    requires forall j :: 0 <= j < |pairs| ==> normalize(pairs[j].0) != normalize(u)
    ensures Lookup(NormalizedUpdate(normalize, store, pairs), normalize, u) == Lookup(store, normalize, u)
    decreases |pairs|
  {
    if pairs != [] {
      var next := Assign(store, normalize, pairs[0].0, pairs[0].1);
      NormalizedUpdateUntouched(normalize, next, pairs[1..], u);
    }
  }

  /** On the raw update, a key reads the value of the last pair that names
      it ... */
  lemma {:induction false} RawUpdateLastWins<V>(store: map<string, V>, pairs: seq<(string, V)>, i: nat, k: string)
    requires i < |pairs| && pairs[i].0 == k
    requires forall j :: i < j < |pairs| ==> pairs[j].0 != k
    ensures k in RawUpdate(store, pairs) && RawUpdate(store, pairs)[k] == pairs[i].1
    decreases |pairs|
  {
    var next := store[pairs[0].0 := pairs[0].1];
    if i == 0 {
      RawUpdateUntouched(next, pairs[1..], k);
    } else {
      RawUpdateLastWins(next, pairs[1..], i - 1, k);
    }
  }

  /** ... and a key that no pair names keeps what it had before. */
  lemma {:induction false} RawUpdateUntouched<V>(store: map<string, V>, pairs: seq<(string, V)>, k: string)
    requires forall j :: 0 <= j < |pairs| ==> pairs[j].0 != k
    ensures k in RawUpdate(store, pairs) <==> k in store
    ensures k in store ==> RawUpdate(store, pairs)[k] == store[k]
    decreases |pairs|
  {
    if pairs != [] {
      RawUpdateUntouched(store[pairs[0].0 := pairs[0].1], pairs[1..], k);
    }
  }

  /** As written, an initial key that normalization changes cannot be read
      back under itself: `URIDict([("http://example.com/s#", v)])` stores
      the key with its empty fragment, while `d["http://example.com/s#"]`
      looks up `"http://example.com/s"` and raises `KeyError`. Made through
      `d[key] = value`, the same initial entry reads back. */
  lemma InitialKeyIsNotNormalized<V>(normalize: string -> string, v: V)
    requires normalize("http://example.com/s#") == "http://example.com/s"
    ensures Lookup(RawUpdate(map[], [("http://example.com/s#", v)]), normalize, "http://example.com/s#") == None
    ensures Lookup(NormalizedUpdate(normalize, map[], [("http://example.com/s#", v)]), normalize, "http://example.com/s#")
            == Some(v)
  {
    var pairs := [("http://example.com/s#", v)];
    assert pairs[1..] == [];
    assert RawUpdate(map[], pairs) == map["http://example.com/s#" := v];
    assert "http://example.com/s" != "http://example.com/s#" by {
      assert |"http://example.com/s"| != |"http://example.com/s#"|;
    }
  }
}
