/** The small helpers of jsonschema/_utils.py: `format_as_index`,
    `find_additional_properties`, `extras_msg`, `flatten` and `ensure_list`.
    Python's `repr` and `re.search` are parameters: `repr` maps a value to
    its text and `search(pattern, name)` says whether the pattern is found
    in the name. */
module Helpers {
  import opened Json

  /** The parts with `sep` between neighbours, as `str.join` builds it. */
  function Join(sep: string, parts: seq<string>): (r: string)
    ensures parts == [] ==> r == ""
    ensures |parts| == 1 ==> r == parts[0]
  {
    if |parts| == 0 then ""
    else if |parts| == 1 then parts[0]
    else parts[0] + sep + Join(sep, parts[1..])
  }

  /** The text of every value, in order. */
  function Reprs<T>(repr: T -> string, xs: seq<T>): (r: seq<string>)
    ensures |r| == |xs|
    ensures forall i :: 0 <= i < |xs| ==> r[i] == repr(xs[i])
  {
    seq(|xs|, i requires 0 <= i < |xs| => repr(xs[i]))
  }

  // ---------------------------------------------------------------------
  // format_as_index

  /** `format_as_index(indices)`: `""` for no indices, otherwise every
      index's text between brackets, as in `[1][2]['foo']`. */
  function FormatAsIndex<T>(repr: T -> string, indices: seq<T>): (r: string)
    ensures r == "" <==> indices == []
    ensures indices != [] ==> r[0] == '[' && r[|r| - 1] == ']'
  {
    if indices == [] then ""
    else "[" + Join("][", Reprs(repr, indices)) + "]"
  }

  /** The reading of a path that `format_as_index` promises: one bracketed
      index after another. */
  function Bracketed<T>(repr: T -> string, indices: seq<T>): string
    decreases |indices|
  {
    if indices == [] then "" else "[" + repr(indices[0]) + "]" + Bracketed(repr, indices[1..])
  }

  lemma {:induction false} FormatAsIndexIsBracketed<T>(repr: T -> string, indices: seq<T>)
    ensures FormatAsIndex(repr, indices) == Bracketed(repr, indices)
    decreases |indices|
  {
    if |indices| == 1 {
      assert indices[1..] == [];
    } else if |indices| > 1 {
      var rest := indices[1..];
      var parts := Reprs(repr, indices);
      assert parts[1..] == Reprs(repr, rest);
      FormatAsIndexIsBracketed(repr, rest);
      var j := Join("][", parts[1..]);
      assert FormatAsIndex(repr, rest) == "[" + j + "]";
      calc {
        FormatAsIndex(repr, indices);
        "[" + (parts[0] + "][" + j) + "]";
        { assert "][" == "]" + "["; }
        ("[" + repr(indices[0]) + "]") + ("[" + j + "]");
        ("[" + repr(indices[0]) + "]") + Bracketed(repr, rest);
      }
    }
  }

  lemma {:induction false} BracketedAppend<T>(repr: T -> string, a: seq<T>, b: seq<T>)
    ensures Bracketed(repr, a + b) == Bracketed(repr, a) + Bracketed(repr, b)
    decreases |a|
  {
    if a == [] {
      assert a + b == b;
    } else {
      assert (a + b)[1..] == a[1..] + b;
      BracketedAppend(repr, a[1..], b);
    }
  }

  /** The path of a nested location is the path to its parent followed by
      the rest. */
  lemma FormatAsIndexAppend<T>(repr: T -> string, a: seq<T>, b: seq<T>)
    ensures FormatAsIndex(repr, a + b) == FormatAsIndex(repr, a) + FormatAsIndex(repr, b)
  {
    FormatAsIndexIsBracketed(repr, a);
    FormatAsIndexIsBracketed(repr, b);
    FormatAsIndexIsBracketed(repr, a + b);
    BracketedAppend(repr, a, b);
  }

  /** The docstring's example, with Python's `repr` for the three values. */
  lemma FormatAsIndexExample(repr: Json -> string)
    requires repr(Int(1)) == "1" && repr(Int(2)) == "2" && repr(Str("foo")) == "'foo'"
    ensures FormatAsIndex(repr, [Int(1), Int(2), Str("foo")]) == "[1][2]['foo']"
  {
    var xs := [Int(1), Int(2), Str("foo")];
    FormatAsIndexIsBracketed(repr, xs);
    assert xs[1..][1..][1..] == [];
  }

  // ---------------------------------------------------------------------
  // find_additional_properties

  /** The name is one of the keys of `properties`, when there is one. */
  predicate Listed(m: seq<(string, Json)>, name: string)
  {
    HasKey(m, "properties") && HasKey(Entries(Get(m, "properties")), name)
  }

  /** The keys of `patternProperties`, or none. */
  function PatternNames(m: seq<(string, Json)>): seq<string>
  {
    if HasKey(m, "patternProperties") then Keys(Entries(Get(m, "patternProperties"))) else []
  }

  /** The pattern names joined by `|` into one alternation; `""` when
      there are none. */
  function PatternUnion(m: seq<(string, Json)>): string
  {
    Join("|", PatternNames(m))
  }

  /** The names of the first `n` instance members that are not listed
      under `properties` and that `matched` does not claim, in instance
      order. */
  function Extras(instance: seq<(string, Json)>, m: seq<(string, Json)>, matched: string -> bool, n: nat)
    : (r: seq<string>)
    requires n <= |instance|
    ensures |r| <= n
    ensures forall k :: k in r <==>
      exists i :: 0 <= i < n && instance[i].0 == k && !Listed(m, k) && !matched(k)
  {
    if n == 0 then []
    else
      var name := instance[n - 1].0;
      Extras(instance, m, matched, n - 1) + (if !Listed(m, name) && !matched(name) then [name] else [])
  }

  /** The generator's loop, for a given test of the patterns. */
  method CollectExtras(instance: seq<(string, Json)>, m: seq<(string, Json)>, matched: string -> bool)
    returns (extras: seq<string>)
    ensures extras == Extras(instance, m, matched, |instance|)
  {
    extras := [];
    var i := 0;
    while i < |instance|
      invariant i <= |instance|
      invariant extras == Extras(instance, m, matched, i)
    {
      var name := instance[i].0;
      if !Listed(m, name) {
        if !matched(name) {
          extras := extras + [name];
        }
      }
      i := i + 1;
    }
  }

  /** The pattern test as written, which skips the search whenever the
      joined pattern text is empty: it claims no more names than the
      intended test, and never one for the single pattern `""`. */
  function MatchedAsWritten(search: (string, string) -> bool, m: seq<(string, Json)>, name: string): (r: bool)
    ensures r ==> Matched(search, m, name)
    ensures PatternNames(m) == [""] ==> !r
  {
    PatternUnion(m) != "" && search(PatternUnion(m), name)
  }

  /** The pattern test as intended: skip the search only when there are no
      patterns at all. */
  predicate Matched(search: (string, string) -> bool, m: seq<(string, Json)>, name: string)
  {
    PatternNames(m) != [] && search(PatternUnion(m), name)
  }

  function AdditionalPropertiesAsWritten(search: (string, string) -> bool,
                                         instance: seq<(string, Json)>, m: seq<(string, Json)>)
    : (r: seq<string>)
    ensures forall k :: k in r <==>
      HasKey(instance, k) && !Listed(m, k) && !MatchedAsWritten(search, m, k)
  {
    Extras(instance, m, k => MatchedAsWritten(search, m, k), |instance|)
  }

  /** The additional properties: the instance's names that `properties`
      does not list and that no pattern of `patternProperties` matches. */
  function AdditionalProperties(search: (string, string) -> bool,
                                instance: seq<(string, Json)>, m: seq<(string, Json)>)
    : (r: seq<string>)
    ensures forall k :: k in r <==>
      HasKey(instance, k) && !Listed(m, k) && !(PatternNames(m) != [] && search(PatternUnion(m), k))
  {
    Extras(instance, m, k => Matched(search, m, k), |instance|)
  }

  /** `find_additional_properties(instance, schema)` as written. */
  method FindAdditionalProperties(search: (string, string) -> bool,
                                  instance: seq<(string, Json)>, m: seq<(string, Json)>)
    returns (extras: seq<string>)
    ensures extras == AdditionalPropertiesAsWritten(search, instance, m)
  {
    extras := CollectExtras(instance, m, k => MatchedAsWritten(search, m, k));
  }

  /** The same generator with the intended pattern test. */
  method FindAdditionalPropertiesCorrected(search: (string, string) -> bool,
                                           instance: seq<(string, Json)>, m: seq<(string, Json)>)
    returns (extras: seq<string>)
    ensures extras == AdditionalProperties(search, instance, m)
  {
    extras := CollectExtras(instance, m, k => Matched(search, m, k));
  }

  /** The two tests differ only when the joined pattern text is empty while
      a pattern exists, that is, for the single pattern `""`. */
  lemma MatchedDiffersOnlyForEmptyPattern(search: (string, string) -> bool, m: seq<(string, Json)>, name: string)
    ensures MatchedAsWritten(search, m, name) != Matched(search, m, name) <==>
      PatternNames(m) == [""] && search("", name)
  {
    var ps := PatternNames(m);
    if |ps| >= 2 {
      assert PatternUnion(m) == ps[0] + "|" + Join("|", ps[1..]);
      assert PatternUnion(m)[|ps[0]|] == '|';
    }
  }

  /** `re.search("", name)` finds the empty pattern in every name, so a
      property matched by `patternProperties: {"": {}}` is not additional;
      as written it is reported as additional all the same. */
  lemma EmptyPatternIsIgnored(search: (string, string) -> bool)
    requires search("", "a")
    ensures var m := [("patternProperties", Obj([("", Obj([]))]))];
            var instance := [("a", Null)];
            AdditionalPropertiesAsWritten(search, instance, m) == ["a"]
            && AdditionalProperties(search, instance, m) == []
  {
    var m := [("patternProperties", Obj([("", Obj([]))]))];
    var instance := [("a", Null)];
    assert HasKey(instance, "a") by { assert instance[0].0 == "a"; }
    assert HasKey(m, "patternProperties") by { assert m[0].0 == "patternProperties"; }
    assert !HasKey(m, "properties") by {
      assert |"properties"| != |"patternProperties"|;
    }
    assert PatternNames(m) == [""];
    assert PatternUnion(m) == "";
    var r := AdditionalPropertiesAsWritten(search, instance, m);
    assert r == Extras(instance, m, k => MatchedAsWritten(search, m, k), 1);
    assert Extras(instance, m, k => MatchedAsWritten(search, m, k), 0) == [];
  }

  // ---------------------------------------------------------------------
  // extras_msg

  /** `extras_msg(extras)`: the extras' texts joined by `", "` and the verb
      that agrees with their number. */
  function ExtrasMsg<T>(repr: T -> string, extras: seq<T>): (r: (string, string))
    ensures r.1 == "was" <==> |extras| == 1
    ensures r.1 == "was" || r.1 == "were"
    ensures |extras| == 1 ==> r.0 == repr(extras[0])
    ensures extras == [] ==> r.0 == ""
  {
    (Join(", ", Reprs(repr, extras)), if |extras| == 1 then "was" else "were")
  }

  // ---------------------------------------------------------------------
  // flatten

  /** What `isinstance` accepts: a type, or a tuple of such things nested
      to any depth. */
  datatype TypeTree<T> = Leaf(t: T) | Tuple(children: seq<TypeTree<T>>)

  /** `t` is one of the types somewhere in the tree. */
  predicate Occurs<T(==)>(t: T, x: TypeTree<T>)
    decreases x
  {
    match x
    case Leaf(u) => u == t
    case Tuple(cs) => exists c :: c in cs && Occurs(t, c)
  }

  /** The types of a tree, collected as `flatten` collects them. */
  function Leaves<T>(x: TypeTree<T>): set<T>
    decreases x
  {
    match x
    case Leaf(u) => {u}
    case Tuple(cs) => LeavesOf(cs, |cs|)
  }

  /** The types of the first `n` trees of `xs`. */
  function LeavesOf<T>(xs: seq<TypeTree<T>>, n: nat): set<T>
    requires n <= |xs|
    decreases xs, n
  {
    if n == 0 then {} else LeavesOf(xs, n - 1) + Leaves(xs[n - 1])
  }

  /** The collected types are exactly the types that occur in the tree. */
  lemma {:induction false} LeavesAreOccurrences<T>(x: TypeTree<T>, t: T)
    ensures t in Leaves(x) <==> Occurs(t, x)
    decreases x, 1
  {
    if x.Tuple? {
      LeavesOfAreOccurrences(x.children, |x.children|, t);
    }
  }

  lemma {:induction false} LeavesOfAreOccurrences<T>(xs: seq<TypeTree<T>>, n: nat, t: T)
    requires n <= |xs|
    ensures t in LeavesOf(xs, n) <==> exists j :: 0 <= j < n && Occurs(t, xs[j])
    decreases xs, 0, n
  {
    if n > 0 {
      LeavesOfAreOccurrences(xs, n - 1, t);
      LeavesAreOccurrences(xs[n - 1], t);
    }
  }

  /** `flatten(x)`: the set of the types anywhere in the tree; the order of
      the tuple Python builds from that set is not modelled. */
  method Flatten<T(==)>(x: TypeTree<T>) returns (types: set<T>)
    ensures types == Leaves(x)
    ensures forall t :: t in types <==> Occurs(t, x)
    decreases x
  {
    var things := if x.Tuple? then x.children else [x];
    types := {};
    var i := 0;
    while i < |things|
      invariant i <= |things|
      invariant types == LeavesOf(things, i)
    {
      var thing := things[i];
      if thing.Tuple? {
        assert thing in x.children;
        var inner := Flatten(thing);
        types := types + inner;
      } else {
        types := types + {thing.t};
      }
      i := i + 1;
    }
    if !x.Tuple? {
      assert LeavesOf(things, 1) == LeavesOf(things, 0) + Leaves(x);
    }
    forall t ensures t in types <==> Occurs(t, x) {
      LeavesAreOccurrences(x, t);
    }
  }

  // ---------------------------------------------------------------------
  // ensure_list

  /** `ensure_list(thing)`: a string is wrapped in a one-element list, and
      anything else is returned as it is. */
  function EnsureList(thing: Json): (r: Json)
    ensures !r.Str?
    ensures thing.Str? ==> r.Arr? && r.items == [thing]
    ensures !thing.Str? ==> r == thing
  {
    if thing.Str? then Arr([thing]) else thing
  }
}
