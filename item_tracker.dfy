/** `find_evaluated_item_indexes_by_schema` (jsonschema/_utils.py): the
    positions of an array instance that a schema has evaluated, which is
    what `unevaluatedItems` (section 11.2 of JSON Schema Core 2020-12) needs
    to know. The result is a list: a position may appear more than once and
    only membership matters.

    `ItemIndexes` and its helpers state the result as functions of the
    resolver's scope stack; `FindEvaluatedItemIndexes` is the procedure, which
    pushes and pops scopes on a `Resolver` as it follows `$ref`, proved to
    return what `ItemIndexes` says and to leave the stack as it found it.
    `$ref` chains need not end, so each `$ref` followed spends one unit of
    `fuel`; running out is `RecursionLimit`, which stands for Python's
    `RecursionError`. */
module ItemTracker {
  import opened Json
  import opened Validator

  /** Positions `k < n` whose item is valid under `sub`, in increasing
      order. */
  function ValidIndexes(v: Validator, scopes: seq<string>, items: seq<Json>, sub: Json, n: nat): (r: seq<nat>)
    requires n <= |items|
    ensures forall k: int :: k in r <==> 0 <= k < n && v.isValid(scopes, items[k], sub)
    ensures forall i, j :: 0 <= i < j < |r| ==> r[i] < r[j]
  {
    if n == 0 then []
    else
      var init := ValidIndexes(v, scopes, items, sub, n - 1);
      assert forall i :: 0 <= i < |init| ==> init[i] in init;
      init + (if v.isValid(scopes, items[n - 1], sub) then [n - 1] else [])
  }

  /** `contains` / `unevaluatedItems`: every position whose item is valid
      under the keyword's value. */
  function KeywordIndexes(v: Validator, scopes: seq<string>, items: seq<Json>, m: seq<(string, Json)>, keyword: string)
    : (r: seq<nat>)
    ensures forall k: int :: k in r <==>
      HasKey(m, keyword) && 0 <= k < |items| && v.isValid(scopes, items[k], Get(m, keyword))
  {
    if HasKey(m, keyword) then ValidIndexes(v, scopes, items, Get(m, keyword), |items|) else []
  }

  /** `prefixItems`: when the instance is valid under `{"prefixItems": ...}`,
      one position per prefix schema, whether or not the instance is that
      long. */
  function PrefixIndexes(v: Validator, scopes: seq<string>, items: seq<Json>, m: seq<(string, Json)>): (r: seq<nat>)
    ensures forall k: int :: k in r <==>
      HasKey(m, "prefixItems")
      && v.isValid(scopes, Arr(items), Obj([("prefixItems", Get(m, "prefixItems"))]))
      && 0 <= k < |Elements(Get(m, "prefixItems"))|
  {
    if HasKey(m, "prefixItems")
       && v.isValid(scopes, Arr(items), Obj([("prefixItems", Get(m, "prefixItems"))]))
    then Range(|Elements(Get(m, "prefixItems"))|)
    else []
  }

  /** The tracker's result for `schema` when the resolver's stack is
      `scopes`. */
  function ItemIndexes(v: Validator, resolve: Option<Resolve>, items: seq<Json>, schema: Json,
                       scopes: seq<string>, fuel: nat): (r: Result<seq<nat>>)
    requires ObjectsAreDicts(v)
    ensures !v.isType(schema, "object") ==> r == Ok([])
    ensures v.isType(schema, "object") && HasKey(schema.members, "items") ==> r == Ok(Range(|items|))
    decreases fuel, schema, 3, 0
  {
    if !v.isType(schema, "object") then Ok([])
    else if HasKey(schema.members, "items") then Ok(Range(|items|))
    else ObjectIndexes(v, resolve, items, schema, scopes, fuel)
  }

  /** The keywords after `items`, in the order the tracker visits them. On
      success every position that `prefixItems`, `contains` or
      `unevaluatedItems` reports is in the result. */
  function ObjectIndexes(v: Validator, resolve: Option<Resolve>, items: seq<Json>, schema: Json,
                         scopes: seq<string>, fuel: nat): (r: Result<seq<nat>>)
    requires ObjectsAreDicts(v) && schema.Obj?
    ensures r.Ok? ==> forall k ::
      k in PrefixIndexes(v, scopes, items, schema.members)
      || k in KeywordIndexes(v, scopes, items, schema.members, "contains")
      || k in KeywordIndexes(v, scopes, items, schema.members, "unevaluatedItems")
      ==> k in r.value
    decreases fuel, schema, 2, 0
  {
    var m := schema.members;
    var fromRef :- RefIndexes(v, resolve, items, schema, scopes, fuel);
    var fromIf :- IfIndexes(v, resolve, items, schema, scopes, fuel);
    var fromApplicators :- ApplicatorsIndexes(v, resolve, items, schema, scopes, fuel);
    Ok(fromRef + PrefixIndexes(v, scopes, items, m) + fromIf
       + KeywordIndexes(v, scopes, items, m, "contains")
       + KeywordIndexes(v, scopes, items, m, "unevaluatedItems")
       + fromApplicators)
  }

  /** `allOf`, then `oneOf`, then `anyOf`: a position is reported when one
      of the three reports it, and tracking fails when one of them fails. */
  function ApplicatorsIndexes(v: Validator, resolve: Option<Resolve>, items: seq<Json>, schema: Json,
                              scopes: seq<string>, fuel: nat): (r: Result<seq<nat>>)
    requires ObjectsAreDicts(v) && schema.Obj?
    ensures var m := schema.members;
            var all := ApplicatorIndexes(v, resolve, items, schema, "allOf", scopes, fuel, |Subschemas(m, "allOf")|);
            var one := ApplicatorIndexes(v, resolve, items, schema, "oneOf", scopes, fuel, |Subschemas(m, "oneOf")|);
            var any := ApplicatorIndexes(v, resolve, items, schema, "anyOf", scopes, fuel, |Subschemas(m, "anyOf")|);
            (r.Ok? <==> all.Ok? && one.Ok? && any.Ok?)
            && (r.Ok? ==> forall k :: k in r.value <==> k in all.value || k in one.value || k in any.value)
    decreases fuel, schema, 1, 0
  {
    var m := schema.members;
    var fromAllOf :- ApplicatorIndexes(v, resolve, items, schema, "allOf", scopes, fuel, |Subschemas(m, "allOf")|);
    var fromOneOf :- ApplicatorIndexes(v, resolve, items, schema, "oneOf", scopes, fuel, |Subschemas(m, "oneOf")|);
    var fromAnyOf :- ApplicatorIndexes(v, resolve, items, schema, "anyOf", scopes, fuel, |Subschemas(m, "anyOf")|);
    Ok(fromAllOf + fromOneOf + fromAnyOf)
  }

  /** `$ref`: resolve from the current stack, then track the resolved schema
      with its scope pushed. */
  function RefIndexes(v: Validator, resolve: Option<Resolve>, items: seq<Json>, schema: Json,
                      scopes: seq<string>, fuel: nat): (r: Result<seq<nat>>)
    requires ObjectsAreDicts(v) && schema.Obj?
    ensures !HasKey(schema.members, "$ref") || resolve.None? ==> r == Ok([])
    ensures HasKey(schema.members, "$ref") && resolve.Some?
            && resolve.value(scopes, Get(schema.members, "$ref")).None?
            ==> r == Err(RefResolutionError(Get(schema.members, "$ref")))
    ensures fuel == 0 && r.Ok? ==> r.value == []
    decreases fuel, schema, 1, 0
  {
    var m := schema.members;
    if !HasKey(m, "$ref") || resolve.None? then Ok([])
    else
      var ref := Get(m, "$ref");
      match resolve.value(scopes, ref)
      case None => Err(RefResolutionError(ref))
      case Some(found) =>
        if fuel == 0 then Err(RecursionLimit)
        else ItemIndexes(v, resolve, items, found.1, scopes + [found.0], fuel - 1)
  }

  /** `if` / `then` / `else`: `if` and `then` are tracked when the instance
      is valid under `if`, `else` when it is not. */
  function IfIndexes(v: Validator, resolve: Option<Resolve>, items: seq<Json>, schema: Json,
                     scopes: seq<string>, fuel: nat): (r: Result<seq<nat>>)
    requires ObjectsAreDicts(v) && schema.Obj?
    ensures !HasKey(schema.members, "if") ==> r == Ok([])
    ensures (HasKey(schema.members, "if") && !v.isValid(scopes, Arr(items), Get(schema.members, "if"))
             && !HasKey(schema.members, "else")) ==> r == Ok([])
    decreases fuel, schema, 1, 0
  {
    var m := schema.members;
    if !HasKey(m, "if") then Ok([])
    else if v.isValid(scopes, Arr(items), Get(m, "if")) then
      GetBelow(m, "if");
      var fromIf :- ItemIndexes(v, resolve, items, Get(m, "if"), scopes, fuel);
      if HasKey(m, "then") then
        GetBelow(m, "then");
        var fromThen :- ItemIndexes(v, resolve, items, Get(m, "then"), scopes, fuel);
        Ok(fromIf + fromThen)
      else Ok(fromIf)
    else if HasKey(m, "else") then
      GetBelow(m, "else");
      ItemIndexes(v, resolve, items, Get(m, "else"), scopes, fuel)
    else Ok([])
  }

  /** `allOf` / `oneOf` / `anyOf`, over the first `n` subschemas: each one
      under which `descend` reports no error is tracked in turn. */
  function ApplicatorIndexes(v: Validator, resolve: Option<Resolve>, items: seq<Json>, schema: Json,
                             keyword: string, scopes: seq<string>, fuel: nat, n: nat): (r: Result<seq<nat>>)
    requires ObjectsAreDicts(v) && schema.Obj?
    requires n <= |Subschemas(schema.members, keyword)|
    ensures (forall j :: 0 <= j < n ==> v.descend(scopes, Arr(items), Subschemas(schema.members, keyword)[j]) != [])
            ==> r == Ok([])
    decreases fuel, schema, 0, n
  {
    if n == 0 then Ok([])
    else
      var acc :- ApplicatorIndexes(v, resolve, items, schema, keyword, scopes, fuel, n - 1);
      var sub := Subschemas(schema.members, keyword)[n - 1];
      if v.descend(scopes, Arr(items), sub) == [] then
        ElementsBelow(schema.members, keyword);
        assert sub in Elements(Get(schema.members, keyword));
        var more :- ItemIndexes(v, resolve, items, sub, scopes, fuel);
        Ok(acc + more)
      else Ok(acc)
  }

  // ---------------------------------------------------------------------
  // The procedure

  method FindEvaluatedItemIndexes(v: Validator, resolver: Resolver, items: seq<Json>, schema: Json, fuel: nat)
    returns (r: Result<seq<nat>>)
    requires ObjectsAreDicts(v)
    modifies resolver
    ensures r == ItemIndexes(v, resolver.resolve, items, schema, old(resolver.scopes), fuel)
    ensures resolver.scopes == old(resolver.scopes)
    ensures Extends(old(resolver.events), resolver.events)
    ensures v.isType(schema, "object") && HasKey(schema.members, "items") ==> resolver.events == old(resolver.events)
    decreases fuel, schema, 3, 0
  {
    ExtendsReflexive(resolver.events);
    if !v.isType(schema, "object") {
      return Ok([]);
    }
    if HasKey(schema.members, "items") {
      return Ok(Range(|items|));
    }
    r := ObjectStep(v, resolver, items, schema, fuel);
  }

  method ObjectStep(v: Validator, resolver: Resolver, items: seq<Json>, schema: Json, fuel: nat)
    returns (r: Result<seq<nat>>)
    requires ObjectsAreDicts(v) && schema.Obj?
    modifies resolver
    ensures r == ObjectIndexes(v, resolver.resolve, items, schema, old(resolver.scopes), fuel)
    ensures resolver.scopes == old(resolver.scopes)
    ensures Extends(old(resolver.events), resolver.events)
    decreases fuel, schema, 2, 0
  {
    var m := schema.members;
    ghost var e0, scopes := resolver.events, resolver.scopes;
    var acc: seq<nat> := [];

    var fromRef := RefStep(v, resolver, items, schema, fuel);
    assert fromRef == RefIndexes(v, resolver.resolve, items, schema, scopes, fuel);
    if fromRef.Err? {
      return Err(fromRef.error);
    }
    acc := acc + fromRef.value;

    var fromPrefix := PrefixIndexes(v, resolver.scopes, items, m);
    acc := acc + fromPrefix;
    assert acc == fromRef.value + fromPrefix;

    ghost var e1 := resolver.events;
    var fromIf := IfStep(v, resolver, items, schema, fuel);
    ExtendsTransitive(e0, e1, resolver.events);
    assert fromIf == IfIndexes(v, resolver.resolve, items, schema, scopes, fuel);
    if fromIf.Err? {
      return Err(fromIf.error);
    }
    acc := acc + fromIf.value;
    assert acc == fromRef.value + fromPrefix + fromIf.value;

    var fromContains: seq<nat> := [];
    if HasKey(m, "contains") {
      fromContains := CollectValid(v, resolver.scopes, items, Get(m, "contains"));
    }
    acc := acc + fromContains;
    var fromUnevaluated: seq<nat> := [];
    if HasKey(m, "unevaluatedItems") {
      fromUnevaluated := CollectValid(v, resolver.scopes, items, Get(m, "unevaluatedItems"));
    }
    acc := acc + fromUnevaluated;
    assert fromContains == KeywordIndexes(v, scopes, items, m, "contains");
    assert fromUnevaluated == KeywordIndexes(v, scopes, items, m, "unevaluatedItems");

    ghost var e2 := resolver.events;
    var fromApplicators := ApplicatorsStep(v, resolver, items, schema, fuel);
    ExtendsTransitive(e0, e2, resolver.events);
    assert fromApplicators == ApplicatorsIndexes(v, resolver.resolve, items, schema, scopes, fuel);
    if fromApplicators.Err? {
      return Err(fromApplicators.error);
    }
    acc := acc + fromApplicators.value;
    assert acc == fromRef.value + fromPrefix + fromIf.value + fromContains + fromUnevaluated + fromApplicators.value;
    assert fromPrefix == PrefixIndexes(v, scopes, items, m);
    assert ObjectIndexes(v, resolver.resolve, items, schema, scopes, fuel) == Ok(acc);
    return Ok(acc);
  }

  method ApplicatorsStep(v: Validator, resolver: Resolver, items: seq<Json>, schema: Json, fuel: nat)
    returns (r: Result<seq<nat>>)
    requires ObjectsAreDicts(v) && schema.Obj?
    modifies resolver
    ensures r == ApplicatorsIndexes(v, resolver.resolve, items, schema, old(resolver.scopes), fuel)
    ensures resolver.scopes == old(resolver.scopes)
    ensures Extends(old(resolver.events), resolver.events)
    decreases fuel, schema, 1, 0
  {
    var fromAllOf := ApplicatorStep(v, resolver, items, schema, "allOf", fuel);
    if fromAllOf.Err? {
      return fromAllOf;
    }
    ghost var e1 := resolver.events;
    var fromOneOf := ApplicatorStep(v, resolver, items, schema, "oneOf", fuel);
    ExtendsTransitive(old(resolver.events), e1, resolver.events);
    if fromOneOf.Err? {
      return fromOneOf;
    }
    ghost var e2 := resolver.events;
    var fromAnyOf := ApplicatorStep(v, resolver, items, schema, "anyOf", fuel);
    ExtendsTransitive(old(resolver.events), e2, resolver.events);
    if fromAnyOf.Err? {
      return fromAnyOf;
    }
    return Ok(fromAllOf.value + fromOneOf.value + fromAnyOf.value);
  }

  /** `$ref`: push the resolved scope, track, and pop again whether or not
      the tracking failed. */
  method RefStep(v: Validator, resolver: Resolver, items: seq<Json>, schema: Json, fuel: nat)
    returns (r: Result<seq<nat>>)
    requires ObjectsAreDicts(v) && schema.Obj?
    modifies resolver
    ensures r == RefIndexes(v, resolver.resolve, items, schema, old(resolver.scopes), fuel)
    ensures resolver.scopes == old(resolver.scopes)
    ensures Extends(old(resolver.events), resolver.events)
    decreases fuel, schema, 1, 0
  {
    ExtendsReflexive(resolver.events);
    var m := schema.members;
    if !HasKey(m, "$ref") || resolver.resolve.None? {
      return Ok([]);
    }
    var ref := Get(m, "$ref");
    var found := resolver.resolve.value(resolver.scopes, ref);
    if found.None? {
      return Err(RefResolutionError(ref));
    }
    if fuel == 0 {
      return Err(RecursionLimit);
    }
    var (scope, resolved) := found.value;
    ghost var before := resolver.events;
    resolver.PushScope(scope);
    r := FindEvaluatedItemIndexes(v, resolver, items, resolved, fuel - 1);
    ghost var inner := resolver.events;
    var popped := resolver.PopScope();
    ExtendsWrap(before, scope, inner);
  }

  method IfStep(v: Validator, resolver: Resolver, items: seq<Json>, schema: Json, fuel: nat)
    returns (r: Result<seq<nat>>)
    requires ObjectsAreDicts(v) && schema.Obj?
    modifies resolver
    ensures r == IfIndexes(v, resolver.resolve, items, schema, old(resolver.scopes), fuel)
    ensures resolver.scopes == old(resolver.scopes)
    ensures Extends(old(resolver.events), resolver.events)
    decreases fuel, schema, 1, 0
  {
    ExtendsReflexive(resolver.events);
    var m := schema.members;
    if !HasKey(m, "if") {
      return Ok([]);
    }
    if v.isValid(resolver.scopes, Arr(items), Get(m, "if")) {
      GetBelow(m, "if");
      var fromIf := FindEvaluatedItemIndexes(v, resolver, items, Get(m, "if"), fuel);
      if fromIf.Err? || !HasKey(m, "then") {
        return fromIf;
      }
      GetBelow(m, "then");
      ghost var mid := resolver.events;
      var fromThen := FindEvaluatedItemIndexes(v, resolver, items, Get(m, "then"), fuel);
      ExtendsTransitive(old(resolver.events), mid, resolver.events);
      if fromThen.Err? {
        return fromThen;
      }
      return Ok(fromIf.value + fromThen.value);
    } else if HasKey(m, "else") {
      GetBelow(m, "else");
      r := FindEvaluatedItemIndexes(v, resolver, items, Get(m, "else"), fuel);
    } else {
      return Ok([]);
    }
  }

  method ApplicatorStep(v: Validator, resolver: Resolver, items: seq<Json>, schema: Json, keyword: string, fuel: nat)
    returns (r: Result<seq<nat>>)
    requires ObjectsAreDicts(v) && schema.Obj?
    modifies resolver
    ensures r == ApplicatorIndexes(v, resolver.resolve, items, schema, keyword, old(resolver.scopes), fuel,
                                   |Subschemas(schema.members, keyword)|)
    ensures resolver.scopes == old(resolver.scopes)
    ensures Extends(old(resolver.events), resolver.events)
    decreases fuel, schema, 0, 0
  {
    ExtendsReflexive(resolver.events);
    var subs := Subschemas(schema.members, keyword);
    if HasKey(schema.members, keyword) {
      ElementsBelow(schema.members, keyword);
    }
    var acc: seq<nat> := [];
    var i := 0;
    while i < |subs|
      invariant i <= |subs|
      invariant resolver.scopes == old(resolver.scopes)
      invariant Extends(old(resolver.events), resolver.events)
      invariant ApplicatorIndexes(v, resolver.resolve, items, schema, keyword, old(resolver.scopes), fuel, i) == Ok(acc)
    {
      var sub := subs[i];
      if v.descend(resolver.scopes, Arr(items), sub) == [] {
        assert sub in subs;
        ghost var mid := resolver.events;
        var more := FindEvaluatedItemIndexes(v, resolver, items, sub, fuel);
        ExtendsTransitive(old(resolver.events), mid, resolver.events);
        if more.Err? {
          ApplicatorErrorPersists(v, resolver.resolve, items, schema, keyword, old(resolver.scopes), fuel, i + 1, |subs|);
          return Err(more.error);
        }
        acc := acc + more.value;
      }
      i := i + 1;
    }
    return Ok(acc);
  }

  /** The loop over the instance's positions that keeps every position
      whose item is valid under `sub`. */
  method CollectValid(v: Validator, scopes: seq<string>, items: seq<Json>, sub: Json) returns (ks: seq<nat>)
    ensures ks == ValidIndexes(v, scopes, items, sub, |items|)
  {
    ks := [];
    var k := 0;
    while k < |items|
      invariant k <= |items|
      invariant ks == ValidIndexes(v, scopes, items, sub, k)
    {
      if v.isValid(scopes, items[k], sub) {
        ks := ks + [k];
      }
      k := k + 1;
    }
  }

  // ---------------------------------------------------------------------
  // Properties

  /** An error while tracking one applicator subschema is the error of the
      whole keyword. */
  lemma {:induction false} ApplicatorErrorPersists(v: Validator, resolve: Option<Resolve>, items: seq<Json>, schema: Json,
                                                   keyword: string, scopes: seq<string>, fuel: nat, n: nat, n': nat)
    requires ObjectsAreDicts(v) && schema.Obj?
    requires n <= n' <= |Subschemas(schema.members, keyword)|
    requires ApplicatorIndexes(v, resolve, items, schema, keyword, scopes, fuel, n).Err?
    ensures ApplicatorIndexes(v, resolve, items, schema, keyword, scopes, fuel, n')
         == ApplicatorIndexes(v, resolve, items, schema, keyword, scopes, fuel, n)
    decreases n'
  {
    if n < n' {
      ApplicatorErrorPersists(v, resolve, items, schema, keyword, scopes, fuel, n, n' - 1);
    }
  }

  /** Position `k` comes from the `j`-th subschema of `keyword`: that
      subschema raised no error and tracking it reported `k`. */
  predicate ContributedBy(v: Validator, resolve: Option<Resolve>, items: seq<Json>, schema: Json,
                          keyword: string, scopes: seq<string>, fuel: nat, j: nat, k: nat)
    requires ObjectsAreDicts(v) && schema.Obj? && j < |Subschemas(schema.members, keyword)|
  {
    var sub := Subschemas(schema.members, keyword)[j];
    && v.descend(scopes, Arr(items), sub) == []
    && var tracked := ItemIndexes(v, resolve, items, sub, scopes, fuel);
       tracked.Ok? && k in tracked.value
  }

  /** An applicator keyword reports exactly the positions that its
      error-free subschemas report, and is tracked into no other
      subschema. */
  lemma {:induction false} ApplicatorIndexesMembers(v: Validator, resolve: Option<Resolve>, items: seq<Json>, schema: Json,
                                                    keyword: string, scopes: seq<string>, fuel: nat, n: nat, k: nat)
    requires ObjectsAreDicts(v) && schema.Obj?
    requires n <= |Subschemas(schema.members, keyword)|
    requires ApplicatorIndexes(v, resolve, items, schema, keyword, scopes, fuel, n).Ok?
    ensures k in ApplicatorIndexes(v, resolve, items, schema, keyword, scopes, fuel, n).value
            <==> exists j :: 0 <= j < n && ContributedBy(v, resolve, items, schema, keyword, scopes, fuel, j, k)
    ensures forall j :: 0 <= j < n && v.descend(scopes, Arr(items), Subschemas(schema.members, keyword)[j]) == [] ==>
              ItemIndexes(v, resolve, items, Subschemas(schema.members, keyword)[j], scopes, fuel).Ok?
    decreases n
  {
    if n > 0 {
      ApplicatorIndexesMembers(v, resolve, items, schema, keyword, scopes, fuel, n - 1, k);
      var r := ApplicatorIndexes(v, resolve, items, schema, keyword, scopes, fuel, n);
      if k in r.value && !ContributedBy(v, resolve, items, schema, keyword, scopes, fuel, n - 1, k) {
        assert k in ApplicatorIndexes(v, resolve, items, schema, keyword, scopes, fuel, n - 1).value;
      }
    }
  }

  /** The schema under `keyword` is present and tracking it succeeds with
      position `k` among the results. */
  predicate TracksIndex(v: Validator, resolve: Option<Resolve>, items: seq<Json>, m: seq<(string, Json)>,
                        keyword: string, scopes: seq<string>, fuel: nat, k: nat)
    requires ObjectsAreDicts(v)
  {
    && HasKey(m, keyword)
    && var tracked := ItemIndexes(v, resolve, items, Get(m, keyword), scopes, fuel);
       tracked.Ok? && k in tracked.value
  }

  /** When `if` is present, positions come from `if` and `then` when the
      instance is valid under `if`, and from `else` otherwise. */
  lemma IfIndexesBranches(v: Validator, resolve: Option<Resolve>, items: seq<Json>, schema: Json,
                          scopes: seq<string>, fuel: nat, k: nat)
    requires ObjectsAreDicts(v) && schema.Obj?
    requires HasKey(schema.members, "if")
    requires IfIndexes(v, resolve, items, schema, scopes, fuel).Ok?
    ensures var m := schema.members;
            var valid := v.isValid(scopes, Arr(items), Get(m, "if"));
            k in IfIndexes(v, resolve, items, schema, scopes, fuel).value <==>
              if valid then
                TracksIndex(v, resolve, items, m, "if", scopes, fuel, k)
                || TracksIndex(v, resolve, items, m, "then", scopes, fuel, k)
              else TracksIndex(v, resolve, items, m, "else", scopes, fuel, k)
  {
    var m := schema.members;
    GetBelow(m, "if");
    if HasKey(m, "then") {
      GetBelow(m, "then");
    }
    if HasKey(m, "else") {
      GetBelow(m, "else");
    }
  }

  /** Once a call ends in anything but `RecursionLimit`, more fuel changes
      nothing: the fuel bound only cuts off `$ref` chains. */
  lemma {:induction false} ItemIndexesFuel(v: Validator, resolve: Option<Resolve>, items: seq<Json>, schema: Json,
                                           scopes: seq<string>, fuel: nat)
    requires ObjectsAreDicts(v)
    requires ItemIndexes(v, resolve, items, schema, scopes, fuel) != Err(RecursionLimit)
    ensures ItemIndexes(v, resolve, items, schema, scopes, fuel + 1) == ItemIndexes(v, resolve, items, schema, scopes, fuel)
    decreases fuel, schema, 3, 0
  {
    if v.isType(schema, "object") && !HasKey(schema.members, "items") {
      ObjectIndexesFuel(v, resolve, items, schema, scopes, fuel);
    }
  }

  lemma {:induction false} ObjectIndexesFuel(v: Validator, resolve: Option<Resolve>, items: seq<Json>, schema: Json,
                                             scopes: seq<string>, fuel: nat)
    requires ObjectsAreDicts(v) && schema.Obj?
    requires ObjectIndexes(v, resolve, items, schema, scopes, fuel) != Err(RecursionLimit)
    ensures ObjectIndexes(v, resolve, items, schema, scopes, fuel + 1) == ObjectIndexes(v, resolve, items, schema, scopes, fuel)
    decreases fuel, schema, 2, 0
  {
    RefIndexesFuel(v, resolve, items, schema, scopes, fuel);
    if RefIndexes(v, resolve, items, schema, scopes, fuel).Ok? {
      IfIndexesFuel(v, resolve, items, schema, scopes, fuel);
      if IfIndexes(v, resolve, items, schema, scopes, fuel).Ok? {
        ApplicatorsIndexesFuel(v, resolve, items, schema, scopes, fuel);
      }
    }
  }

  lemma {:induction false} RefIndexesFuel(v: Validator, resolve: Option<Resolve>, items: seq<Json>, schema: Json,
                                          scopes: seq<string>, fuel: nat)
    requires ObjectsAreDicts(v) && schema.Obj?
    requires RefIndexes(v, resolve, items, schema, scopes, fuel) != Err(RecursionLimit)
    ensures RefIndexes(v, resolve, items, schema, scopes, fuel + 1) == RefIndexes(v, resolve, items, schema, scopes, fuel)
    decreases fuel, schema, 1, 0
  {
    var m := schema.members;
    if HasKey(m, "$ref") && resolve.Some? {
      var found := resolve.value(scopes, Get(m, "$ref"));
      if found.Some? {
        ItemIndexesFuel(v, resolve, items, found.value.1, scopes + [found.value.0], fuel - 1);
      }
    }
  }

  lemma {:induction false} IfIndexesFuel(v: Validator, resolve: Option<Resolve>, items: seq<Json>, schema: Json,
                                         scopes: seq<string>, fuel: nat)
    requires ObjectsAreDicts(v) && schema.Obj?
    requires IfIndexes(v, resolve, items, schema, scopes, fuel) != Err(RecursionLimit)
    ensures IfIndexes(v, resolve, items, schema, scopes, fuel + 1) == IfIndexes(v, resolve, items, schema, scopes, fuel)
    decreases fuel, schema, 1, 0
  {
    var m := schema.members;
    if HasKey(m, "if") {
      if v.isValid(scopes, Arr(items), Get(m, "if")) {
        GetBelow(m, "if");
        ItemIndexesFuel(v, resolve, items, Get(m, "if"), scopes, fuel);
        if ItemIndexes(v, resolve, items, Get(m, "if"), scopes, fuel).Ok? && HasKey(m, "then") {
          GetBelow(m, "then");
          ItemIndexesFuel(v, resolve, items, Get(m, "then"), scopes, fuel);
        }
      } else if HasKey(m, "else") {
        GetBelow(m, "else");
        ItemIndexesFuel(v, resolve, items, Get(m, "else"), scopes, fuel);
      }
    }
  }

  lemma {:induction false} ApplicatorsIndexesFuel(v: Validator, resolve: Option<Resolve>, items: seq<Json>, schema: Json,
                                                  scopes: seq<string>, fuel: nat)
    requires ObjectsAreDicts(v) && schema.Obj?
    requires ApplicatorsIndexes(v, resolve, items, schema, scopes, fuel) != Err(RecursionLimit)
    ensures ApplicatorsIndexes(v, resolve, items, schema, scopes, fuel + 1)
         == ApplicatorsIndexes(v, resolve, items, schema, scopes, fuel)
    decreases fuel, schema, 1, 0
  {
    var m := schema.members;
    ApplicatorIndexesFuel(v, resolve, items, schema, "allOf", scopes, fuel, |Subschemas(m, "allOf")|);
    if ApplicatorIndexes(v, resolve, items, schema, "allOf", scopes, fuel, |Subschemas(m, "allOf")|).Ok? {
      ApplicatorIndexesFuel(v, resolve, items, schema, "oneOf", scopes, fuel, |Subschemas(m, "oneOf")|);
      if ApplicatorIndexes(v, resolve, items, schema, "oneOf", scopes, fuel, |Subschemas(m, "oneOf")|).Ok? {
        ApplicatorIndexesFuel(v, resolve, items, schema, "anyOf", scopes, fuel, |Subschemas(m, "anyOf")|);
      }
    }
  }

  lemma {:induction false} ApplicatorIndexesFuel(v: Validator, resolve: Option<Resolve>, items: seq<Json>, schema: Json,
                                                 keyword: string, scopes: seq<string>, fuel: nat, n: nat)
    requires ObjectsAreDicts(v) && schema.Obj?
    requires n <= |Subschemas(schema.members, keyword)|
    requires ApplicatorIndexes(v, resolve, items, schema, keyword, scopes, fuel, n) != Err(RecursionLimit)
    ensures ApplicatorIndexes(v, resolve, items, schema, keyword, scopes, fuel + 1, n)
         == ApplicatorIndexes(v, resolve, items, schema, keyword, scopes, fuel, n)
    decreases fuel, schema, 0, n
  {
    if n > 0 {
      ApplicatorIndexesFuel(v, resolve, items, schema, keyword, scopes, fuel, n - 1);
      var sub := Subschemas(schema.members, keyword)[n - 1];
      if ApplicatorIndexes(v, resolve, items, schema, keyword, scopes, fuel, n - 1).Ok?
         && v.descend(scopes, Arr(items), sub) == [] {
        ElementsBelow(schema.members, keyword);
        assert sub in Elements(Get(schema.members, keyword));
        ItemIndexesFuel(v, resolve, items, sub, scopes, fuel);
      }
    }
  }

  /** A schema whose only keyword is `prefixItems` reports one position per
      prefix schema when the instance is valid under it, and none
      otherwise. */
  lemma PrefixItemsOnly(v: Validator, resolve: Option<Resolve>, items: seq<Json>, prefix: Json,
                        scopes: seq<string>, fuel: nat)
    requires ObjectsAreDicts(v) && v.isType(Obj([("prefixItems", prefix)]), "object")
    ensures ItemIndexes(v, resolve, items, Obj([("prefixItems", prefix)]), scopes, fuel)
         == Ok(if v.isValid(scopes, Arr(items), Obj([("prefixItems", prefix)])) then Range(|Elements(prefix)|) else [])
  {
    var m := [("prefixItems", prefix)];
    var schema := Obj(m);
    assert m[0].0 == "prefixItems";
    assert Get(m, "prefixItems") == prefix;
    forall k | k in ["items", "$ref", "if", "contains", "unevaluatedItems", "allOf", "oneOf", "anyOf"]
      ensures !HasKey(m, k)
    {
      assert |k| != |"prefixItems"|;
    }
    var a := ApplicatorIndexes(v, resolve, items, schema, "allOf", scopes, fuel, |Subschemas(m, "allOf")|);
    var b := ApplicatorIndexes(v, resolve, items, schema, "oneOf", scopes, fuel, |Subschemas(m, "oneOf")|);
    var c := ApplicatorIndexes(v, resolve, items, schema, "anyOf", scopes, fuel, |Subschemas(m, "anyOf")|);
    assert a == Ok([]) && b == Ok([]) && c == Ok([]);
    var d := ApplicatorsIndexes(v, resolve, items, schema, scopes, fuel);
    assert d.Ok? && d.value == a.value + b.value + c.value;
    assert RefIndexes(v, resolve, items, schema, scopes, fuel) == Ok([]);
    assert IfIndexes(v, resolve, items, schema, scopes, fuel) == Ok([]);
    assert KeywordIndexes(v, scopes, items, m, "contains") == [];
    assert KeywordIndexes(v, scopes, items, m, "unevaluatedItems") == [];
    var o := ObjectIndexes(v, resolve, items, schema, scopes, fuel);
    assert o == Ok([] + PrefixIndexes(v, scopes, items, m) + [] + [] + [] + d.value);
    assert ItemIndexes(v, resolve, items, schema, scopes, fuel) == o;
    assert d.value == [];
    var p := PrefixIndexes(v, scopes, items, m);
    assert [] + p + [] + [] + [] + d.value == p;
    assert PrefixIndexes(v, scopes, items, m)
        == if v.isValid(scopes, Arr(items), Obj([("prefixItems", prefix)])) then Range(|Elements(prefix)|) else [];
  }

  /** `prefixItems` reports positions whether or not the instance has them:
      under `{"prefixItems": [{}]}` an empty array that the validator accepts
      is reported as having position 0 evaluated. */
  lemma PrefixItemsPastTheEnd(v: Validator, resolve: Option<Resolve>, scopes: seq<string>, fuel: nat)
    requires ObjectsAreDicts(v)
    requires v.isType(Obj([("prefixItems", Arr([Obj([])]))]), "object")
    requires v.isValid(scopes, Arr([]), Obj([("prefixItems", Arr([Obj([])]))]))
    ensures ItemIndexes(v, resolve, [], Obj([("prefixItems", Arr([Obj([])]))]), scopes, fuel) == Ok([0])
  {
    PrefixItemsOnly(v, resolve, [], Arr([Obj([])]), scopes, fuel);
    assert Range(|Elements(Arr([Obj([])]))|) == [0];
  }
}
