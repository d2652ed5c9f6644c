/** `find_evaluated_property_keys_by_schema` (jsonschema/_utils.py): the
    names of an object instance's properties that a schema has evaluated,
    which is what `unevaluatedProperties` (section 11.3 of JSON Schema Core
    2020-12) needs to know. The instance is given by its members; the result
    is a list in which a name may appear more than once.

    As for the item tracker, `PropertyKeys` and its helpers state the result
    as functions of the resolver's scope stack, `FindEvaluatedPropertyKeys`
    is the procedure that pushes and pops scopes on a `Resolver`, and each
    `$ref` followed spends one unit of `fuel`. `search(pattern, name)`
    stands for `re.search`. */
module PropertyTracker {
  import opened Json
  import opened Validator

  /** Boolean-schema branch: instance members `i < n` whose one-member
      object `{name: value}` is valid under `sub`, by name. */
  function ValidMemberKeys(v: Validator, scopes: seq<string>, instance: seq<(string, Json)>, sub: Json, n: nat)
    : (r: seq<string>)
    requires n <= |instance|
    ensures forall i :: 0 <= i < n && v.isValid(scopes, Obj([instance[i]]), sub) ==> instance[i].0 in r
    ensures forall k :: k in r ==>
      exists i :: 0 <= i < n && instance[i].0 == k && v.isValid(scopes, Obj([instance[i]]), sub)
  {
    if n == 0 then []
    else
      var init := ValidMemberKeys(v, scopes, instance, sub, n - 1);
      init + (if v.isValid(scopes, Obj([instance[n - 1]]), sub) then [instance[n - 1].0] else [])
  }

  /** Object branch: the names among the first `n` entries of `props` that
      the instance has and whose instance value is valid under the entry's
      subschema. */
  function ListedKeys(v: Validator, scopes: seq<string>, instance: seq<(string, Json)>,
                      props: seq<(string, Json)>, n: nat): (r: seq<string>)
    requires n <= |props|
    ensures forall k :: k in r <==>
      exists i :: 0 <= i < n && props[i].0 == k && HasKey(instance, k) && v.isValid(scopes, Get(instance, k), props[i].1)
  {
    if n == 0 then []
    else
      var init := ListedKeys(v, scopes, instance, props, n - 1);
      var (name, sub) := props[n - 1];
      init + (if HasKey(instance, name) && v.isValid(scopes, Get(instance, name), sub) then [name] else [])
  }

  /** `properties` / `additionalProperties` / `unevaluatedProperties`: the
      boolean branch and then the object branch, each taken when `is_type`
      says so. */
  function PropertiesKeys(v: Validator, scopes: seq<string>, instance: seq<(string, Json)>,
                          m: seq<(string, Json)>, keyword: string): (r: seq<string>)
    requires ObjectsAreDicts(v)
    ensures forall k :: k in r ==> HasKey(instance, k)
  {
    if !HasKey(m, keyword) then []
    else
      var value := Get(m, keyword);
      (if v.isType(value, "boolean") then ValidMemberKeys(v, scopes, instance, value, |instance|) else [])
      + (if v.isType(value, "object") then ListedKeys(v, scopes, instance, value.members, |value.members|) else [])
  }

  /** One instance member against the first `j` patterns: its name once for
      every pattern that `search` finds in it, provided the one-member
      object is valid under the whole `patternProperties` value `pp`. */
  function PatternHits(v: Validator, search: (string, string) -> bool, scopes: seq<string>,
                       member: (string, Json), pp: Json, patterns: seq<(string, Json)>, j: nat): (r: seq<string>)
    requires j <= |patterns|
    ensures forall k :: k in r <==>
      k == member.0 && v.isValid(scopes, Obj([member]), pp) && exists i :: 0 <= i < j && search(patterns[i].0, k)
  {
    if j == 0 then []
    else
      PatternHits(v, search, scopes, member, pp, patterns, j - 1)
      + (if search(patterns[j - 1].0, member.0) && v.isValid(scopes, Obj([member]), pp) then [member.0] else [])
  }

  /** `patternProperties` over the first `n` instance members. */
  function PatternMemberKeys(v: Validator, search: (string, string) -> bool, scopes: seq<string>,
                             instance: seq<(string, Json)>, pp: Json, n: nat): (r: seq<string>)
    requires n <= |instance|
    ensures forall k :: k in r <==>
      exists i :: 0 <= i < n && instance[i].0 == k && PatternHits(v, search, scopes, instance[i], pp, Entries(pp), |Entries(pp)|) != []
  {
    if n == 0 then []
    else
      var init := PatternMemberKeys(v, search, scopes, instance, pp, n - 1);
      var hits := PatternHits(v, search, scopes, instance[n - 1], pp, Entries(pp), |Entries(pp)|);
      assert hits != [] ==> hits[0] in hits;
      init + hits
  }

  /** `patternProperties`: a name is reported exactly when the instance has
      a member of that name, some pattern is found in the name, and the
      one-member object is valid under the whole `patternProperties` value. */
  function PatternKeys(v: Validator, search: (string, string) -> bool, scopes: seq<string>,
                       instance: seq<(string, Json)>, m: seq<(string, Json)>): (r: seq<string>)
    ensures forall k :: k in r ==> HasKey(instance, k)
    ensures forall k :: k in r <==>
      HasKey(m, "patternProperties")
      && var pp := Get(m, "patternProperties");
         exists i, j :: 0 <= i < |instance| && 0 <= j < |Entries(pp)| && instance[i].0 == k
           && search(Entries(pp)[j].0, k) && v.isValid(scopes, Obj([instance[i]]), pp)
  {
    if HasKey(m, "patternProperties") then
      var pp := Get(m, "patternProperties");
      PatternMemberKeysHits(v, search, scopes, instance, pp);
      PatternMemberKeys(v, search, scopes, instance, pp, |instance|)
    else []
  }

  /** A member's name is among the pattern keys exactly when some pattern is
      found in it and the member is valid under `pp`. */
  lemma PatternMemberKeysHits(v: Validator, search: (string, string) -> bool, scopes: seq<string>,
                              instance: seq<(string, Json)>, pp: Json)
    ensures forall k :: k in PatternMemberKeys(v, search, scopes, instance, pp, |instance|) <==>
      exists i, j :: 0 <= i < |instance| && 0 <= j < |Entries(pp)| && instance[i].0 == k
        && search(Entries(pp)[j].0, k) && v.isValid(scopes, Obj([instance[i]]), pp)
  {
    var ps := Entries(pp);
    forall k ensures k in PatternMemberKeys(v, search, scopes, instance, pp, |instance|) <==>
      exists i, j :: 0 <= i < |instance| && 0 <= j < |ps| && instance[i].0 == k
        && search(ps[j].0, k) && v.isValid(scopes, Obj([instance[i]]), pp)
    {
      if k in PatternMemberKeys(v, search, scopes, instance, pp, |instance|) {
        var i :| 0 <= i < |instance| && instance[i].0 == k
          && PatternHits(v, search, scopes, instance[i], pp, ps, |ps|) != [];
        var hits := PatternHits(v, search, scopes, instance[i], pp, ps, |ps|);
        assert hits[0] in hits;
      }
      if exists i, j :: 0 <= i < |instance| && 0 <= j < |ps| && instance[i].0 == k
           && search(ps[j].0, k) && v.isValid(scopes, Obj([instance[i]]), pp) {
        var i, j :| 0 <= i < |instance| && 0 <= j < |ps| && instance[i].0 == k
          && search(ps[j].0, k) && v.isValid(scopes, Obj([instance[i]]), pp);
        assert k in PatternHits(v, search, scopes, instance[i], pp, ps, |ps|);
      }
    }
  }

  /** The entries of `dependentSchemas`, or none. */
  function DependentEntries(m: seq<(string, Json)>): seq<(string, Json)>
  {
    if HasKey(m, "dependentSchemas") then Entries(Get(m, "dependentSchemas")) else []
  }

  /** The tracker's result for `schema` when the resolver's stack is
      `scopes`; every name it reports is a property of the instance. */
  function PropertyKeys(v: Validator, search: (string, string) -> bool, resolve: Option<Resolve>,
                        instance: seq<(string, Json)>, schema: Json, scopes: seq<string>, fuel: nat)
    : (r: Result<seq<string>>)
    requires ObjectsAreDicts(v)
    ensures !v.isType(schema, "object") ==> r == Ok([])
    ensures r.Ok? ==> forall k :: k in r.value ==> HasKey(instance, k)
    decreases fuel, schema, 3, 0
  {
    if !v.isType(schema, "object") then Ok([])
    else ObjectKeys(v, search, resolve, instance, schema, scopes, fuel)
  }

  /** The keywords in the order the tracker visits them. */
  function ObjectKeys(v: Validator, search: (string, string) -> bool, resolve: Option<Resolve>,
                      instance: seq<(string, Json)>, schema: Json, scopes: seq<string>, fuel: nat)
    : (r: Result<seq<string>>)
    requires ObjectsAreDicts(v) && schema.Obj?
    ensures r.Ok? ==> forall k :: k in r.value ==> HasKey(instance, k)
    decreases fuel, schema, 2, 0
  {
    var fromRef :- RefKeys(v, search, resolve, instance, schema, scopes, fuel);
    var fromNested :- NestedKeys(v, search, resolve, instance, schema, scopes, fuel);
    Ok(fromRef + LocalKeys(v, search, scopes, instance, schema.members) + fromNested)
  }

  /** The keywords that look at the instance's members directly. */
  function LocalKeys(v: Validator, search: (string, string) -> bool, scopes: seq<string>,
                     instance: seq<(string, Json)>, m: seq<(string, Json)>): (r: seq<string>)
    requires ObjectsAreDicts(v)
    ensures forall k :: k in r ==> HasKey(instance, k)
  {
    PropertiesKeys(v, scopes, instance, m, "properties")
    + PropertiesKeys(v, scopes, instance, m, "additionalProperties")
    + PropertiesKeys(v, scopes, instance, m, "unevaluatedProperties")
    + PatternKeys(v, search, scopes, instance, m)
  }

  /** The keywords that track subschemas: `dependentSchemas`, the
      applicators, and `if`. */
  function NestedKeys(v: Validator, search: (string, string) -> bool, resolve: Option<Resolve>,
                      instance: seq<(string, Json)>, schema: Json, scopes: seq<string>, fuel: nat)
    : (r: Result<seq<string>>)
    requires ObjectsAreDicts(v) && schema.Obj?
    ensures r.Ok? ==> forall k :: k in r.value ==> HasKey(instance, k)
    decreases fuel, schema, 1, 1
  {
    var fromDependent :- DependentKeys(v, search, resolve, instance, schema, scopes, fuel,
                                       |DependentEntries(schema.members)|);
    var fromApplicators :- ApplicatorsKeys(v, search, resolve, instance, schema, scopes, fuel);
    var fromIf :- IfKeys(v, search, resolve, instance, schema, scopes, fuel);
    Ok(fromDependent + fromApplicators + fromIf)
  }

  /** `$ref`: resolve from the current stack, then track the resolved schema
      with its scope pushed. */
  function RefKeys(v: Validator, search: (string, string) -> bool, resolve: Option<Resolve>,
                   instance: seq<(string, Json)>, schema: Json, scopes: seq<string>, fuel: nat)
    : (r: Result<seq<string>>)
    requires ObjectsAreDicts(v) && schema.Obj?
    ensures r.Ok? ==> forall k :: k in r.value ==> HasKey(instance, k)
    decreases fuel, schema, 1, 0
  {
    var m := schema.members;
    if !HasKey(m, "$ref") || resolve.None? then Ok([])
    else
      var ref := Get(m, "$ref");
      match resolve.value(scopes, ref)
      case None => Err(RefResolutionError(ref))
      case Some(found) =>
        if fuel == 0 then Err(RecursionLimit)
        else PropertyKeys(v, search, resolve, instance, found.1, scopes + [found.0], fuel - 1)
  }

  /** `dependentSchemas`, over its first `n` entries: an entry whose name
      the instance lacks is skipped; otherwise its subschema is tracked when
      `descend` reports no error under it. */
  function DependentKeys(v: Validator, search: (string, string) -> bool, resolve: Option<Resolve>,
                         instance: seq<(string, Json)>, schema: Json, scopes: seq<string>, fuel: nat, n: nat)
    : (r: Result<seq<string>>)
    requires ObjectsAreDicts(v) && schema.Obj?
    requires n <= |DependentEntries(schema.members)|
    ensures r.Ok? ==> forall k :: k in r.value ==> HasKey(instance, k)
    decreases fuel, schema, 0, n
  {
    if n == 0 then Ok([])
    else
      var acc :- DependentKeys(v, search, resolve, instance, schema, scopes, fuel, n - 1);
      var (name, sub) := DependentEntries(schema.members)[n - 1];
      if !HasKey(instance, name) then Ok(acc)
      else if v.descend(scopes, Obj(instance), sub) == [] then
        EntriesBelow(schema.members, "dependentSchemas");
        var more :- PropertyKeys(v, search, resolve, instance, sub, scopes, fuel);
        Ok(acc + more)
      else Ok(acc)
  }

  /** `allOf`, then `oneOf`, then `anyOf`. */
  function ApplicatorsKeys(v: Validator, search: (string, string) -> bool, resolve: Option<Resolve>,
                           instance: seq<(string, Json)>, schema: Json, scopes: seq<string>, fuel: nat)
    : (r: Result<seq<string>>)
    requires ObjectsAreDicts(v) && schema.Obj?
    ensures r.Ok? ==> forall k :: k in r.value ==> HasKey(instance, k)
    decreases fuel, schema, 1, 0
  {
    var m := schema.members;
    var fromAllOf :- ApplicatorKeys(v, search, resolve, instance, schema, "allOf", scopes, fuel, |Subschemas(m, "allOf")|);
    var fromOneOf :- ApplicatorKeys(v, search, resolve, instance, schema, "oneOf", scopes, fuel, |Subschemas(m, "oneOf")|);
    var fromAnyOf :- ApplicatorKeys(v, search, resolve, instance, schema, "anyOf", scopes, fuel, |Subschemas(m, "anyOf")|);
    Ok(fromAllOf + fromOneOf + fromAnyOf)
  }

  /** One applicator keyword over its first `n` subschemas. */
  function ApplicatorKeys(v: Validator, search: (string, string) -> bool, resolve: Option<Resolve>,
                          instance: seq<(string, Json)>, schema: Json, keyword: string, scopes: seq<string>,
                          fuel: nat, n: nat)
    : (r: Result<seq<string>>)
    requires ObjectsAreDicts(v) && schema.Obj?
    requires n <= |Subschemas(schema.members, keyword)|
    ensures r.Ok? ==> forall k :: k in r.value ==> HasKey(instance, k)
    decreases fuel, schema, 0, n
  {
    if n == 0 then Ok([])
    else
      var acc :- ApplicatorKeys(v, search, resolve, instance, schema, keyword, scopes, fuel, n - 1);
      var sub := Subschemas(schema.members, keyword)[n - 1];
      if v.descend(scopes, Obj(instance), sub) == [] then
        ElementsBelow(schema.members, keyword);
        assert sub in Elements(Get(schema.members, keyword));
        var more :- PropertyKeys(v, search, resolve, instance, sub, scopes, fuel);
        Ok(acc + more)
      else Ok(acc)
  }

  /** `if` / `then` / `else`. */
  function IfKeys(v: Validator, search: (string, string) -> bool, resolve: Option<Resolve>,
                  instance: seq<(string, Json)>, schema: Json, scopes: seq<string>, fuel: nat)
    : (r: Result<seq<string>>)
    requires ObjectsAreDicts(v) && schema.Obj?
    ensures r.Ok? ==> forall k :: k in r.value ==> HasKey(instance, k)
    decreases fuel, schema, 1, 0
  {
    var m := schema.members;
    if !HasKey(m, "if") then Ok([])
    else if v.isValid(scopes, Obj(instance), Get(m, "if")) then
      GetBelow(m, "if");
      var fromIf :- PropertyKeys(v, search, resolve, instance, Get(m, "if"), scopes, fuel);
      if HasKey(m, "then") then
        GetBelow(m, "then");
        var fromThen :- PropertyKeys(v, search, resolve, instance, Get(m, "then"), scopes, fuel);
        Ok(fromIf + fromThen)
      else Ok(fromIf)
    else if HasKey(m, "else") then
      GetBelow(m, "else");
      PropertyKeys(v, search, resolve, instance, Get(m, "else"), scopes, fuel)
    else Ok([])
  }

  // ---------------------------------------------------------------------
  // The procedure

  method FindEvaluatedPropertyKeys(v: Validator, search: (string, string) -> bool, resolver: Resolver,
                                   instance: seq<(string, Json)>, schema: Json, fuel: nat)
    returns (r: Result<seq<string>>)
    requires ObjectsAreDicts(v)
    modifies resolver
    ensures r == PropertyKeys(v, search, resolver.resolve, instance, schema, old(resolver.scopes), fuel)
    ensures resolver.scopes == old(resolver.scopes)
    ensures Extends(old(resolver.events), resolver.events)
    decreases fuel, schema, 3, 0
  {
    ExtendsReflexive(resolver.events);
    if !v.isType(schema, "object") {
      return Ok([]);
    }
    r := ObjectStep(v, search, resolver, instance, schema, fuel);
  }

  method ObjectStep(v: Validator, search: (string, string) -> bool, resolver: Resolver,
                    instance: seq<(string, Json)>, schema: Json, fuel: nat)
    returns (r: Result<seq<string>>)
    requires ObjectsAreDicts(v) && schema.Obj?
    modifies resolver
    ensures r == ObjectKeys(v, search, resolver.resolve, instance, schema, old(resolver.scopes), fuel)
    ensures resolver.scopes == old(resolver.scopes)
    ensures Extends(old(resolver.events), resolver.events)
    decreases fuel, schema, 2, 0
  {
    ghost var e0, scopes := resolver.events, resolver.scopes;
    var fromRef := RefStep(v, search, resolver, instance, schema, fuel);
    assert fromRef == RefKeys(v, search, resolver.resolve, instance, schema, scopes, fuel);
    if fromRef.Err? {
      return Err(fromRef.error);
    }
    var fromLocal := LocalStep(v, search, resolver.scopes, instance, schema.members);
    ghost var e1 := resolver.events;
    var fromNested := NestedStep(v, search, resolver, instance, schema, fuel);
    ExtendsTransitive(e0, e1, resolver.events);
    assert fromNested == NestedKeys(v, search, resolver.resolve, instance, schema, scopes, fuel);
    if fromNested.Err? {
      return Err(fromNested.error);
    }
    return Ok(fromRef.value + fromLocal + fromNested.value);
  }

  method LocalStep(v: Validator, search: (string, string) -> bool, scopes: seq<string>,
                   instance: seq<(string, Json)>, m: seq<(string, Json)>)
    returns (ks: seq<string>)
    requires ObjectsAreDicts(v)
    ensures ks == LocalKeys(v, search, scopes, instance, m)
  {
    var fromProperties := PropertiesStep(v, scopes, instance, m, "properties");
    var fromAdditional := PropertiesStep(v, scopes, instance, m, "additionalProperties");
    var fromUnevaluated := PropertiesStep(v, scopes, instance, m, "unevaluatedProperties");
    var fromPatterns := CollectPatternKeys(v, search, scopes, instance, m);
    ks := fromProperties + fromAdditional + fromUnevaluated + fromPatterns;
  }

  method NestedStep(v: Validator, search: (string, string) -> bool, resolver: Resolver,
                    instance: seq<(string, Json)>, schema: Json, fuel: nat)
    returns (r: Result<seq<string>>)
    requires ObjectsAreDicts(v) && schema.Obj?
    modifies resolver
    ensures r == NestedKeys(v, search, resolver.resolve, instance, schema, old(resolver.scopes), fuel)
    ensures resolver.scopes == old(resolver.scopes)
    ensures Extends(old(resolver.events), resolver.events)
    decreases fuel, schema, 1, 1
  {
    ghost var e0, scopes := resolver.events, resolver.scopes;
    var fromDependent := DependentStep(v, search, resolver, instance, schema, fuel);
    if fromDependent.Err? {
      return Err(fromDependent.error);
    }
    ghost var e1 := resolver.events;
    var fromApplicators := ApplicatorsStep(v, search, resolver, instance, schema, fuel);
    ExtendsTransitive(e0, e1, resolver.events);
    assert fromApplicators == ApplicatorsKeys(v, search, resolver.resolve, instance, schema, scopes, fuel);
    if fromApplicators.Err? {
      return Err(fromApplicators.error);
    }
    ghost var e2 := resolver.events;
    var fromIf := IfStep(v, search, resolver, instance, schema, fuel);
    ExtendsTransitive(e0, e2, resolver.events);
    assert fromIf == IfKeys(v, search, resolver.resolve, instance, schema, scopes, fuel);
    if fromIf.Err? {
      return Err(fromIf.error);
    }
    return Ok(fromDependent.value + fromApplicators.value + fromIf.value);
  }

  /** `$ref`: push the resolved scope, track, and pop again whether or not
      the tracking failed. */
  method RefStep(v: Validator, search: (string, string) -> bool, resolver: Resolver,
                 instance: seq<(string, Json)>, schema: Json, fuel: nat)
    returns (r: Result<seq<string>>)
    requires ObjectsAreDicts(v) && schema.Obj?
    modifies resolver
    ensures r == RefKeys(v, search, resolver.resolve, instance, schema, old(resolver.scopes), fuel)
    ensures resolver.scopes == old(resolver.scopes)
    ensures Extends(old(resolver.events), resolver.events)
    decreases fuel, schema, 1, 0
  {
    ExtendsReflexive(resolver.events);
    var m := schema.members;
    if !HasKey(m, "$ref") || resolver.resolve.None? {
      return Ok([]);
    }
    var ref := Get(m, "$ref");
    var found := resolver.resolve.value(resolver.scopes, ref);
    if found.None? {
      return Err(RefResolutionError(ref));
    }
    if fuel == 0 {
      return Err(RecursionLimit);
    }
    var (scope, resolved) := found.value;
    ghost var before := resolver.events;
    resolver.PushScope(scope);
    r := FindEvaluatedPropertyKeys(v, search, resolver, instance, resolved, fuel - 1);
    ghost var inner := resolver.events;
    var popped := resolver.PopScope();
    ExtendsWrap(before, scope, inner);
  }

  /** One of `properties`, `additionalProperties`, `unevaluatedProperties`. */
  method PropertiesStep(v: Validator, scopes: seq<string>, instance: seq<(string, Json)>,
                        m: seq<(string, Json)>, keyword: string)
    returns (ks: seq<string>)
    requires ObjectsAreDicts(v)
    ensures ks == PropertiesKeys(v, scopes, instance, m, keyword)
  {
    ks := [];
    if HasKey(m, keyword) {
      var value := Get(m, keyword);
      if v.isType(value, "boolean") {
        ks := CollectValidMembers(v, scopes, instance, value);
      }
      if v.isType(value, "object") {
        var listed := CollectListed(v, scopes, instance, value.members);
        ks := ks + listed;
      }
    }
  }

  /** The loop over the instance's members that keeps the name of every
      member whose one-member object is valid under `sub`. */
  method CollectValidMembers(v: Validator, scopes: seq<string>, instance: seq<(string, Json)>, sub: Json)
    returns (ks: seq<string>)
    ensures ks == ValidMemberKeys(v, scopes, instance, sub, |instance|)
  {
    ks := [];
    var i := 0;
    while i < |instance|
      invariant i <= |instance|
      invariant ks == ValidMemberKeys(v, scopes, instance, sub, i)
    {
      if v.isValid(scopes, Obj([instance[i]]), sub) {
        ks := ks + [instance[i].0];
      }
      i := i + 1;
    }
  }

  /** The loop over the listed properties that keeps every name the
      instance has and whose instance value is valid under its subschema. */
  method CollectListed(v: Validator, scopes: seq<string>, instance: seq<(string, Json)>, props: seq<(string, Json)>)
    returns (ks: seq<string>)
    ensures ks == ListedKeys(v, scopes, instance, props, |props|)
  {
    ks := [];
    var i := 0;
    while i < |props|
      invariant i <= |props|
      invariant ks == ListedKeys(v, scopes, instance, props, i)
    {
      var (name, sub) := props[i];
      if HasKey(instance, name) && v.isValid(scopes, Get(instance, name), sub) {
        ks := ks + [name];
      }
      i := i + 1;
    }
  }

  /** `patternProperties`: for every instance member, for every pattern. */
  method CollectPatternKeys(v: Validator, search: (string, string) -> bool, scopes: seq<string>,
                            instance: seq<(string, Json)>, m: seq<(string, Json)>)
    returns (ks: seq<string>)
    ensures ks == PatternKeys(v, search, scopes, instance, m)
  {
    ks := [];
    if !HasKey(m, "patternProperties") {
      return;
    }
    var pp := Get(m, "patternProperties");
    var patterns := Entries(pp);
    var i := 0;
    while i < |instance|
      invariant i <= |instance|
      invariant ks == PatternMemberKeys(v, search, scopes, instance, pp, i)
    {
      ghost var before := ks;
      var j := 0;
      while j < |patterns|
        invariant j <= |patterns|
        invariant ks == before + PatternHits(v, search, scopes, instance[i], pp, patterns, j)
      {
        if search(patterns[j].0, instance[i].0) {
          if v.isValid(scopes, Obj([instance[i]]), pp) {
            ks := ks + [instance[i].0];
          }
        }
        j := j + 1;
      }
      i := i + 1;
    }
  }

  /** `dependentSchemas`. */
  method DependentStep(v: Validator, search: (string, string) -> bool, resolver: Resolver,
                       instance: seq<(string, Json)>, schema: Json, fuel: nat)
    returns (r: Result<seq<string>>)
    requires ObjectsAreDicts(v) && schema.Obj?
    modifies resolver
    ensures r == DependentKeys(v, search, resolver.resolve, instance, schema, old(resolver.scopes), fuel,
                               |DependentEntries(schema.members)|)
    ensures resolver.scopes == old(resolver.scopes)
    ensures Extends(old(resolver.events), resolver.events)
    decreases fuel, schema, 0, 0
  {
    ExtendsReflexive(resolver.events);
    var entries := DependentEntries(schema.members);
    if HasKey(schema.members, "dependentSchemas") {
      EntriesBelow(schema.members, "dependentSchemas");
    }
    var acc: seq<string> := [];
    var i := 0;
    while i < |entries|
      invariant i <= |entries|
      invariant resolver.scopes == old(resolver.scopes)
      invariant Extends(old(resolver.events), resolver.events)
      invariant DependentKeys(v, search, resolver.resolve, instance, schema, old(resolver.scopes), fuel, i) == Ok(acc)
    {
      var (name, sub) := entries[i];
      if HasKey(instance, name) && v.descend(resolver.scopes, Obj(instance), sub) == [] {
        ghost var mid := resolver.events;
        var more := FindEvaluatedPropertyKeys(v, search, resolver, instance, sub, fuel);
        ExtendsTransitive(old(resolver.events), mid, resolver.events);
        if more.Err? {
          DependentErrorPersists(v, search, resolver.resolve, instance, schema, old(resolver.scopes), fuel, i + 1, |entries|);
          return Err(more.error);
        }
        acc := acc + more.value;
      }
      i := i + 1;
    }
    return Ok(acc);
  }

  method ApplicatorsStep(v: Validator, search: (string, string) -> bool, resolver: Resolver,
                         instance: seq<(string, Json)>, schema: Json, fuel: nat)
    returns (r: Result<seq<string>>)
    requires ObjectsAreDicts(v) && schema.Obj?
    modifies resolver
    ensures r == ApplicatorsKeys(v, search, resolver.resolve, instance, schema, old(resolver.scopes), fuel)
    ensures resolver.scopes == old(resolver.scopes)
    ensures Extends(old(resolver.events), resolver.events)
    decreases fuel, schema, 1, 0
  {
    var fromAllOf := ApplicatorStep(v, search, resolver, instance, schema, "allOf", fuel);
    if fromAllOf.Err? {
      return fromAllOf;
    }
    ghost var e1 := resolver.events;
    var fromOneOf := ApplicatorStep(v, search, resolver, instance, schema, "oneOf", fuel);
    ExtendsTransitive(old(resolver.events), e1, resolver.events);
    if fromOneOf.Err? {
      return fromOneOf;
    }
    ghost var e2 := resolver.events;
    var fromAnyOf := ApplicatorStep(v, search, resolver, instance, schema, "anyOf", fuel);
    ExtendsTransitive(old(resolver.events), e2, resolver.events);
    if fromAnyOf.Err? {
      return fromAnyOf;
    }
    return Ok(fromAllOf.value + fromOneOf.value + fromAnyOf.value);
  }

  method ApplicatorStep(v: Validator, search: (string, string) -> bool, resolver: Resolver,
                        instance: seq<(string, Json)>, schema: Json, keyword: string, fuel: nat)
    returns (r: Result<seq<string>>)
    requires ObjectsAreDicts(v) && schema.Obj?
    modifies resolver
    ensures r == ApplicatorKeys(v, search, resolver.resolve, instance, schema, keyword, old(resolver.scopes), fuel,
                                |Subschemas(schema.members, keyword)|)
    ensures resolver.scopes == old(resolver.scopes)
    ensures Extends(old(resolver.events), resolver.events)
    decreases fuel, schema, 0, 0
  {
    ExtendsReflexive(resolver.events);
    var subs := Subschemas(schema.members, keyword);
    if HasKey(schema.members, keyword) {
      ElementsBelow(schema.members, keyword);
    }
    var acc: seq<string> := [];
    var i := 0;
    while i < |subs|
      invariant i <= |subs|
      invariant resolver.scopes == old(resolver.scopes)
      invariant Extends(old(resolver.events), resolver.events)
      invariant ApplicatorKeys(v, search, resolver.resolve, instance, schema, keyword, old(resolver.scopes), fuel, i) == Ok(acc)
    {
      var sub := subs[i];
      if v.descend(resolver.scopes, Obj(instance), sub) == [] {
        assert sub in subs;
        ghost var mid := resolver.events;
        var more := FindEvaluatedPropertyKeys(v, search, resolver, instance, sub, fuel);
        ExtendsTransitive(old(resolver.events), mid, resolver.events);
        if more.Err? {
          ApplicatorErrorPersists(v, search, resolver.resolve, instance, schema, keyword, old(resolver.scopes), fuel, i + 1, |subs|);
          return Err(more.error);
        }
        acc := acc + more.value;
      }
      i := i + 1;
    }
    return Ok(acc);
  }

  method IfStep(v: Validator, search: (string, string) -> bool, resolver: Resolver,
                instance: seq<(string, Json)>, schema: Json, fuel: nat)
    returns (r: Result<seq<string>>)
    requires ObjectsAreDicts(v) && schema.Obj?
    modifies resolver
    ensures r == IfKeys(v, search, resolver.resolve, instance, schema, old(resolver.scopes), fuel)
    ensures resolver.scopes == old(resolver.scopes)
    ensures Extends(old(resolver.events), resolver.events)
    decreases fuel, schema, 1, 0
  {
    ExtendsReflexive(resolver.events);
    var m := schema.members;
    if !HasKey(m, "if") {
      return Ok([]);
    }
    if v.isValid(resolver.scopes, Obj(instance), Get(m, "if")) {
      GetBelow(m, "if");
      var fromIf := FindEvaluatedPropertyKeys(v, search, resolver, instance, Get(m, "if"), fuel);
      if fromIf.Err? || !HasKey(m, "then") {
        return fromIf;
      }
      GetBelow(m, "then");
      ghost var mid := resolver.events;
      var fromThen := FindEvaluatedPropertyKeys(v, search, resolver, instance, Get(m, "then"), fuel);
      ExtendsTransitive(old(resolver.events), mid, resolver.events);
      if fromThen.Err? {
        return fromThen;
      }
      return Ok(fromIf.value + fromThen.value);
    } else if HasKey(m, "else") {
      GetBelow(m, "else");
      r := FindEvaluatedPropertyKeys(v, search, resolver, instance, Get(m, "else"), fuel);
    } else {
      return Ok([]);
    }
  }

  // ---------------------------------------------------------------------
  // Properties

  lemma {:induction false} DependentErrorPersists(v: Validator, search: (string, string) -> bool, resolve: Option<Resolve>,
                                                  instance: seq<(string, Json)>, schema: Json, scopes: seq<string>,
                                                  fuel: nat, n: nat, n': nat)
    requires ObjectsAreDicts(v) && schema.Obj?
    requires n <= n' <= |DependentEntries(schema.members)|
    requires DependentKeys(v, search, resolve, instance, schema, scopes, fuel, n).Err?
    ensures DependentKeys(v, search, resolve, instance, schema, scopes, fuel, n')
         == DependentKeys(v, search, resolve, instance, schema, scopes, fuel, n)
    decreases n'
  {
    if n < n' {
      DependentErrorPersists(v, search, resolve, instance, schema, scopes, fuel, n, n' - 1);
    }
  }

  lemma {:induction false} ApplicatorErrorPersists(v: Validator, search: (string, string) -> bool, resolve: Option<Resolve>,
                                                   instance: seq<(string, Json)>, schema: Json, keyword: string,
                                                   scopes: seq<string>, fuel: nat, n: nat, n': nat)
    requires ObjectsAreDicts(v) && schema.Obj?
    requires n <= n' <= |Subschemas(schema.members, keyword)|
    requires ApplicatorKeys(v, search, resolve, instance, schema, keyword, scopes, fuel, n).Err?
    ensures ApplicatorKeys(v, search, resolve, instance, schema, keyword, scopes, fuel, n')
         == ApplicatorKeys(v, search, resolve, instance, schema, keyword, scopes, fuel, n)
    decreases n'
  {
    if n < n' {
      ApplicatorErrorPersists(v, search, resolve, instance, schema, keyword, scopes, fuel, n, n' - 1);
    }
  }

  /** Name `k` comes from the `j`-th entry of `dependentSchemas`: the
      instance has that entry's name, its subschema raised no error, and
      tracking it reported `k`. */
  predicate DependentContributes(v: Validator, search: (string, string) -> bool, resolve: Option<Resolve>,
                                 instance: seq<(string, Json)>, schema: Json, scopes: seq<string>,
                                 fuel: nat, j: nat, k: string)
    requires ObjectsAreDicts(v) && schema.Obj? && j < |DependentEntries(schema.members)|
  {
    var (name, sub) := DependentEntries(schema.members)[j];
    && HasKey(instance, name)
    && v.descend(scopes, Obj(instance), sub) == []
    && var tracked := PropertyKeys(v, search, resolve, instance, sub, scopes, fuel);
       tracked.Ok? && k in tracked.value
  }

  /** `dependentSchemas` reports exactly the names its applicable,
      error-free entries report; an entry whose name the instance lacks is
      never tracked. */
  lemma {:induction false} DependentKeysMembers(v: Validator, search: (string, string) -> bool, resolve: Option<Resolve>,
                                                instance: seq<(string, Json)>, schema: Json, scopes: seq<string>,
                                                fuel: nat, n: nat, k: string)
    requires ObjectsAreDicts(v) && schema.Obj?
    requires n <= |DependentEntries(schema.members)|
    requires DependentKeys(v, search, resolve, instance, schema, scopes, fuel, n).Ok?
    ensures k in DependentKeys(v, search, resolve, instance, schema, scopes, fuel, n).value
            <==> exists j :: 0 <= j < n && DependentContributes(v, search, resolve, instance, schema, scopes, fuel, j, k)
    decreases n
  {
    if n > 0 {
      DependentKeysMembers(v, search, resolve, instance, schema, scopes, fuel, n - 1, k);
      var r := DependentKeys(v, search, resolve, instance, schema, scopes, fuel, n);
      if k in r.value && !DependentContributes(v, search, resolve, instance, schema, scopes, fuel, n - 1, k) {
        assert k in DependentKeys(v, search, resolve, instance, schema, scopes, fuel, n - 1).value;
      }
    }
  }

  /** Name `k` comes from the `j`-th subschema of `keyword`. */
  predicate ApplicatorContributes(v: Validator, search: (string, string) -> bool, resolve: Option<Resolve>,
                                  instance: seq<(string, Json)>, schema: Json, keyword: string,
                                  scopes: seq<string>, fuel: nat, j: nat, k: string)
    requires ObjectsAreDicts(v) && schema.Obj? && j < |Subschemas(schema.members, keyword)|
  {
    var sub := Subschemas(schema.members, keyword)[j];
    && v.descend(scopes, Obj(instance), sub) == []
    && var tracked := PropertyKeys(v, search, resolve, instance, sub, scopes, fuel);
       tracked.Ok? && k in tracked.value
  }

  /** An applicator keyword reports exactly the names that its error-free
      subschemas report. */
  lemma {:induction false} ApplicatorKeysMembers(v: Validator, search: (string, string) -> bool, resolve: Option<Resolve>,
                                                 instance: seq<(string, Json)>, schema: Json, keyword: string,
                                                 scopes: seq<string>, fuel: nat, n: nat, k: string)
    requires ObjectsAreDicts(v) && schema.Obj?
    requires n <= |Subschemas(schema.members, keyword)|
    requires ApplicatorKeys(v, search, resolve, instance, schema, keyword, scopes, fuel, n).Ok?
    ensures k in ApplicatorKeys(v, search, resolve, instance, schema, keyword, scopes, fuel, n).value
            <==> exists j :: 0 <= j < n && ApplicatorContributes(v, search, resolve, instance, schema, keyword, scopes, fuel, j, k)
    decreases n
  {
    if n > 0 {
      ApplicatorKeysMembers(v, search, resolve, instance, schema, keyword, scopes, fuel, n - 1, k);
      var r := ApplicatorKeys(v, search, resolve, instance, schema, keyword, scopes, fuel, n);
      if k in r.value && !ApplicatorContributes(v, search, resolve, instance, schema, keyword, scopes, fuel, n - 1, k) {
        assert k in ApplicatorKeys(v, search, resolve, instance, schema, keyword, scopes, fuel, n - 1).value;
      }
    }
  }

  /** `if` / `then` / `else`: `then` is tracked only when the instance is
      valid under `if`, `else` only when it is not, and a name is reported
      only when the branches taken report it. */
  lemma IfKeysBranches(v: Validator, search: (string, string) -> bool, resolve: Option<Resolve>,
                       instance: seq<(string, Json)>, schema: Json, scopes: seq<string>, fuel: nat, k: string)
    requires ObjectsAreDicts(v) && schema.Obj?
    requires HasKey(schema.members, "if")
    requires IfKeys(v, search, resolve, instance, schema, scopes, fuel).Ok?
    ensures var m := schema.members;
            var valid := v.isValid(scopes, Obj(instance), Get(m, "if"));
            k in IfKeys(v, search, resolve, instance, schema, scopes, fuel).value <==>
              if valid then
                Tracks(v, search, resolve, instance, m, "if", scopes, fuel, k)
                || Tracks(v, search, resolve, instance, m, "then", scopes, fuel, k)
              else Tracks(v, search, resolve, instance, m, "else", scopes, fuel, k)
  {
    var m := schema.members;
    GetBelow(m, "if");
    if HasKey(m, "then") {
      GetBelow(m, "then");
    }
    if HasKey(m, "else") {
      GetBelow(m, "else");
    }
  }

  /** The schema under `keyword` is present and tracking it succeeds with
      `k` among the names. */
  predicate Tracks(v: Validator, search: (string, string) -> bool, resolve: Option<Resolve>,
                   instance: seq<(string, Json)>, m: seq<(string, Json)>, keyword: string,
                   scopes: seq<string>, fuel: nat, k: string)
    requires ObjectsAreDicts(v)
  {
    && HasKey(m, keyword)
    && var tracked := PropertyKeys(v, search, resolve, instance, Get(m, keyword), scopes, fuel);
       tracked.Ok? && k in tracked.value
  }

  /** The `properties` keyword with an object value reports a listed name
      exactly when the instance has it and its value is valid under the
      listed subschema; a name that is not listed is not reported. */
  lemma PropertiesReportsValidListed(v: Validator, scopes: seq<string>, instance: seq<(string, Json)>,
                                     m: seq<(string, Json)>, k: string)
    requires ObjectsAreDicts(v)
    requires HasKey(m, "properties")
    requires var value := Get(m, "properties"); v.isType(value, "object") && !v.isType(value, "boolean")
    requires UniqueKeys(Get(m, "properties").members)
    ensures var props := Get(m, "properties").members;
            k in PropertiesKeys(v, scopes, instance, m, "properties") <==>
              HasKey(props, k) && HasKey(instance, k) && v.isValid(scopes, Get(instance, k), Get(props, k))
  {
    var props := Get(m, "properties").members;
    if k in PropertiesKeys(v, scopes, instance, m, "properties") {
      var i :| 0 <= i < |props| && props[i].0 == k && HasKey(instance, k)
               && v.isValid(scopes, Get(instance, k), props[i].1);
      GetOfUniqueKeys(props, i);
    } else if HasKey(props, k) {
      var i :| 0 <= i < |props| && props[i] == (k, Get(props, k));
    }
  }
}
