/** What the evaluated-location trackers of jsonschema/_utils.py are handed:
    a validator (`is_type`, `is_valid`, `descend`) and the validator's
    resolver (`resolve`, `push_scope`, `pop_scope`). The validator classes and
    the resolver live in jsonschema/validators.py, which is not part of this
    model: here they are abstract collaborators with no keyword semantics. */
module Validator {
  import opened Json

  /** One error `descend` yields; its contents play no part here. */
  datatype ValidationError = ValidationError(message: string)

  /** The validator's queries. Validation may consult the resolver, so
      `isValid` and `descend` also receive the resolver's scope stack as it
      is at the time of the call. */
  datatype Validator = Validator(
    isType: (Json, string) -> bool,
    isValid: (seq<string>, Json, Json) -> bool,
    descend: (seq<string>, Json, Json) -> seq<ValidationError>)

  /** The trackers index into a schema once `is_type(schema, "object")`
      holds: every JSON value the validator calls an object is a dict. */
  ghost predicate ObjectsAreDicts(v: Validator)
  {
    forall j :: v.isType(j, "object") ==> j.Obj?
  }

  /** The subschemas listed under an applicator keyword, or none. */
  function Subschemas(m: seq<(string, Json)>, keyword: string): seq<Json>
  {
    if HasKey(m, keyword) then Elements(Get(m, keyword)) else []
  }

  /** `resolver.resolve(ref)`: the new scope and the schema the reference
      names, looked up from the current scope stack; `None` where the
      resolver raises `RefResolutionError`. */
  type Resolve = (seq<string>, Json) -> Option<(string, Json)>

  /** Why a tracker call ends in an exception instead of a list. */
  datatype Failure =
    | RefResolutionError(ref: Json)
    | RecursionLimit

  datatype Result<T> = Ok(value: T) | Err(error: Failure)
  {
    predicate IsFailure() { Err? }

    function PropagateFailure<U>(): Result<U>
      requires Err?
    {
      Err(error)
    }

    function Extract(): T
      requires Ok?
    {
      value
    }
  }

  // ---------------------------------------------------------------------
  // Scope traces

  /** What the trackers do to the resolver's scope stack, in order. */
  datatype ScopeEvent = Pushed(scope: string) | Popped

  /** Pushes minus pops. */
  function Net(es: seq<ScopeEvent>): int
  {
    if es == [] then 0
    else Net(es[..|es| - 1]) + (if es[|es| - 1].Pushed? then 1 else -1)
  }

  /** Every pop has an earlier push of its own, and every push is popped. */
  predicate Balanced(es: seq<ScopeEvent>)
  {
    Net(es) == 0 && forall k :: 0 <= k <= |es| ==> Net(es[..k]) >= 0
  }

  /** `after` is `before` followed by a balanced stretch. */
  predicate Extends(before: seq<ScopeEvent>, after: seq<ScopeEvent>)
  {
    |before| <= |after| && after[..|before|] == before && Balanced(after[|before|..])
  }

  lemma {:induction false} NetAppend(a: seq<ScopeEvent>, b: seq<ScopeEvent>)
    ensures Net(a + b) == Net(a) + Net(b)
    decreases |b|
  {
    if b != [] {
      var init := b[..|b| - 1];
      assert (a + b)[..|a + b| - 1] == a + init;
      assert (a + b)[|a + b| - 1] == b[|b| - 1];
      NetAppend(a, init);
    } else {
      assert a + b == a;
    }
  }

  /** Two balanced stretches in a row are balanced. */
  lemma BalancedConcat(a: seq<ScopeEvent>, b: seq<ScopeEvent>)
    requires Balanced(a) && Balanced(b)
    ensures Balanced(a + b)
  {
    NetAppend(a, b);
    forall k | 0 <= k <= |a + b| ensures Net((a + b)[..k]) >= 0 {
      if k <= |a| {
        assert (a + b)[..k] == a[..k];
      } else {
        assert (a + b)[..k] == a + b[..k - |a|];
        NetAppend(a, b[..k - |a|]);
      }
    }
  }

  /** A push, a balanced stretch, and the matching pop are balanced. */
  lemma BalancedWrap(x: string, b: seq<ScopeEvent>)
    requires Balanced(b)
    ensures Balanced([Pushed(x)] + b + [Popped])
  {
    var s := [Pushed(x)] + b + [Popped];
    NetAppend([Pushed(x)], b);
    NetAppend([Pushed(x)] + b, [Popped]);
    forall k | 0 <= k <= |s| ensures Net(s[..k]) >= 0 {
      if k == 0 {
      } else if k <= |b| + 1 {
        assert s[..k] == [Pushed(x)] + b[..k - 1];
        NetAppend([Pushed(x)], b[..k - 1]);
      } else {
        assert s[..k] == s;
      }
    }
  }

  lemma ExtendsReflexive(es: seq<ScopeEvent>)
    ensures Extends(es, es)
  {
    assert es[|es|..] == [];
  }

  lemma ExtendsTransitive(a: seq<ScopeEvent>, b: seq<ScopeEvent>, c: seq<ScopeEvent>)
    requires Extends(a, b) && Extends(b, c)
    ensures Extends(a, c)
  {
    assert c[..|a|] == b[..|a|];
    assert c[|a|..] == b[|a|..] + c[|b|..];
    BalancedConcat(b[|a|..], c[|b|..]);
  }

  /** Pushing, running something balanced, and popping again extends the
      trace by a balanced stretch. */
  lemma ExtendsWrap(a: seq<ScopeEvent>, x: string, b: seq<ScopeEvent>)
    requires Extends(a + [Pushed(x)], b)
    ensures Extends(a, b + [Popped])
  {
    var inner := b[|a| + 1..];
    assert b == a + [Pushed(x)] + inner;
    BalancedWrap(x, inner);
    assert (b + [Popped])[|a|..] == [Pushed(x)] + inner + [Popped];
  }

  /** The resolver as the trackers see it: an optional `resolve` (the
      trackers look it up with `getattr(..., None)`) and the scope stack
      that `push_scope` and `pop_scope` change. `events` records the pushes
      and pops made since the resolver was created. */
  class Resolver {
    const resolve: Option<Resolve>
    var scopes: seq<string>
    ghost var events: seq<ScopeEvent>

    constructor (resolve: Option<Resolve>, scopes: seq<string>)
      ensures this.resolve == resolve && this.scopes == scopes && events == []
    {
      this.resolve := resolve;
      this.scopes := scopes;
      events := [];
    }

    /** `push_scope(scope)` */
    method PushScope(scope: string)
      modifies this
      ensures scopes == old(scopes) + [scope]
      ensures events == old(events) + [Pushed(scope)]
    {
      scopes := scopes + [scope];
      events := events + [Pushed(scope)];
    }

    /** `pop_scope()`: `ok` is false, and nothing changes, on an empty stack,
        where the resolver raises. */
    method PopScope() returns (ok: bool)
      modifies this
      ensures ok <==> |old(scopes)| > 0
      ensures ok ==> scopes == old(scopes)[..|old(scopes)| - 1] && events == old(events) + [Popped]
      ensures !ok ==> scopes == old(scopes) && events == old(events)
    {
      ok := |scopes| > 0;
      if ok {
        scopes := scopes[..|scopes| - 1];
        events := events + [Popped];
      }
    }
  }
}
