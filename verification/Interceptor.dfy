/** The plugin's interceptors (internal/turnstate/interceptor.go): the passive
    cache and the ticket engine put together. */
module Interceptor {
  import opened Base
  import opened PrewarmConfig
  import opened EngineState
  import opened TicketEngine
  import C = PassiveCache
  import Text

  datatype Request = Request(id: string, toFormat: string, key: Key, headers: Headers)

  /** The turn state that a request is sent with. */
  datatype Injection = Nothing | Verified(ticket: Ticket) | Passive(state: string)

  // ---- Headers -----------------------------------------------------------

  predicate Named(h: Headers, header: string, name: string) {
    name in h && Text.EqualFold(name, header)
  }

  ghost predicate Distinct(names: seq<string>) {
    forall i, j | 0 <= i < j < |names| :: names[i] != names[j]
  }

  ghost predicate SameNames(a: seq<string>, b: seq<string>) {
    (forall name <- a :: name in b) && (forall name <- b :: name in a)
  }

  /** The header's spellings, in the order in which the map gave them. */
  ghost predicate Spellings(order: seq<string>, h: Headers, header: string) {
    && (forall name :: name in order <==> Named(h, header, name))
    && Distinct(order)
  }

  function Joined(h: Headers, order: seq<string>): seq<string>
    requires forall name <- order :: name in h
  {
    if order == [] then [] else Joined(h, order[..|order| - 1]) + h[order[|order| - 1]]
  }

  /** All values of the header, spelling by spelling in some order. */
  ghost predicate Gathered(h: Headers, header: string, values: seq<string>) {
    exists order :: Spellings(order, h, header) && values == Joined(h, order)
  }

  /** The plan header's first value, of some spelling that has one. */
  ghost predicate PlanRead(h: Headers, plan: string) {
    || (plan == "" && forall name | Named(h, PLAN_HEADER, name) :: h[name] == [])
    || exists name | Named(h, PLAN_HEADER, name) :: h[name] != [] && plan == Text.TrimSpace(h[name][0])
  }

  ghost predicate HasState(h: Headers) {
    exists name | Named(h, STATE_HEADER, name) :: h[name] != []
  }

  lemma {:induction false} JoinedWithout(h: Headers, order: seq<string>, i: nat)
    requires i < |order| && forall name <- order :: name in h
    ensures forall name <- order[..i] + order[i + 1..] :: name in h
    ensures multiset(Joined(h, order)) == multiset(Joined(h, order[..i] + order[i + 1..])) + multiset(h[order[i]])
  {
    var n := |order| - 1;
    var rest := order[..i] + order[i + 1..];
    if i < n {
      JoinedWithout(h, order[..n], i);
      assert rest[..n - 1] == order[..n][..i] + order[..n][i + 1..];
    } else {
      assert rest == order[..n];
    }
  }

  lemma {:induction false} JoinedSame(h: Headers, a: seq<string>, b: seq<string>)
    requires forall name <- a :: name in h
    requires SameNames(a, b)
    requires Distinct(a) && Distinct(b)
    ensures multiset(Joined(h, a)) == multiset(Joined(h, b))
    decreases |a|
  {
    if a != [] {
      var n := |a| - 1;
      assert a[n] in b;
      var i :| 0 <= i < |b| && b[i] == a[n];
      JoinedWithout(h, b, i);
      SameWithout(a, b, i);
      JoinedSame(h, a[..n], b[..i] + b[i + 1..]);
    }
  }

  lemma SameWithout(a: seq<string>, b: seq<string>, i: nat)
    requires a != [] && i < |b| && b[i] == a[|a| - 1]
    requires SameNames(a, b)
    requires Distinct(a) && Distinct(b)
    ensures SameNames(a[..|a| - 1], b[..i] + b[i + 1..])
  {
    var front, rest := a[..|a| - 1], b[..i] + b[i + 1..];
    assert a == front + [a[|a| - 1]];
    assert b == b[..i] + [b[i]] + b[i + 1..];
    assert b[i] !in rest;
    assert b[i] !in front;
    forall name
      ensures name in front <==> name in rest
    {
      assert name in b <==> name in rest || name == b[i];
    }
  }

  lemma SingleValue(v: seq<string>, w: seq<string>)
    requires multiset(v) == multiset(w) && |v| == |w|
    ensures |v| == 1 ==> v == w
  {
    if |v| == 1 {
      assert v[0] in multiset(w);
    }
  }

  /** In whatever order the spellings come, the same response is accepted, with
      the same value. */
  lemma OrderDoesNotMatter(limits: C.Limits, h: Headers, header: string, v: seq<string>, w: seq<string>, plan: string)
    requires Gathered(h, header, v) && Gathered(h, header, w)
    ensures |v| == |w| && multiset(v) == multiset(w)
    ensures C.Accepted(limits, v, plan) == C.Accepted(limits, w, plan)
  {
    var a :| Spellings(a, h, header) && v == Joined(h, a);
    var b :| Spellings(b, h, header) && w == Joined(h, b);
    JoinedSame(h, a, b);
    assert |multiset(v)| == |multiset(w)|;
    SingleValue(v, w);
  }

  lemma {:induction false} JoinedSome(h: Headers, order: seq<string>)
    requires forall name <- order :: name in h
    ensures Joined(h, order) != [] <==> exists name <- order :: h[name] != []
  {
    if order != [] {
      var n := |order| - 1;
      JoinedSome(h, order[..n]);
      assert order == order[..n] + [order[n]];
    }
  }

  /** A caller brings its own state exactly when a state header has a value. */
  lemma CallerState(h: Headers, values: seq<string>)
    requires Gathered(h, STATE_HEADER, values)
    ensures values != [] <==> HasState(h)
  {
    var order :| Spellings(order, h, STATE_HEADER) && values == Joined(h, order);
    JoinedSome(h, order);
  }

  /** The engine and the cache agree on plans: a state that is valid for a plan
      passes the length test of the cache under every name of that plan, is valid
      for no other plan, and is not the 312-byte state that revokes tickets. */
  lemma PlansAgree(limits: C.Limits, state: string, raw: string, other: string)
    requires ValidState(state, CanonicalPlan(raw))
    ensures C.Accepted(limits, [state], raw) == Some(state)
    ensures other != CanonicalPlan(raw) ==> !ValidState(state, other)
    ensures |state| != 312
  {
  }

  // ---- Requests ----------------------------------------------------------

  /** What a request is sent with, given what was found: whether its key was
      managed when that was checked, the ticket that Bind handed out, and the
      passive entry. */
  function Chosen(managed: bool, ticket: Option<Ticket>, hit: Option<string>): Injection {
    if managed then (if ticket.Some? then Verified(ticket.value) else Nothing)
    else if hit.Some? then Passive(hit.value)
    else Nothing
  }

  predicate Routed(r: Request) {
    Text.EqualFold(r.toFormat, "codex")
  }

  predicate Complete(r: Request) {
    r.id != "" && C.ValidKey(r.key)
  }

  /** The cache after a request of a key that is not managed: bound, and looked up. */
  ghost predicate Passed(limits: C.Limits, c: C.State, c': C.State, r: Request, hit: Option<string>, now: Time) {
    exists bound :: C.BoundTo(limits, c, bound, r.id, r.key, now) && (c', hit) == C.LookedUp(bound, r.key, now)
  }

  /** The effect of the interceptor on the cache, and its answer. */
  ghost predicate AfterAuth(limits: C.Limits, c: C.State, c': C.State, r: Request, managed: bool,
                            ticket: Option<Ticket>, now: Time, answer: Injection)
  {
    if !Routed(r) then c' == c && answer == Nothing
    else if !Complete(r) then c' == C.Forgotten(c, r.id) && answer == Nothing
    else if managed then c' == C.Forgotten(c, r.id) && answer == Chosen(true, ticket, None)
    else exists hit :: Passed(limits, c, c', r, hit, now) && answer == Chosen(false, None, hit)
  }

  ghost predicate CapturedFrom(limits: C.Limits, c: C.State, c': C.State, id: string, h: Headers, now: Time) {
    exists values, plan :: Gathered(h, STATE_HEADER, values) && PlanRead(h, plan)
                           && C.StoredAs(limits, c, c', id, values, plan, now)
  }

  class Plugin {
    const cache: C.Cache
    var warmer: Engine?

    ghost predicate Valid()
      reads this, cache
    {
      cache.Valid()
    }

    /** The engine, as a set of at most one object. */
    ghost function Warm(): set<object>
      reads this
    {
      if warmer == null then {} else {warmer}
    }

    constructor (cache: C.Cache)
      requires cache.Valid()
      ensures Valid() && this.cache == cache && warmer == null
    {
      this.cache, warmer := cache, null;
    }

    method SetPrewarm(e: Engine)
      modifies this
      ensures warmer == e
    {
      warmer := e;
    }

    method Close()
      modifies Warm()
      ensures warmer != null ==> warmer.Abs() == EngineState.Close(old(warmer.Abs()))
    {
      if warmer != null {
        warmer.Close();
      }
    }

    static method TurnStateValues(h: Headers) returns (values: seq<string>)
      ensures Gathered(h, STATE_HEADER, values)
    {
      values := [];
      ghost var order: seq<string> := [];
      var names := h.Keys;
      while names != {}
        invariant names <= h.Keys
        invariant forall name :: name in order <==> Named(h, STATE_HEADER, name) && name !in names
        invariant Distinct(order)
        invariant values == Joined(h, order)
        decreases |names|
      {
        var name :| name in names;
        names := names - {name};
        if Text.EqualFold(name, STATE_HEADER) {
          assert name !in order;
          assert (order + [name])[..|order|] == order;
          order := order + [name];
          values := values + h[name];
        }
      }
      assert Spellings(order, h, STATE_HEADER);
    }

    static method PlanTypeValue(h: Headers) returns (plan: string)
      ensures PlanRead(h, plan)
    {
      var names := h.Keys;
      while names != {}
        invariant names <= h.Keys
        invariant forall name | Named(h, PLAN_HEADER, name) && name !in names :: h[name] == []
        decreases |names|
      {
        var name :| name in names;
        names := names - {name};
        if Text.EqualFold(name, PLAN_HEADER) && |h[name]| > 0 {
          assert Named(h, PLAN_HEADER, name);
          return Text.TrimSpace(h[name][0]);
        }
      }
      return "";
    }

    /** `reply` is what the Host says about the account when Bind asks it. */
    method InterceptRequestAfterAuth(r: Request, reply: Option<Identity>, now: Time) returns (answer: Injection)
      requires Valid()
      modifies cache, Warm()
      ensures Valid()
      ensures warmer == null ==> AfterAuth(cache.limits, old(cache.Now()), cache.Now(), r, false, None, now, answer)
      ensures warmer != null ==>
        (var e := old(warmer.Abs());
         var managed := EngineState.Manages(warmer.cfg, e, r.key);
         var bound := BindWhole(warmer.cfg, e, r.id, r.key, reply, HasState(r.headers), now);
         && AfterAuth(cache.limits, old(cache.Now()), cache.Now(), r, managed, bound.1, now, answer)
         && warmer.Abs() == if Routed(r) && Complete(r) && managed then bound.0 else e)
    {
      if !Text.EqualFold(r.toFormat, "codex") {
        return Nothing;
      }
      if r.id == "" || !C.ValidKey(r.key) {
        cache.ForgetRequest(r.id);
        return Nothing;
      }
      if warmer != null {
        var managed := warmer.Manages(r.key);
        if managed {
          cache.ForgetRequest(r.id);
          var values := TurnStateValues(r.headers);
          CallerState(r.headers, values);
          var ticket := warmer.Bind(r.id, r.key, reply, |values| > 0, now);
          return if ticket.Some? then Verified(ticket.value) else Nothing;
        }
      }
      var hit := BindAndLookup(r, now);
      return if hit.Some? then Passive(hit.value) else Nothing;
    }

    method BindAndLookup(r: Request, now: Time) returns (hit: Option<string>)
      requires Valid()
      modifies cache
      ensures Valid() && Passed(cache.limits, old(cache.Now()), cache.Now(), r, hit, now)
    {
      cache.BindRequest(r.id, r.key, now);
      hit := cache.Lookup(r.key, now);
    }

    method HandleRequestComplete(id: string, now: Time)
      requires Valid()
      modifies cache, Warm()
      ensures Valid() && cache.Now() == C.Forgotten(old(cache.Now()), id)
      ensures warmer != null ==> warmer.Abs() == OnComplete(old(warmer.Abs()), id, warmer.decode, now)
    {
      cache.ForgetRequest(id);
      if warmer != null {
        warmer.Complete(id, now);
      }
    }

    method InterceptResponse(id: string, h: Headers, body: Bytes, now: Time)
      requires Valid()
      modifies cache, Warm()
      ensures Valid() && CapturedFrom(cache.limits, old(cache.Now()), cache.Now(), id, h, now)
      ensures warmer != null ==>
        warmer.Abs() == OnJSON(OnHeaders(old(warmer.Abs()), id, h, now), id, body, warmer.decode, now)
    {
      if warmer != null {
        warmer.Headers(id, h, now);
        warmer.JSON(id, body, now);
      }
      Capture(id, h, now);
    }

    /** `first` marks the chunk that carries the response headers only. */
    method InterceptStreamChunk(id: string, first: bool, h: Headers, body: Bytes, now: Time)
      requires Valid()
      modifies cache, Warm()
      ensures Valid()
      ensures if first then CapturedFrom(cache.limits, old(cache.Now()), cache.Now(), id, h, now)
              else cache.Now() == old(cache.Now())
      ensures warmer != null ==>
        warmer.Abs() == if first then OnHeaders(old(warmer.Abs()), id, h, now)
                        else OnChunk(old(warmer.Abs()), id, body, warmer.decode, now)
    {
      if first {
        if warmer != null {
          warmer.Headers(id, h, now);
        }
        Capture(id, h, now);
      } else if warmer != null {
        warmer.Chunk(id, body, now);
      }
    }

    method Capture(id: string, h: Headers, now: Time)
      requires Valid()
      modifies cache
      ensures Valid() && CapturedFrom(cache.limits, old(cache.Now()), cache.Now(), id, h, now)
    {
      var plan := PlanTypeValue(h);
      var values := TurnStateValues(h);
      var stored, replaced := cache.StoreResponseForRequest(id, values, plan, now);
    }
  }
}
