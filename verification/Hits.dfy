/** What Bind hands out and what it leaves behind, decided by what a caller can
    see: the plan and ticket of the key, the identity just described, the clock and
    the number of observed requests (internal/prewarm/engine.go, Bind). */
module Hits {
  import opened Base
  import opened PrewarmConfig
  import opened Completions
  import opened EngineState
  import opened EngineInvariants
  import opened Protocol
  import opened Plans
  import opened Preservation
  import opened Guarantees

  /** The identity that was described still supports the ticket, which is alive. */
  ghost predicate Supported(cfg: Config, plan: string, t: Ticket, reply: Option<Identity>, now: Time) {
    && now < t.expires
    && reply.Some? && reply.value.scope == t.scope && IdentityFits(cfg, reply.value.plan, plan)
  }

  /** The key has this ticket, and it may be used. */
  ghost predicate CanServe(cfg: Config, e: State, k: Key, t: Ticket, reply: Option<Identity>, now: Time) {
    && !e.closed && k in e.plans && k in e.records
    && e.records[k].value == Some(t) && Supported(cfg, e.plans[k], t, reply, now)
  }

  lemma StaleMeans(cfg: Config, e: State, k: Key, t: Ticket, reply: Option<Identity>, now: Time)
    requires k in e.plans && KnownPlan(e.plans[k])
    ensures Stale(cfg, e, k, t, reply, now) <==> !Supported(cfg, e.plans[k], t, reply, now)
  {
    if reply.Some? {
      IdentityMeans(cfg, reply.value.plan, e.plans[k]);
    }
  }

  /** The engine after a Bind that is refused before it looks at the ticket. */
  lemma BindRefuses(cfg: Config, e: State, id: string, k: Key, reply: Option<Identity>, callerState: bool, now: Time)
    requires e.closed || k !in e.plans || k !in e.records
    ensures Bind(cfg, e, id, k, reply, callerState, now) == (Tombstone(e, id, now), None)
  {
  }

  lemma TombstoneSize(e: State, id: string, now: Time)
    ensures |Tombstone(e, id, now).requests| == |e.requests|
    ensures Tombstone(e, id, now) == e.(requests := Tombstone(e, id, now).requests)
  {
    assert Tombstone(e, id, now).requests.Keys == e.requests.Keys;
  }

  /** And one that finds a usable ticket. */
  lemma BindFinds(cfg: Config, e: State, id: string, k: Key, reply: Option<Identity>, callerState: bool, now: Time,
                  t: Ticket)
    requires WellFormed(cfg, e) && CanServe(cfg, e, k, t, reply, now)
    ensures Bind(cfg, e, id, k, reply, callerState, now)
         == Offer(cfg, Tombstone(e, id, now), id, k, if id in e.requests then None else Some(NewParser(k.model)),
                  callerState, now)
  {
    StaleMeans(cfg, Tombstone(e, id, now), k, t, reply, now);
  }

  /** And one that finds none. */
  lemma BindMisses(cfg: Config, e: State, id: string, k: Key, reply: Option<Identity>, callerState: bool, now: Time)
    requires WellFormed(cfg, e) && !e.closed && k in e.plans
    requires e.HasTicket(k) ==> !Supported(cfg, e.plans[k], e.records[k].value.value, reply, now)
    ensures var e1 := Tombstone(e, id, now);
            Bind(cfg, e, id, k, reply, callerState, now)
            == (Enqueue(if e.HasTicket(k) then Withdraw(e1, k) else e1, k, now), None)
  {
    if e.HasTicket(k) {
      StaleMeans(cfg, Tombstone(e, id, now), k, e.records[k].value.value, reply, now);
    }
  }

  /** Bind hands out a ticket exactly when the engine is open, the key is planned
      and holds that ticket, it has not expired, the identity just described has its
      scope and supports the plan, the caller brings no state of its own, and fewer
      requests than the limit are observed. */
  lemma HitIff(cfg: Config, e: State, id: string, k: Key, reply: Option<Identity>, callerState: bool, now: Time,
               t: Ticket)
    requires WellFormed(cfg, e)
    ensures Bind(cfg, e, id, k, reply, callerState, now).1 == Some(t)
       <==> CanServe(cfg, e, k, t, reply, now) && !callerState && |e.requests| < cfg.maxPending
  {
    TombstoneSize(e, id, now);
    if e.closed || k !in e.plans {
      BindRefuses(cfg, e, id, k, reply, callerState, now);
    } else if e.HasTicket(k) && Supported(cfg, e.plans[k], e.records[k].value.value, reply, now) {
      BindFinds(cfg, e, id, k, reply, callerState, now, e.records[k].value.value);
    } else {
      BindMisses(cfg, e, id, k, reply, callerState, now);
    }
  }

  /** After a hit the request is observed under the ticket's version, by a new
      observer if it was not observed before, and nothing else has changed. */
  lemma HitObserves(cfg: Config, e: State, id: string, k: Key, reply: Option<Identity>, callerState: bool, now: Time,
                    t: Ticket)
    requires WellFormed(cfg, e) && Bind(cfg, e, id, k, reply, callerState, now).1 == Some(t)
    ensures Bind(cfg, e, id, k, reply, callerState, now).0
         == e.(requests := e.requests[id := Observation(k, t.version,
                                                        if id in e.requests then None else Some(NewParser(k.model)),
                                                        now)])
  {
    HitIff(cfg, e, id, k, reply, callerState, now, t);
    BindFinds(cfg, e, id, k, reply, callerState, now, t);
    assert Tombstone(e, id, now).requests[id := Observation(k, t.version, None, now)]
        == e.requests[id := Observation(k, t.version, None, now)];
  }

  lemma WithdrawOthers(e: State, k: Key, now: Time, x: Key)
    requires k in e.records
    ensures var e' := Enqueue(Withdraw(e, k), k, now);
            !e'.HasTicket(k) && e'.plans == e.plans && (x != k ==> SameRecord(e, e', x))
  {
    EnqueueShape(Withdraw(e, k), k, now);
  }

  lemma EnqueueOthers(e: State, k: Key, now: Time, x: Key)
    ensures var e' := Enqueue(e, k, now);
            && (e'.HasTicket(x) <==> e.HasTicket(x)) && (e.HasTicket(x) ==> e'.records[x].value == e.records[x].value)
            && (x != k ==> SameRecord(e, e', x))
  {
    EnqueueShape(e, k, now);
  }

  /** Bind takes the key's ticket away exactly when it no longer may be used, and
      leaves every other key alone. */
  lemma BindDropsIff(cfg: Config, e: State, id: string, k: Key, reply: Option<Identity>, callerState: bool, now: Time,
                     x: Key)
    requires WellFormed(cfg, e) && e.HasTicket(k)
    ensures var e', t := Bind(cfg, e, id, k, reply, callerState, now).0, e.records[k].value.value;
            && (!e'.HasTicket(k) <==> !e.closed && k in e.plans && !Supported(cfg, e.plans[k], t, reply, now))
            && (x != k ==> SameRecord(e, e', x))
  {
    var t := e.records[k].value.value;
    TombstoneSize(e, id, now);
    if e.closed || k !in e.plans {
      BindRefuses(cfg, e, id, k, reply, callerState, now);
    } else if Supported(cfg, e.plans[k], t, reply, now) {
      BindFinds(cfg, e, id, k, reply, callerState, now, t);
    } else {
      BindMisses(cfg, e, id, k, reply, callerState, now);
      WithdrawOthers(Tombstone(e, id, now), k, now, x);
    }
  }

  /** The job can be started now. */
  predicate Startable(e: State, k: Key, now: Time) {
    && !e.closed && k in e.plans && k in e.records && !e.records[k].running && e.records[k].cooldown <= now
    && |e.queue| < e.capacity
  }

  /** Bind starts a job for the key exactly when it has no usable ticket and work
      on it is not under way, cooling down or out of room. */
  lemma BindStartsIff(cfg: Config, e: State, id: string, k: Key, reply: Option<Identity>, callerState: bool, now: Time)
    requires WellFormed(cfg, e)
    ensures var e' := Bind(cfg, e, id, k, reply, callerState, now).0;
            (e'.Running(k) && !e.Running(k))
            <==> Startable(e, k, now)
                 && (e.HasTicket(k) ==> !Supported(cfg, e.plans[k], e.records[k].value.value, reply, now))
  {
    TombstoneSize(e, id, now);
    if e.closed || k !in e.plans {
      BindRefuses(cfg, e, id, k, reply, callerState, now);
    } else if e.HasTicket(k) && Supported(cfg, e.plans[k], e.records[k].value.value, reply, now) {
      BindFinds(cfg, e, id, k, reply, callerState, now, e.records[k].value.value);
    } else {
      BindMisses(cfg, e, id, k, reply, callerState, now);
    }
  }

  /** The whole of Bind, when nothing interferes, hands out a ticket under the same
      conditions for a named request; a planned key is always managed. */
  lemma WholeHitIff(cfg: Config, e: State, id: string, k: Key, reply: Option<Identity>, callerState: bool, now: Time,
                    t: Ticket)
    requires WellFormed(cfg, e)
    ensures BindWhole(cfg, e, id, k, reply, callerState, now).1 == Some(t)
       <==> && id != "" && reply.Some? && reply.value.scope != "" && CanServe(cfg, e, k, t, reply, now)
            && !callerState && |e.requests| < cfg.maxPending
  {
    HitIff(cfg, e, id, k, Described(reply), callerState, now, t);
  }
}
