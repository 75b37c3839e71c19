/** Which responses the passive cache captures, decided by the history of
    operations alone (internal/turnstate/cache.go): a reference for the bindings
    that are alive, with expiry and eviction, and for what is accepted under them. */
module Captures {
  import opened Base
  import opened PassiveCache
  import opened CacheLog
  import opened Plans
  import Text

  // ---- What is accepted --------------------------------------------------

  /** A response that is stored is what the next lookup of its key finds, whatever
      was there before; any other response stores nothing. */
  lemma StoreThenLookup(limits: Limits, s: State, s': State, id: string, values: seq<string>, plan: string, now: Time,
                        later: Time)
    requires StoredAs(limits, s, s', id, values, plan, now) && id != ""
    requires id in s.pending && ValidKey(s.pending[id].key) && now <= later
    ensures var b := s.pending[id];
            if now < b.expiresAt && |values| == 1
               && LengthFits(limits, values[0], NamedPlan(plan, b)) then
              LookedUp(s', b.key, later).1 == if later < now + 3_600_000_000_000 then Some(values[0]) else None
            else s'.entries == Purged(s, now).entries
  {
    var b := s.pending[id];
    var raw := NamedPlan(plan, b);
    if |values| == 1 {
      AcceptedMeans(limits, values, raw, values[0]);
    }
    if now < b.expiresAt && |values| == 1 && LengthFits(limits, values[0], raw) {
      assert Admitted(limits, s, id, values, plan, now) == Some((b.key, values[0]));
    } else {
      NotAdmitted(limits, s, id, values, plan, now);
    }
  }

  lemma NotAdmitted(limits: Limits, s: State, id: string, values: seq<string>, plan: string, now: Time)
    requires id in s.pending
    requires var b := s.pending[id];
             b.expiresAt <= now || |values| != 1
             || !LengthFits(limits, values[0], NamedPlan(plan, b))
    ensures Admitted(limits, s, id, values, plan, now).None?
  {
    var b := s.pending[id];
    var raw := NamedPlan(plan, b);
    if Accepted(limits, values, raw).Some? {
      AcceptedMeans(limits, values, raw, Accepted(limits, values, raw).value);
    }
  }

  // ---- Which bindings are alive ------------------------------------------

  predicate Binds(m: Moment, id: string) {
    m.op.Bind? && m.op.id == id && id != "" && ValidKey(m.op.key)
  }

  /** The i-th operation bound the request, and nothing forgot or replaced it. */
  ghost predicate MadeAt(moments: seq<Moment>, i: nat, id: string) {
    i < |moments| && Binds(moments[i], id) && forall j | i < j < |moments| :: !Unbinds(moments[j], id)
  }

  function Named(moments: seq<Moment>): set<string> {
    set m | m in moments && m.op.Bind? :: m.op.id
  }

  /** Bound, under two hours ago, and not evicted since. */
  ghost predicate Alive(limits: Limits, moments: seq<Moment>, id: string, now: Time)
    decreases |moments|, 1
  {
    && Kept(limits, moments, id)
    && BindingOf(moments, id).Some? && now < BindingOf(moments, id).value.createdAt + 7_200_000_000_000
  }

  ghost predicate Kept(limits: Limits, moments: seq<Moment>, id: string)
    decreases |moments|, 0
  {
    exists i | 0 <= i < |moments| ::
      MadeAt(moments, i, id) && forall j | i < j < |moments| :: !Evicts(limits, moments[..j], moments[j], id)
  }

  ghost function Crowd(limits: Limits, moments: seq<Moment>, now: Time): set<string>
    decreases |moments|, 2
  {
    set id | id in Named(moments) && Alive(limits, moments, id, now)
  }

  /** The first request was bound before the second; ties go by name. */
  ghost predicate Before(moments: seq<Moment>, a: string, b: string) {
    var x, y := BindingOf(moments, a), BindingOf(moments, b);
    x.Some? && y.Some?
    && (x.value.createdAt < y.value.createdAt || (x.value.createdAt == y.value.createdAt && Text.Less(a, b)))
  }

  /** After this history the operation binds a request that was not alive, all
      places are taken, and this one is the oldest. */
  ghost predicate Evicts(limits: Limits, moments: seq<Moment>, m: Moment, id: string)
    decreases |moments|, 3
  {
    && m.op.Bind? && Binds(m, m.op.id)
    && m.op.id !in Crowd(limits, moments, m.now)
    && |Crowd(limits, moments, m.now)| >= limits.maxPending
    && id in Crowd(limits, moments, m.now)
    && forall other | other in Crowd(limits, moments, m.now) && other != id :: Before(moments, id, other)
  }

  lemma KeptStep(limits: Limits, moments: seq<Moment>, m: Moment, id: string)
    ensures Kept(limits, moments + [m], id)
       <==> Binds(m, id) || (Kept(limits, moments, id) && !Unbinds(m, id) && !Evicts(limits, moments, m, id))
  {
    var all, n := moments + [m], |moments|;
    assert all[..n] == moments && all[n] == m;
    if Binds(m, id) {
      assert MadeAt(all, n, id);
    } else if Kept(limits, all, id) {
      KeptEarlier(limits, moments, m, id);
    } else if Kept(limits, moments, id) && !Unbinds(m, id) && !Evicts(limits, moments, m, id) {
      KeptLater(limits, moments, m, id);
    }
  }

  lemma KeptEarlier(limits: Limits, moments: seq<Moment>, m: Moment, id: string)
    requires Kept(limits, moments + [m], id) && !Binds(m, id)
    ensures Kept(limits, moments, id) && !Unbinds(m, id) && !Evicts(limits, moments, m, id)
  {
    var all, n := moments + [m], |moments|;
    var i :| 0 <= i < |all| && MadeAt(all, i, id) && forall j | i < j < |all| :: !Evicts(limits, all[..j], all[j], id);
    assert all[..n] == moments && all[n] == m;
    assert MadeAt(moments, i, id) by {
      forall j | i < j < n ensures !Unbinds(moments[j], id) { assert all[j] == moments[j]; }
    }
    forall j | i < j < n
      ensures !Evicts(limits, moments[..j], moments[j], id)
    {
      assert all[..j] == moments[..j] && all[j] == moments[j];
    }
  }

  lemma KeptLater(limits: Limits, moments: seq<Moment>, m: Moment, id: string)
    requires Kept(limits, moments, id) && !Unbinds(m, id) && !Evicts(limits, moments, m, id)
    ensures Kept(limits, moments + [m], id)
  {
    var all, n := moments + [m], |moments|;
    var i :| 0 <= i < n && MadeAt(moments, i, id)
          && forall j | i < j < n :: !Evicts(limits, moments[..j], moments[j], id);
    assert all[..n] == moments && all[n] == m;
    assert MadeAt(all, i, id);
    forall j | i < j < |all|
      ensures !Evicts(limits, all[..j], all[j], id)
    {
      if j < n {
        assert all[..j] == moments[..j] && all[j] == moments[j];
      }
    }
  }

  lemma {:induction false} KeptNamed(limits: Limits, moments: seq<Moment>, id: string)
    requires Kept(limits, moments, id)
    ensures id in Named(moments)
  {
    var i :| 0 <= i < |moments| && MadeAt(moments, i, id)
          && forall j | i < j < |moments| :: !Evicts(limits, moments[..j], moments[j], id);
    assert moments[i] in moments;
  }

  // ---- The cache keeps exactly these -------------------------------------

  /** The request has a binding that has not expired. */
  predicate Pending(s: State, id: string, now: Time) {
    id in s.pending && now < s.pending[id].expiresAt
  }

  /** The cache and the history agree about a request from this time on. */
  ghost predicate Agrees(limits: Limits, s: State, moments: seq<Moment>, from: Time, id: string) {
    forall now: Time | from <= now :: Pending(s, id, now) <==> Alive(limits, moments, id, now)
  }

  ghost predicate AgreesOnAll(limits: Limits, s: State, moments: seq<Moment>, from: Time) {
    forall id :: Agrees(limits, s, moments, from, id)
  }

  lemma CrowdIsPending(limits: Limits, s: State, moments: seq<Moment>, now: Time)
    requires AgreesOnAll(limits, s, moments, now)
    ensures Purged(s, now).pending.Keys == Crowd(limits, moments, now)
    ensures |Purged(s, now).pending| == |Crowd(limits, moments, now)|
  {
    var p := Purged(s, now).pending;
    forall id
      ensures id in p <==> id in Crowd(limits, moments, now)
    {
      assert Agrees(limits, s, moments, now, id);
      assert Pending(s, id, now) <==> Alive(limits, moments, id, now);
      if Alive(limits, moments, id, now) {
        KeptNamed(limits, moments, id);
      }
    }
    assert p.Keys == Crowd(limits, moments, now);
  }

  lemma OldestIsFirst(limits: Limits, s: State, moments: seq<Moment>, now: Time, id: string)
    requires AgreesOnAll(limits, s, moments, now) && PendingFromHistory(s, moments)
    ensures IsOldestPending(Purged(s, now).pending, id)
       <==> && id in Crowd(limits, moments, now)
            && forall other | other in Crowd(limits, moments, now) && other != id :: Before(moments, id, other)
  {
    CrowdIsPending(limits, s, moments, now);
    var p := Purged(s, now).pending;
    forall other | other in p
      ensures BindingOf(moments, other) == Some(p[other])
    {
      assert other in s.pending;
    }
  }

  lemma WrittenEvicts(before: map<string, Binding>, after: map<string, Binding>, x: string, b: Binding, limit: nat,
                      id: string)
    requires PendingWritten(before, after, x, b, limit)
    ensures id in after
       <==> id == x || (id in before && !(x !in before && |before| >= limit && IsOldestPending(before, id)))
  {
    if x !in before && |before| >= limit {
      var kept :| PendingEvictedTo(before, kept, limit) && after == kept[x := b];
      var oldest :| IsOldestPending(before, oldest) && kept == before - {oldest};
      if IsOldestPending(before, id) {
        OldestPendingUnique(before, id, oldest);
      }
    }
  }

  /** A binding that is written evicts exactly the one that the history says. */
  lemma BindEvicts(limits: Limits, s: State, m: Moment, s': State, moments: seq<Moment>, id: string)
    requires AgreesOnAll(limits, s, moments, m.now) && PendingFromHistory(s, moments)
    requires m.op.Bind? && Binds(m, m.op.id) && Step(limits, s, m, s')
    ensures id in s'.pending <==> id == m.op.id || (id in Purged(s, m.now).pending && !Evicts(limits, moments, m, id))
  {
    PendingStep(limits, s, m, s');
    CrowdIsPending(limits, s, moments, m.now);
    OldestIsFirst(limits, s, moments, m.now, id);
    WrittenEvicts(Purged(s, m.now).pending, s'.pending, m.op.id, Binding(m.op.key, "", m.now, m.now + PENDING_TTL),
                  limits.maxPending, id);
  }

  lemma SameBinding(limits: Limits, s: State, m: Moment, s': State, moments: seq<Moment>, id: string)
    requires PendingFromHistory(s, moments) && Step(limits, s, m, s')
    ensures id in s'.pending ==> BindingOf(moments + [m], id) == Some(s'.pending[id])
    ensures id in s.pending ==> BindingOf(moments, id) == Some(s.pending[id]) && id != ""
  {
    StepFromHistory(limits, s, m, s', moments);
    if id in s.pending {
      BindingNamed(moments, id);
    }
  }

  /** Who is still bound after an operation that binds nobody. */
  lemma OtherStep(limits: Limits, s: State, m: Moment, s': State, id: string, now: Time)
    requires Step(limits, s, m, s') && m.now <= now && id != "" && !(m.op.Bind? && Binds(m, m.op.id))
    ensures Pending(s', id, now) <==> Pending(s, id, now) && !Unbinds(m, id)
  {
    PendingStep(limits, s, m, s');
  }

  lemma {:induction false} NamelessDead(limits: Limits, moments: seq<Moment>, now: Time)
    ensures !Alive(limits, moments, "", now)
  {
  }

  /** The bindings of the history expire two hours after they were made. */
  lemma {:induction false} BindingLife(moments: seq<Moment>, id: string)
    requires BindingOf(moments, id).Some?
    ensures BindingOf(moments, id).value.expiresAt == BindingOf(moments, id).value.createdAt + 7_200_000_000_000
  {
    var n := |moments| - 1;
    if BindingOf(moments[..n], id).Some? {
      BindingLife(moments[..n], id);
    }
  }

  /** A request that stays bound keeps the time at which it was bound. */
  lemma SameCreation(moments: seq<Moment>, m: Moment, id: string)
    requires !Unbinds(m, id)
    ensures BindingOf(moments + [m], id).Some? <==> BindingOf(moments, id).Some?
    ensures BindingOf(moments, id).Some? ==>
              BindingOf(moments + [m], id).value.createdAt == BindingOf(moments, id).value.createdAt
  {
    assert (moments + [m])[..|moments|] == moments;
  }

  lemma AliveStep(limits: Limits, moments: seq<Moment>, m: Moment, id: string, now: Time)
    requires !Binds(m, id)
    ensures Alive(limits, moments + [m], id, now)
       <==> Alive(limits, moments, id, now) && !Unbinds(m, id) && !Evicts(limits, moments, m, id)
  {
    KeptStep(limits, moments, m, id);
    if !Unbinds(m, id) {
      SameCreation(moments, m, id);
    }
  }

  lemma AliveBound(limits: Limits, moments: seq<Moment>, m: Moment, id: string, now: Time)
    requires Binds(m, id)
    ensures Alive(limits, moments + [m], id, now) <==> now < m.now + 7_200_000_000_000
  {
    KeptStep(limits, moments, m, id);
    assert (moments + [m])[..|moments|] == moments;
  }

  lemma BoundPending(limits: Limits, s: State, m: Moment, s': State, id: string, now: Time)
    requires Step(limits, s, m, s') && Binds(m, id)
    ensures Pending(s', id, now) <==> now < m.now + 7_200_000_000_000
  {
    PendingStep(limits, s, m, s');
  }

  /** Another request's binding may evict this one, and else leaves it alone. */
  lemma ElsewhereBound(limits: Limits, s: State, m: Moment, s': State, moments: seq<Moment>, id: string, now: Time)
    requires AgreesOnAll(limits, s, moments, m.now) && PendingFromHistory(s, moments)
    requires m.op.Bind? && Binds(m, m.op.id) && m.op.id != id && Step(limits, s, m, s') && m.now <= now
    ensures Pending(s', id, now) <==> Pending(s, id, now) && !Evicts(limits, moments, m, id)
  {
    BindEvicts(limits, s, m, s', moments, id);
    PendingStep(limits, s, m, s');
    if id in s'.pending {
      PendingWrittenKeeps(Purged(s, m.now).pending, s'.pending, m.op.id,
                          Binding(m.op.key, "", m.now, m.now + PENDING_TTL), limits.maxPending, id);
    }
  }

  lemma StepAgrees(limits: Limits, s: State, m: Moment, s': State, moments: seq<Moment>, from: Time, id: string)
    requires AgreesOnAll(limits, s, moments, from) && PendingFromHistory(s, moments)
    requires Step(limits, s, m, s') && from <= m.now
    ensures Agrees(limits, s', moments + [m], m.now, id)
  {
    assert AgreesOnAll(limits, s, moments, m.now) by {
      forall x ensures Agrees(limits, s, moments, m.now, x) {
        assert Agrees(limits, s, moments, from, x);
      }
    }
    forall now: Time | m.now <= now
      ensures Pending(s', id, now) <==> Alive(limits, moments + [m], id, now)
    {
      AgreesAt(limits, s, m, s', moments, id, now);
    }
  }

  lemma AgreesAt(limits: Limits, s: State, m: Moment, s': State, moments: seq<Moment>, id: string, now: Time)
    requires AgreesOnAll(limits, s, moments, m.now) && PendingFromHistory(s, moments)
    requires Step(limits, s, m, s') && m.now <= now
    ensures Pending(s', id, now) <==> Alive(limits, moments + [m], id, now)
  {
    assert Agrees(limits, s, moments, m.now, id);
    assert Pending(s, id, now) <==> Alive(limits, moments, id, now);
    if id == "" {
      NamelessDead(limits, moments + [m], now);
      NeverNameless(limits, s, m, s', moments);
    } else if Binds(m, id) {
      AliveBound(limits, moments, m, id, now);
      BoundPending(limits, s, m, s', id, now);
    } else {
      AliveStep(limits, moments, m, id, now);
      if m.op.Bind? && Binds(m, m.op.id) {
        ElsewhereBound(limits, s, m, s', moments, id, now);
      } else {
        OtherStep(limits, s, m, s', id, now);
      }
    }
  }

  lemma NeverNameless(limits: Limits, s: State, m: Moment, s': State, moments: seq<Moment>)
    requires PendingFromHistory(s, moments) && Step(limits, s, m, s')
    ensures "" !in s'.pending
  {
    StepFromHistory(limits, s, m, s', moments);
    if "" in s'.pending {
      BindingNamed(moments + [m], "");
    }
  }

  lemma ClockFront(moments: seq<Moment>)
    requires moments != [] && ClockNondecreasing(moments)
    ensures ClockNondecreasing(moments[..|moments| - 1])
    ensures LastReading(moments[..|moments| - 1]) <= moments[|moments| - 1].now == LastReading(moments)
  {
  }

  /** With a nondecreasing clock the cache has exactly the bindings that are alive
      according to the history. */
  lemma {:induction false} RunAgrees(limits: Limits, states: seq<State>, moments: seq<Moment>)
    requires IsRun(limits, states, moments) && ClockNondecreasing(moments)
    ensures AgreesOnAll(limits, states[|moments|], moments, LastReading(moments))
  {
    if moments != [] {
      var n := |moments| - 1;
      ClockFront(moments);
      RunAgrees(limits, states[..n + 1], moments[..n]);
      RunFromHistory(limits, states[..n + 1], moments[..n]);
      assert moments == moments[..n] + [moments[n]];
      var s', at := states[n + 1], moments[n].now;
      forall id
        ensures Agrees(limits, s', moments, at, id)
      {
        StepAgrees(limits, states[n], moments[n], s', moments[..n], LastReading(moments[..n]), id);
      }
    }
  }

  /** A request is pending exactly when it was bound under two hours ago and since
      then was neither forgotten, replaced nor evicted. */
  lemma PendingIffAlive(limits: Limits, states: seq<State>, moments: seq<Moment>, id: string, now: Time)
    requires IsRun(limits, states, moments) && ClockNondecreasing(moments) && LastReading(moments) <= now
    ensures id in Purged(states[|moments|], now).pending <==> Alive(limits, moments, id, now)
  {
    RunAgrees(limits, states, moments);
    assert Agrees(limits, states[|moments|], moments, LastReading(moments), id);
    assert Pending(states[|moments|], id, now) <==> Alive(limits, moments, id, now);
  }

  // ---- The log of the history --------------------------------------------

  /** What the response is accepted as after this history, if it is. */
  ghost function Accepting(limits: Limits, moments: seq<Moment>, m: Moment): Option<Capture> {
    if m.op.Store? && Alive(limits, moments, m.op.id, m.now) then
      var b := BindingOf(moments, m.op.id).value;
      if |m.op.values| == 1
         && LengthFits(limits, m.op.values[0], NamedPlan(m.op.plan, b))
      then Some(Capture(b.key, m.op.values[0], m.now))
      else None
    else None
  }

  ghost function History(limits: Limits, moments: seq<Moment>): seq<Capture> {
    if moments == [] then []
    else
      var n := |moments| - 1;
      Extended(History(limits, moments[..n]), Accepting(limits, moments[..n], moments[n]))
  }

  lemma CapturedIsAccepting(limits: Limits, s: State, m: Moment, moments: seq<Moment>)
    requires AgreesOnAll(limits, s, moments, m.now) && PendingFromHistory(s, moments)
    ensures Captured(limits, s, m) == Accepting(limits, moments, m)
  {
    if m.op.Store? {
      var id := m.op.id;
      assert Agrees(limits, s, moments, m.now, id);
      assert Pending(s, id, m.now) <==> Alive(limits, moments, id, m.now);
      if Pending(s, id, m.now) {
        BindingNamed(moments, id);
      }
    }
  }

  lemma AgreesLater(limits: Limits, s: State, moments: seq<Moment>, from: Time, later: Time)
    requires AgreesOnAll(limits, s, moments, from) && from <= later
    ensures AgreesOnAll(limits, s, moments, later)
  {
    forall x ensures Agrees(limits, s, moments, later, x) {
      assert Agrees(limits, s, moments, from, x);
    }
  }

  /** The captures of a run are the responses that the history accepts. */
  lemma {:induction false} LogIsHistory(limits: Limits, states: seq<State>, moments: seq<Moment>)
    requires IsRun(limits, states, moments) && ClockNondecreasing(moments)
    ensures Log(limits, states, moments) == History(limits, moments)
  {
    if moments != [] {
      var n := |moments| - 1;
      ClockFront(moments);
      LogIsHistory(limits, states[..n + 1], moments[..n]);
      RunAgrees(limits, states[..n + 1], moments[..n]);
      RunFromHistory(limits, states[..n + 1], moments[..n]);
      AgreesLater(limits, states[n], moments[..n], LastReading(moments[..n]), moments[n].now);
      CapturedIsAccepting(limits, states[n], moments[n], moments[..n]);
    }
  }

  /** What a lookup finds, from the history of operations alone. */
  lemma LookupRefinesHistory(limits: Limits, states: seq<State>, moments: seq<Moment>, k: Key, now: Time)
    requires IsRun(limits, states, moments) && ClockNondecreasing(moments)
    requires CapturesIncreasing(History(limits, moments))
    requires LastReading(moments) <= now && ValidKey(k)
    ensures LookedUp(states[|moments|], k, now).1 == LogLookup(limits, History(limits, moments), k, now)
  {
    LogIsHistory(limits, states, moments);
    LookupRefinesLog(limits, states, moments, k, now);
  }
}
