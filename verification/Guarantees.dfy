/** What callers of the engine may rely on: precise watchdogs, tombstones,
    scheduling coverage, discovery and ownership. */
module Guarantees {
  import opened Base
  import opened PrewarmConfig
  import opened Plans
  import opened ProbeBudget
  import opened Completions
  import opened EngineState
  import opened EngineInvariants
  import opened ProxyPool
  import opened Protocol
  import opened Evidence
  import opened Invariants
  import opened Preservation
  import opened Runs

  // ---- Watchdogs ---------------------------------------------------------

  predicate IsCallback(ev: Event, id: string) {
    (ev.ResponseHeaders? || ev.ResponseChunk? || ev.ResponseJSON? || ev.RequestComplete?) && ev.id == id
  }

  predicate SameRecord(e: State, e': State, k: Key) {
    (k in e'.records <==> k in e.records) && (k in e.records ==> e'.records[k] == e.records[k])
  }

  /** The observation is live and of the ticket that the key holds. */
  predicate Watches(e: State, o: Observation) {
    o.observer.Some? && e.HasTicket(o.key) && e.records[o.key].value.value.version == o.version
  }

  lemma InvalidateOnlyWatched(e: State, o: Observation, now: Time)
    ensures !Watches(e, o) ==> Invalidate(e, o, now) == e
    ensures Watches(e, o) ==> !Invalidate(e, o, now).HasTicket(o.key)
    ensures forall k | k != o.key :: SameRecord(e, Invalidate(e, o, now), k)
  {
    if Watches(e, o) {
      var e1 := Withdraw(e, o.key);
      var e2 := e1.(records := e1.records[o.key := e1.records[o.key].(cooldown := 0)]);
      EnqueueShape(e2, o.key, now);
      forall k | k != o.key
        ensures SameRecord(e, Enqueue(e2, o.key, now), k)
      {
      }
    }
  }

  /** The verdict of a callback: the observation as it stands, if it revokes. */
  ghost function Verdict(env: Env, e: State, ev: Event): Option<Observation> {
    match ev
    case ResponseHeaders(id, h) =>
      if id in e.requests && HeadersContradict(h, e.PlanOf(e.requests[id].key)) then Some(e.requests[id]) else None
    case ResponseChunk(id, bytes) =>
      if id in e.requests && e.requests[id].observer.Some?
         && AfterFeed(e.requests[id].observer.value, env.decode, bytes).Mismatch() then Some(e.requests[id]) else None
    case ResponseJSON(id, bytes) =>
      if id in e.requests && e.requests[id].observer.Some?
         && AfterJSON(e.requests[id].observer.value, env.decode, bytes).Mismatch() then Some(e.requests[id]) else None
    case RequestComplete(id) =>
      if id in e.requests && e.requests[id].observer.Some?
         && AfterFinish(e.requests[id].observer.value, env.decode).Mismatch() then Some(e.requests[id]) else None
    case _ => None
  }

  lemma ObservedRecords(e: State, id: string, p: Parser, now: Time)
    requires id in e.requests && e.requests[id].observer.Some?
    ensures var e' := Observed(e, id, p, now);
            var o := e.requests[id];
            && (p.Mismatch() && Watches(e, o) ==> !e'.HasTicket(o.key))
            && (!(p.Mismatch() && Watches(e, o)) ==>
                  e'.records == e.records && e'.queue == e.queue && e'.epoch == e.epoch)
            && forall k | k != o.key :: SameRecord(e, e', k)
  {
    var o := e.requests[id].(observer := Some(p));
    var e1 := e.(requests := e.requests[id := o]);
    InvalidateOnlyWatched(e1, o, now);
    forall k | k != o.key ensures SameRecord(e, Observed(e, id, p, now), k) {
      assert p.Mismatch() ==> SameRecord(e1, Invalidate(e1, o, now), k);
    }
  }

  /** What a verdict, if there is one, does to the records. */
  ghost predicate Acted(e: State, e': State, verdict: Option<Observation>) {
    && (verdict.Some? && Watches(e, verdict.value) ==> !e'.HasTicket(verdict.value.key))
    && (verdict.None? || !Watches(e, verdict.value) ==>
          e'.records == e.records && e'.queue == e.queue && e'.epoch == e.epoch)
    && (verdict.Some? ==> forall k | k != verdict.value.key :: SameRecord(e, e', k))
  }

  lemma HeadersAct(env: Env, e: State, id: string, h: Headers, now: Time)
    ensures Acted(e, OnHeaders(e, id, h, now), Verdict(env, e, ResponseHeaders(id, h)))
  {
    if id in e.requests {
      RevokingMeans(h, e.PlanOf(e.requests[id].key));
      InvalidateOnlyWatched(e, e.requests[id], now);
    }
  }

  lemma ChunkActs(env: Env, e: State, id: string, bytes: Bytes, now: Time)
    ensures Acted(e, OnChunk(e, id, bytes, env.decode, now), Verdict(env, e, ResponseChunk(id, bytes)))
  {
    if id in e.requests && e.requests[id].observer.Some? {
      ObservedRecords(e, id, AfterFeed(e.requests[id].observer.value, env.decode, bytes), now);
    }
  }

  lemma JSONActs(env: Env, e: State, id: string, bytes: Bytes, now: Time)
    ensures Acted(e, OnJSON(e, id, bytes, env.decode, now), Verdict(env, e, ResponseJSON(id, bytes)))
  {
    if id in e.requests && e.requests[id].observer.Some? {
      ObservedRecords(e, id, AfterJSON(e.requests[id].observer.value, env.decode, bytes), now);
    }
  }

  lemma ActedElsewhere(e: State, e': State, verdict: Option<Observation>, requests: map<string, Observation>)
    requires Acted(e, e', verdict)
    ensures Acted(e, e'.(requests := requests), verdict)
  {
    if verdict.Some? {
      forall k | k != verdict.value.key ensures SameRecord(e, e'.(requests := requests), k) {
        assert SameRecord(e, e', k);
      }
    }
  }

  lemma CompleteActs(env: Env, e: State, id: string, now: Time)
    ensures Acted(e, OnComplete(e, id, env.decode, now), Verdict(env, e, RequestComplete(id)))
  {
    if id in e.requests && e.requests[id].observer.Some? {
      var p := AfterFinish(e.requests[id].observer.value, env.decode);
      ObservedRecords(e, id, p, now);
      var e1 := Observed(e, id, p, now);
      ActedElsewhere(e, e1, Verdict(env, e, RequestComplete(id)), e1.requests - {id});
    }
  }

  lemma CallbackRecords(env: Env, s: System, ev: Event, id: string, now: Time)
    requires Enabled(env, s, ev, now) && IsCallback(ev, id)
    ensures Acted(s.engine, Next(env, s, ev, now).engine, Verdict(env, s.engine, ev))
  {
    match ev
    case ResponseHeaders(_, h) => HeadersAct(env, s.engine, id, h, now);
    case ResponseChunk(_, bytes) => ChunkActs(env, s.engine, id, bytes, now);
    case ResponseJSON(_, bytes) => JSONActs(env, s.engine, id, bytes, now);
    case RequestComplete(_) => CompleteActs(env, s.engine, id, now);
  }

  /** The callback's verdict is against the ticket that the key holds, and that is
      the ticket that was handed out for the callback's request. */
  ghost predicate Condemns(env: Env, s: System, ev: Event, id: string, k: Key) {
    var verdict := Verdict(env, s.engine, ev);
    && verdict.Some? && verdict.value.observer.Some? && verdict.value.key == k
    && s.engine.HasTicket(k) && id in s.handed && s.engine.records[k].value.value == s.handed[id]
  }

  lemma WatchedIsHanded(env: Env, s: System, id: string)
    requires ObservationsOk(s.engine.requests, s.published, s.handed) && TicketsOk(s.engine, s.published)
    requires id in s.engine.requests
    ensures var o := s.engine.requests[id];
            Watches(s.engine, o) <==> o.observer.Some? && s.engine.HasTicket(o.key)
                                      && s.engine.records[o.key].value.value == s.handed[id]
  {
    var o := s.engine.requests[id];
    assert ObservationOk(o, s.published, s.handed[id]);
    if s.engine.HasTicket(o.key) {
      assert Issued(s.published, o.key, s.engine.records[o.key].value.value);
    }
  }

  lemma VerdictIsOwn(env: Env, e: State, ev: Event, id: string)
    requires IsCallback(ev, id) && Verdict(env, e, ev).Some?
    ensures id in e.requests && Verdict(env, e, ev).value == e.requests[id]
  {
  }

  lemma WatchdogActs(env: Env, s: System, ev: Event, id: string, now: Time, k: Key)
    requires ObservationsOk(s.engine.requests, s.published, s.handed) && TicketsOk(s.engine, s.published)
    requires Enabled(env, s, ev, now) && IsCallback(ev, id)
    ensures Condemns(env, s, ev, id, k) ==> !Next(env, s, ev, now).engine.HasTicket(k)
    ensures !Condemns(env, s, ev, id, k) ==> SameRecord(s.engine, Next(env, s, ev, now).engine, k)
  {
    CallbackRecords(env, s, ev, id, now);
    if Verdict(env, s.engine, ev).Some? {
      VerdictIsOwn(env, s.engine, ev, id);
      WatchedIsHanded(env, s, id);
    }
  }

  /** A callback touches a record only to revoke the very ticket that was handed
      out for its request, and it does so exactly when its verdict is against that
      ticket. Any other ticket, a renewed one in particular, keeps its record. */
  lemma WatchdogIsPrecise(env: Env, s: System, ev: Event, id: string, now: Time, k: Key)
    requires Inv(env, s) && Enabled(env, s, ev, now) && IsCallback(ev, id)
    ensures Condemns(env, s, ev, id, k) ==> !Next(env, s, ev, now).engine.HasTicket(k)
    ensures !Condemns(env, s, ev, id, k) ==> SameRecord(s.engine, Next(env, s, ev, now).engine, k)
  {
    WatchdogActs(env, s, ev, id, now, k);
  }

  /** The occurrence is a Bind of the request that hits with the ticket. */
  ghost predicate HandsTo(env: Env, s: System, o: Occurrence, id: string, t: Ticket) {
    && o.event.BindRequest? && o.event.id == id
    && Bind(env.cfg, s.engine, id, o.event.key, Described(o.event.reply), o.event.callerState, o.now).1 == Some(t)
  }

  ghost predicate HandedFrom(env: Env, s: System, o: Occurrence, s': System, id: string) {
    id in s'.handed ==>
      HandsTo(env, s, o, id, s'.handed[id]) || (id in s.handed && s.handed[id] == s'.handed[id])
  }

  lemma HandedStep(env: Env, s: System, o: Occurrence, s': System, id: string)
    requires Occurs(env, s, o, s')
    ensures HandedFrom(env, s, o, s', id)
  {
  }

  lemma {:induction false} HandedEarlier(env: Env, states: seq<System>, occurrences: seq<Occurrence>, i: nat,
                                         id: string)
    requires |states| == |occurrences| + 1 && states[0].handed == map[] && i < |states| && id in states[i].handed
    requires forall p | 0 <= p < |occurrences| :: HandedFrom(env, states[p], occurrences[p], states[p + 1], id)
    ensures exists b | 0 <= b < i :: HandsTo(env, states[b], occurrences[b], id, states[i].handed[id])
  {
    assert HandedFrom(env, states[i - 1], occurrences[i - 1], states[i], id);
    if !HandsTo(env, states[i - 1], occurrences[i - 1], id, states[i].handed[id]) {
      HandedEarlier(env, states, occurrences, i - 1, id);
    }
  }

  /** What was last handed out for a request was handed out by a Bind of the run. */
  lemma HandedByBind(env: Env, states: seq<System>, occurrences: seq<Occurrence>, i: nat, id: string)
    requires IsRun(env, states, occurrences) && i < |states| && id in states[i].handed
    ensures exists b | 0 <= b < i :: HandsTo(env, states[b], occurrences[b], id, states[i].handed[id])
  {
    forall p | 0 <= p < |occurrences|
      ensures HandedFrom(env, states[p], occurrences[p], states[p + 1], id)
    {
      HandedStep(env, states[p], occurrences[p], states[p + 1], id);
    }
    HandedEarlier(env, states, occurrences, i, id);
  }

  // ---- Tombstones --------------------------------------------------------

  predicate Tombstoned(e: State, id: string) {
    id in e.requests && e.requests[id].observer.None?
  }

  /** The scheduler found the observation to be more than two hours old. */
  predicate Purges(e: State, ev: Event, now: Time, id: string) {
    ev.Scheduler? && id in e.requests && e.requests[id].created + 2 * HOUR < now
  }

  /** Binding a request that is already observed, managed or not, tombstones it. */
  lemma RebindTombstones(env: Env, s: System, ev: Event, now: Time)
    requires Enabled(env, s, ev, now) && ev.BindRequest? && ev.id in s.engine.requests
    ensures var e' := Next(env, s, ev, now).engine;
            Tombstoned(e', ev.id) && e'.requests[ev.id].created == now
  {
    var reply := Described(ev.reply);
    var e, id, k := s.engine, ev.id, ev.key;
    var e1 := Tombstone(e, id, now);
    if !e1.closed && k in e1.plans && k in e1.records {
      DropStaleShape(env.cfg, e1, k, reply, now);
      OfferRequests(env.cfg, DropStale(env.cfg, e1, k, reply, now), id, k, None, ev.callerState, now);
    }
  }

  /** A callback for a tombstoned request does nothing at all. */
  lemma TombstoneIsDeaf(env: Env, s: System, ev: Event, now: Time, id: string)
    requires Enabled(env, s, ev, now) && IsCallback(ev, id) && Tombstoned(s.engine, id)
    ensures Next(env, s, ev, now).engine == s.engine
  {
    InvalidateOnlyWatched(s.engine, s.engine.requests[id], now);
  }

  predicate KeepsRequest(e: State, e': State, id: string)
    requires id in e.requests
  {
    id in e'.requests && e'.requests[id] == e.requests[id]
  }

  lemma OtherBindKeepsRequest(cfg: Config, e: State, other: string, k: Key, reply: Option<Identity>,
                              callerState: bool, now: Time, id: string)
    requires id in e.requests && id != other
    ensures KeepsRequest(e, Bind(cfg, e, other, k, reply, callerState, now).0, id)
  {
    var e1 := Tombstone(e, other, now);
    if !e1.closed && k in e1.plans && k in e1.records {
      DropStaleShape(cfg, e1, k, reply, now);
      OfferRequests(cfg, DropStale(cfg, e1, k, reply, now), other, k,
                    if other in e.requests then None else Some(NewParser(k.model)), callerState, now);
    }
  }

  lemma OtherChunkKeepsRequest(cfg: Config, e: State, other: string, bytes: Bytes, decode: Decoder, now: Time,
                               id: string)
    requires WellFormed(cfg, e) && id in e.requests && id != other
    ensures KeepsRequest(e, OnChunk(e, other, bytes, decode, now), id)
    ensures KeepsRequest(e, OnJSON(e, other, bytes, decode, now), id)
  {
    if other in e.requests && e.requests[other].observer.Some? {
      ObservedKeeps(cfg, e, other, AfterFeed(e.requests[other].observer.value, decode, bytes), now);
      ObservedKeeps(cfg, e, other, AfterJSON(e.requests[other].observer.value, decode, bytes), now);
    }
  }

  lemma ElsewhereKeepsRequest(env: Env, s: System, ev: Event, now: Time, id: string)
    requires WellFormed(env.cfg, s.engine) && Enabled(env, s, ev, now) && id in s.engine.requests
    requires !(ev.BindRequest? && ev.id == id) && !IsCallback(ev, id) && !ev.Scheduler? && !ev.Work?
    ensures KeepsRequest(s.engine, Next(env, s, ev, now).engine, id)
  {
    var e := s.engine;
    match ev
    case Discovery(_, _) =>
    case BindRequest(other, k, reply, callerState) =>
      OtherBindKeepsRequest(env.cfg, e, other, k, Described(reply), callerState, now, id);
    case ResponseHeaders(other, h) => HeadersKeep(env.cfg, e, other, h, now);
    case ResponseChunk(other, bytes) => OtherChunkKeepsRequest(env.cfg, e, other, bytes, env.decode, now, id);
    case ResponseJSON(other, bytes) => OtherChunkKeepsRequest(env.cfg, e, other, bytes, env.decode, now, id);
    case RequestComplete(other) => CompleteKeeps(env.cfg, e, other, env.decode, now);
    case _ =>
  }

  /** What decides which keys are managed has not moved. */
  predicate SameManagement(e: State, e': State) {
    && e'.plans == e.plans && e'.owned == e.owned
    && e'.ownsAllModels == e.ownsAllModels && e'.discoveryCount == e.discoveryCount
  }

  /** A worker leaves the requests and the management of keys alone. */
  predicate LeavesAlone(e: State, e': State) {
    e'.requests == e.requests && SameManagement(e, e')
  }

  lemma PoolLeavesAlone(e: State, pool: Pool, lastProxy: map<Key, int>)
    ensures LeavesAlone(e, e.(pool := pool, lastProxy := lastProxy))
  {
  }

  lemma ChoiceLeavesAlone(e: State, k: Key, now: Time)
    requires e.pool.Valid()
    ensures LeavesAlone(e, ChooseProxy(e, k, now).0)
  {
    var (pool, index) := Choose(e.pool, now);
    PoolLeavesAlone(e, pool, if index >= 0 then e.lastProxy[k := index] else e.lastProxy);
  }

  lemma ChoosingLeavesAlone(env: Env, e: State, budget: seq<Time>, job: Job, phase: Phase, input: Input, now: Time)
    requires e.pool.Valid() && phase.Choosing?
    ensures LeavesAlone(e, Advance(env, e, budget, job, phase, input, now).engine)
  {
    ChoosingAdvance(env, e, budget, job, phase, input, now);
    ChoiceLeavesAlone(e, job.key, now);
  }

  lemma ChoresLeaveAlone(env: Env, e: State, budget: seq<Time>, job: Job, phase: Phase, input: Input, now: Time)
    requires e.pool.Valid() && phase.Settling? && phase.chores != []
    ensures LeavesAlone(e, Advance(env, e, budget, job, phase, input, now).engine)
  {
    match phase.chores[0]
    case Note(_) =>
    case Mark(_, _) =>
  }

  lemma QuietAdvance(env: Env, e: State, budget: seq<Time>, job: Job, phase: Phase, input: Input, now: Time)
    requires e.pool.Valid() && Ordinary(env, e, job, phase, now)
    ensures LeavesAlone(e, Advance(env, e, budget, job, phase, input, now).engine)
  {
    if phase.Choosing? {
      ChoosingLeavesAlone(env, e, budget, job, phase, input, now);
    } else if phase.Settling? && phase.chores != [] {
      ChoresLeaveAlone(env, e, budget, job, phase, input, now);
    } else {
      OrdinaryElsewhere(env, e, budget, job, phase, input, now);
    }
  }

  lemma WorkLeavesAlone(env: Env, s: System, w: nat, input: Input, now: Time)
    requires w < |s.workers| && s.workers[w].Busy? && s.engine.pool.Valid()
    ensures LeavesAlone(s.engine, DoWork(env, s, w, input, now).engine)
  {
    var me := s.workers[w];
    if Ordinary(env, s.engine, me.job, me.phase, now) {
      QuietAdvance(env, s.engine, s.budget, me.job, me.phase, input, now);
    } else if me.phase.Done? {
      EpilogueWork(env, s, w, input, now);
      EpilogueShape(env.cfg, s.engine, me.job, me.phase.reason, now);
    } else {
      PublishWork(env, s, w, input, now);
    }
  }

  lemma ScheduleKeepsTombstone(cfg: Config, e: State, order: seq<Key>, now: Time, id: string)
    requires WellFormed(cfg, e) && Tombstoned(e, id) && now <= e.requests[id].created + 2 * HOUR
    ensures Tombstoned(Schedule(cfg, e, order, now), id)
  {
    ScheduleKeeps(cfg, e, order, now);
  }

  /** A tombstone outlives every event except the purge of the scheduler. */
  lemma TombstoneStep(env: Env, s: System, ev: Event, now: Time, id: string)
    requires WellFormed(env.cfg, s.engine) && Enabled(env, s, ev, now) && Tombstoned(s.engine, id)
    ensures Purges(s.engine, ev, now, id) || Tombstoned(Next(env, s, ev, now).engine, id)
  {
    if IsCallback(ev, id) {
      TombstoneIsDeaf(env, s, ev, now, id);
    } else if ev.BindRequest? && ev.id == id {
      RebindTombstones(env, s, ev, now);
    } else if ev.Scheduler? {
      if !Purges(s.engine, ev, now, id) {
        ScheduleKeepsTombstone(env.cfg, s.engine, ev.order, now, id);
      }
    } else if ev.Work? {
      WorkLeavesAlone(env, s.(clock := now), ev.w, ev.input, now);
    } else {
      ElsewhereKeepsRequest(env, s, ev, now, id);
    }
  }

  lemma TombstoneOccurs(env: Env, s: System, o: Occurrence, s': System, id: string)
    requires WellFormed(env.cfg, s.engine) && Occurs(env, s, o, s') && Tombstoned(s.engine, id)
    ensures Purges(s.engine, o.event, o.now, id) || Tombstoned(s'.engine, id)
    ensures IsCallback(o.event, id) ==> s'.engine == s.engine
  {
    TombstoneStep(env, s, o.event, o.now, id);
    if IsCallback(o.event, id) {
      TombstoneIsDeaf(env, s, o.event, o.now, id);
    }
  }

  lemma TombstoneAt(env: Env, states: seq<System>, occurrences: seq<Occurrence>, p: nat, id: string)
    requires IsRun(env, states, occurrences) && p < |occurrences| && Tombstoned(states[p].engine, id)
    ensures Purges(states[p].engine, occurrences[p].event, occurrences[p].now, id)
            || Tombstoned(states[p + 1].engine, id)
    ensures IsCallback(occurrences[p].event, id) ==> states[p + 1].engine == states[p].engine
  {
    RunWellFormed(env, states, occurrences, p);
    TombstoneOccurs(env, states[p], occurrences[p], states[p + 1], id);
  }

  lemma {:induction false} TombstonesPersist(states: seq<System>, i: nat, j: nat, id: string)
    requires i <= j < |states| && Tombstoned(states[i].engine, id)
    requires forall p | i <= p < j :: Tombstoned(states[p].engine, id) ==> Tombstoned(states[p + 1].engine, id)
    ensures Tombstoned(states[j].engine, id)
  {
    if i < j {
      TombstonesPersist(states, i, j - 1, id);
    }
  }

  /** Until the scheduler purges it after more than two hours, a tombstoned
      request revokes nothing, whatever rebinds and completions follow. */
  lemma TombstoneLasts(env: Env, states: seq<System>, occurrences: seq<Occurrence>, i: nat, j: nat, id: string)
    requires IsRun(env, states, occurrences) && i <= j < |states| && Tombstoned(states[i].engine, id)
    requires forall p | i <= p < j :: !Purges(states[p].engine, occurrences[p].event, occurrences[p].now, id)
    ensures Tombstoned(states[j].engine, id)
    ensures j < |occurrences| && IsCallback(occurrences[j].event, id) ==> states[j + 1].engine == states[j].engine
  {
    forall p | i <= p < j && Tombstoned(states[p].engine, id)
      ensures Tombstoned(states[p + 1].engine, id)
    {
      TombstoneAt(env, states, occurrences, p, id);
    }
    TombstonesPersist(states, i, j, id);
    if j < |occurrences| {
      TombstoneAt(env, states, occurrences, j, id);
    }
  }

  // ---- Coverage ----------------------------------------------------------

  /** The key is looked after: its ticket is not due, or work on it is under way
      or cannot be started now. */
  predicate Covered(cfg: Config, e: State, k: Key, now: Time) {
    k in e.records && (Lasting(cfg, e.records[k], now) || e.records[k].running
                       || now < e.records[k].cooldown || |e.queue| >= e.capacity)
  }

  /** The record has a ticket that outlives the refresh window. */
  predicate Lasting(cfg: Config, r: Record, now: Time) {
    r.value.Some? && now + cfg.refreshBefore < r.value.value.expires
  }

  lemma EnqueueCovers(cfg: Config, e: State, k: Key, x: Key, now: Time)
    requires !e.closed && x in e.records
    ensures k == x && k in e.plans ==> Covered(cfg, Enqueue(e, k, now), k, now)
    ensures Covered(cfg, e, x, now) ==> Covered(cfg, Enqueue(e, k, now), x, now)
  {
    EnqueueShape(e, k, now);
  }

  lemma {:induction false} OrderCovers(cfg: Config, e: State, order: seq<Key>, now: Time, k: Key)
    requires !e.closed && k in e.plans && k in e.records && (k in order || Covered(cfg, e, k, now))
    ensures Covered(cfg, EnqueueDue(cfg, e, order, now), k, now)
    decreases |order|
  {
    if order != [] {
      var x := order[0];
      var next := if x in e.records && Due(cfg, e.records[x], now) then Enqueue(e, x, now) else e;
      EnqueueShape(e, x, now);
      EnqueueCovers(cfg, e, x, k, now);
      assert k in order && k != x ==> k in order[1..];
      OrderCovers(cfg, next, order[1..], now, k);
    }
  }

  /** After a scheduler pass every managed key has a ticket that is not due, or a
      job under way, or is cooling down, or found the queue full. */
  lemma ScheduleCovers(cfg: Config, e: State, order: seq<Key>, now: Time, k: Key)
    requires WellFormed(cfg, e) && !e.closed && Visits(order, e.records.Keys) && k in e.plans
    ensures Covered(cfg, Schedule(cfg, e, order, now), k, now)
  {
    assert k in e.records.Keys;
    OrderCovers(cfg, PurgeRequests(e, now), order, now, k);
  }

  /** A revocation starts the next acquisition at once, unless one is under way
      or the queue is full. */
  lemma RevocationRestarts(e: State, o: Observation, now: Time)
    requires Watches(e, o) && !e.closed && o.key in e.plans
    ensures Invalidate(e, o, now).Running(o.key) || |e.queue| >= e.capacity
    ensures !Invalidate(e, o, now).HasTicket(o.key)
  {
    InvalidateOnlyWatched(e, o, now);
  }

  /** A request that finds no usable ticket of a planned key has work started for
      it, unless work is under way, cooling down or out of room. */
  lemma MissRestarts(cfg: Config, e: State, id: string, k: Key, reply: Option<Identity>, callerState: bool, now: Time)
    requires !e.closed && k in e.plans && k in e.records
    ensures var e' := Bind(cfg, e, id, k, reply, callerState, now).0;
            e'.HasTicket(k) || Covered(cfg, e', k, now)
  {
    var e1 := Tombstone(e, id, now);
    DropStaleShape(cfg, e1, k, reply, now);
    var e2 := DropStale(cfg, e1, k, reply, now);
    if !e2.HasTicket(k) {
      EnqueueCovers(cfg, e2, k, k, now);
    }
  }

  /** A failed job of the record's own epoch keeps the key from being enqueued for
      the configured time; that of an older epoch leaves its cooldown alone. */
  lemma FailureCoolsDown(cfg: Config, e: State, j: Job, reason: string, now: Time, later: Time)
    requires !e.closed && j.key in e.plans && j.key in e.records && reason != "ready"
    ensures var e' := Epilogue(cfg, e, j, reason, now);
            && (e.records[j.key].epoch == j.epoch && later < now + cfg.cooldown ==> Enqueue(e', j.key, later) == e')
            && (e.records[j.key].epoch != j.epoch ==> e'.records[j.key].cooldown == e.records[j.key].cooldown)
  {
    EpilogueShape(cfg, e, j, reason, now);
  }

  lemma {:induction false} QueueFits(q: seq<Job>, keys: set<Key>)
    requires forall k :: Count(q, k) <= Flag(k in keys)
    ensures |q| <= |keys|
  {
    if q != [] {
      var k, front := q[|q| - 1].key, q[..|q| - 1];
      assert Count(q, k) == Count(front, k) + 1;
      assert k in keys;
      forall x ensures Count(front, x) <= Flag(x in keys - {k}) {
        assert Count(q, x) <= Flag(x in keys);
      }
      QueueFits(front, keys - {k});
    }
  }

  lemma QueueRoom(cfg: Config, e: State, ws: seq<Worker>, k: Key)
    requires ModeOk(cfg, e) && SingleFlight(e, ws) && !cfg.AutoAccounts()
    requires k in e.records && !e.records[k].running
    ensures |e.queue| < e.capacity
  {
    var running := set x | x in e.records && e.records[x].running;
    forall x ensures Count(e.queue, x) <= Flag(x in running) {
      assert Count(e.queue, x) + BusyCount(ws, x) == Flag(e.Running(x));
    }
    QueueFits(e.queue, running);
    SubsetSize(running, e.records.Keys - {k});
    assert e.capacity == |e.plans.Keys|;
  }

  /** With explicit accounts the queue has room for every record that is not
      running, so no key is ever turned away. */
  lemma ExplicitQueueHasRoom(env: Env, s: System, k: Key)
    requires Inv(env, s) && !env.cfg.AutoAccounts() && k in s.engine.records && !s.engine.records[k].running
    ensures |s.engine.queue| < s.engine.capacity
  {
    QueueRoom(env.cfg, s.engine, s.workers, k);
  }

  // ---- Discovery ---------------------------------------------------------

  /** An accepted snapshot, key by key: an unchanged plan keeps its record, with
      ticket and epoch; an added or changed one starts without ticket and
      cooldown and with an epoch above every record and every job; a removed one
      survives only while it is running, and without a ticket. */
  lemma SnapshotByKey(env: Env, s: System, accounts: seq<Account>, e': State, k: Key)
    requires Inv(env, s) && ValidSnapshot(accounts) && !s.engine.closed && Snapshot(env.cfg, s.engine, accounts, e')
    ensures var e := s.engine;
            var desired := Desired(env.cfg, accounts);
            && e'.plans == desired
            && (k in desired && k in e.plans && e.plans[k] == desired[k] ==>
                  k in e'.records && e'.records[k] == e.records[k])
            && (k in desired && !(k in e.plans && e.plans[k] == desired[k]) ==>
                  && k in e'.records && e'.records[k].value.None? && e'.records[k].cooldown == 0
                  && (forall x | x in e.records :: e.records[x].epoch < e'.records[k].epoch)
                  && (forall j <- e.queue :: j.epoch < e'.records[k].epoch)
                  && (forall w <- s.workers :: w.Busy? ==> w.job.epoch < e'.records[k].epoch))
            && (k !in desired && k in e'.records ==> e'.records[k].running && e'.records[k].value.None?)
            && (k !in desired && !e.Running(k) ==> k !in e'.records)
  {
    var e := s.engine;
    assert RecordApplied(e, e', Desired(env.cfg, accounts), k);
    if k in e.records {
      assert RecordOk(e, k);
    }
    forall x | x in e.records ensures e.records[x].epoch <= e.epoch {
      assert RecordOk(e, x);
    }
    forall j | JobOk(e, j) ensures j.epoch <= e.epoch { }
  }

  /** A snapshot of what is already there. */
  lemma AppliedAgain(cfg: Config, e: State, accounts: seq<Account>, e': State)
    requires Applied(cfg, e, accounts, e') && e.plans == Desired(cfg, accounts)
    requires OwnedAfter(cfg, e, accounts) == (e.owned, e.ownsAllModels) && e.discoveryCount == Eligible(cfg, accounts)
    ensures e' == e
  {
    var desired := Desired(cfg, accounts);
    forall k
      ensures SameRecord(e, e', k)
    {
      assert RecordApplied(e, e', desired, k);
    }
    SameRecordsMap(e, e');
    assert Dropped(e, desired) == {};
    assert e.lastProxy - {} == e.lastProxy && e.lastFailure - {} == e.lastFailure;
  }

  lemma SameRecordsMap(e: State, e': State)
    requires forall k :: SameRecord(e, e', k)
    ensures e'.records == e.records
  {
    assert forall k | k in e.records :: SameRecord(e, e', k);
    assert forall k | k in e'.records :: SameRecord(e, e', k);
  }

  /** Finding the same accounts again changes nothing, so a refresh costs no ticket. */
  lemma RepeatedSnapshot(cfg: Config, e: State, accounts: seq<Account>, e1: State, e2: State)
    requires !e.closed && Snapshot(cfg, e, accounts, e1) && Snapshot(cfg, e1, accounts, e2)
    ensures e2 == e1
  {
    if ValidSnapshot(accounts) {
      ClaimTwice(cfg, e, SelectedKeys(cfg, accounts), e1);
      AppliedAgain(cfg, e1, accounts, e2);
    }
  }

  lemma ClaimTwice(cfg: Config, e: State, selected: set<Key>, e1: State)
    requires (e1.owned, e1.ownsAllModels) == OwnedWith(cfg, e, selected)
    ensures OwnedWith(cfg, e1, selected) == (e1.owned, e1.ownsAllModels)
  {
    assert (e.owned + selected) + selected == e.owned + selected;
  }

  /** The plan of a selected key is that of its account in the snapshot. */
  lemma {:induction false} PlanForMember(accounts: seq<Account>, i: nat)
    requires i < |accounts| && forall x, y | 0 <= x < y < |accounts| :: accounts[x].authID != accounts[y].authID
    ensures PlanFor(accounts, accounts[i].authID) == accounts[i].plan
  {
    if i < |accounts| - 1 {
      PlanForMember(accounts[..|accounts| - 1], i);
    }
  }

  /** The desired plans are those of the selected accounts with a known plan,
      for every configured model, and no others. */
  lemma DesiredIsSelected(cfg: Config, accounts: seq<Account>, k: Key, plan: string)
    requires ValidSnapshot(accounts)
    ensures (k in Desired(cfg, accounts) && Desired(cfg, accounts)[k] == plan)
       <==> exists i | 0 <= i < |accounts| ::
              && accounts[i].authID == k.authID && accounts[i].plan == plan && plan != ""
              && cfg.Selected(accounts[i]) && k.model in cfg.models
  {
    if k in SelectedKeys(cfg, accounts) {
      var a :| a in accounts && cfg.Selected(a) && k == Key(a.authID, k.model) && k.model in cfg.models;
      var i :| 0 <= i < |accounts| && accounts[i] == a;
      PlanForMember(accounts, i);
    }
    forall i | 0 <= i < |accounts| && accounts[i].authID == k.authID
               && cfg.Selected(accounts[i]) && k.model in cfg.models
      ensures k in SelectedKeys(cfg, accounts) && PlanFor(accounts, k.authID) == accounts[i].plan
    {
      PlanForMember(accounts, i);
      assert accounts[i] in accounts;
      assert Key(accounts[i].authID, k.model) in SelectedKeys(cfg, accounts);
    }
  }

  // ---- Ownership ---------------------------------------------------------

  /** A claim on a key that no later event can undo. */
  predicate Claimed(cfg: Config, e: State, k: Key) {
    && cfg.AutoAccounts() && k.model in cfg.models
    && (cfg.accounts == [] || e.ownsAllModels || k in e.owned)
  }

  lemma SnapshotClaims(cfg: Config, e: State, accounts: seq<Account>, e': State, k: Key)
    requires cfg.AutoAccounts() && ValidSnapshot(accounts) && !e.closed && Snapshot(cfg, e, accounts, e')
    requires k in SelectedKeys(cfg, accounts)
    ensures Claimed(cfg, e', k)
  {
  }

  lemma SteadyManagement(e: State, e': State)
    requires Steady(e, e')
    ensures SameManagement(e, e')
  {
  }

  lemma BindManagement(cfg: Config, e: State, id: string, k: Key, reply: Option<Identity>, callerState: bool, now: Time)
    ensures SameManagement(e, Bind(cfg, e, id, k, reply, callerState, now).0)
  {
    BindRequests(cfg, e, id, k, reply, callerState, now);
  }

  lemma CallbackManagement(cfg: Config, e: State, id: string, h: Headers, bytes: Bytes, decode: Decoder, now: Time)
    requires WellFormed(cfg, e)
    ensures SameManagement(e, OnHeaders(e, id, h, now))
    ensures SameManagement(e, OnChunk(e, id, bytes, decode, now))
            && SameManagement(e, OnJSON(e, id, bytes, decode, now))
    ensures SameManagement(e, OnComplete(e, id, decode, now))
  {
    HeadersKeep(cfg, e, id, h, now);
    ChunkCalls(cfg, e, id, bytes, decode, now);
    CompleteKeeps(cfg, e, id, decode, now);
    SteadyManagement(e, OnHeaders(e, id, h, now));
    SteadyManagement(e, OnChunk(e, id, bytes, decode, now));
    SteadyManagement(e, OnJSON(e, id, bytes, decode, now));
    SteadyManagement(e, OnComplete(e, id, decode, now));
  }

  lemma ScheduleManagement(cfg: Config, e: State, order: seq<Key>, now: Time)
    requires WellFormed(cfg, e)
    ensures SameManagement(e, Schedule(cfg, e, order, now))
  {
    ScheduleKeeps(cfg, e, order, now);
    SteadyManagement(e, Schedule(cfg, e, order, now));
  }

  /** Only discovery moves the management of keys. */
  lemma ManagementMovesByDiscovery(env: Env, s: System, ev: Event, now: Time)
    requires WellFormed(env.cfg, s.engine) && Enabled(env, s, ev, now) && !ev.Discovery?
    ensures SameManagement(s.engine, Next(env, s, ev, now).engine)
  {
    var e := s.engine;
    match ev
    case Take(_) =>
    case Work(w, input) => WorkLeavesAlone(env, s.(clock := now), w, input, now);
    case Scheduler(order) => ScheduleManagement(env.cfg, e, order, now);
    case BindRequest(id, key, reply, callerState) =>
      BindManagement(env.cfg, e, id, key, Described(reply), callerState, now);
    case ResponseHeaders(id, h) => CallbackManagement(env.cfg, e, id, h, [], env.decode, now);
    case ResponseChunk(id, bytes) => CallbackManagement(env.cfg, e, id, map[], bytes, env.decode, now);
    case ResponseJSON(id, bytes) => CallbackManagement(env.cfg, e, id, map[], bytes, env.decode, now);
    case RequestComplete(id) => CallbackManagement(env.cfg, e, id, map[], [], env.decode, now);
    case Shutdown =>
  }

  lemma ClaimKeptByDiscovery(cfg: Config, e: State, accounts: seq<Account>, e': State, k: Key)
    requires Snapshot(cfg, e, accounts, e') && Claimed(cfg, e, k)
    ensures Claimed(cfg, e', k)
  {
  }

  lemma ClaimKept(env: Env, s: System, o: Occurrence, s': System, k: Key)
    requires WellFormed(env.cfg, s.engine) && Occurs(env, s, o, s') && Claimed(env.cfg, s.engine, k)
    ensures Claimed(env.cfg, s'.engine, k)
  {
    if o.event.Discovery? {
      ClaimKeptByDiscovery(env.cfg, s.engine, o.event.accounts, o.event.after, k);
    } else {
      ManagementMovesByDiscovery(env, s, o.event, o.now);
    }
  }

  lemma ClaimAt(env: Env, states: seq<System>, occurrences: seq<Occurrence>, p: nat, k: Key)
    requires IsRun(env, states, occurrences) && p < |occurrences| && Claimed(env.cfg, states[p].engine, k)
    ensures Claimed(env.cfg, states[p + 1].engine, k)
  {
    RunWellFormed(env, states, occurrences, p);
    ClaimKept(env, states[p], occurrences[p], states[p + 1], k);
  }

  lemma {:induction false} ClaimsPersist(cfg: Config, states: seq<System>, i: nat, j: nat, k: Key)
    requires i <= j < |states| && Claimed(cfg, states[i].engine, k)
    requires forall p | i <= p < j :: Claimed(cfg, states[p].engine, k) ==> Claimed(cfg, states[p + 1].engine, k)
    ensures Claimed(cfg, states[j].engine, k)
  {
    if i < j {
      ClaimsPersist(cfg, states, i, j - 1, k);
    }
  }

  lemma SelectionOccurs(env: Env, s: System, o: Occurrence, s': System, k: Key)
    requires Occurs(env, s, o, s') && o.event.Discovery? && ValidSnapshot(o.event.accounts) && !s.engine.closed
    requires k in SelectedKeys(env.cfg, o.event.accounts)
    ensures Claimed(env.cfg, s'.engine, k)
  {
    SnapshotClaims(env.cfg, s.engine, o.event.accounts, o.event.after, k);
  }

  /** A key that an applied snapshot selected once is managed ever after, through
      removal, plan loss and the overflow of the ownership set. */
  lemma OwnershipIsPermanent(env: Env, states: seq<System>, occurrences: seq<Occurrence>, i: nat, j: nat,
                             accounts: seq<Account>, after: State, k: Key)
    requires IsRun(env, states, occurrences) && i < j < |states|
    requires occurrences[i].event == Discovery(accounts, after)
    requires ValidSnapshot(accounts) && !states[i].engine.closed && k in SelectedKeys(env.cfg, accounts)
    ensures Manages(env.cfg, states[j].engine, k)
  {
    SelectionOccurs(env, states[i], occurrences[i], states[i + 1], k);
    forall p | i + 1 <= p < j && Claimed(env.cfg, states[p].engine, k)
      ensures Claimed(env.cfg, states[p + 1].engine, k)
    {
      ClaimAt(env, states, occurrences, p, k);
    }
    ClaimsPersist(env.cfg, states, i + 1, j, k);
  }

  /** In every state a planned key is managed, and ownership is bounded. */
  lemma PlannedIsManaged(env: Env, states: seq<System>, occurrences: seq<Occurrence>, i: nat, k: Key)
    requires IsRun(env, states, occurrences) && i < |states| && k in states[i].engine.plans
    ensures Manages(env.cfg, states[i].engine, k)
    ensures env.cfg.AutoAccounts() && env.cfg.accounts != [] ==>
              states[i].engine.ownsAllModels || k in states[i].engine.owned
    ensures |states[i].engine.owned| <= MAX_ACCOUNTS * MAX_MODELS
    ensures |states[i].engine.requests| <= env.cfg.maxPending
  {
    RunInv(env, states, occurrences, i);
  }
}
