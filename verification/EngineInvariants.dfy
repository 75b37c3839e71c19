/** What every region of the engine keeps. WellFormed speaks of one state;
    Evolves relates the states before and after a region, composes over regions,
    and is all that the protocol proofs need to know about most of them. */
module EngineInvariants {
  import opened Base
  import opened PrewarmConfig
  import opened ProxyPool
  import opened Completions
  import opened EngineState

  // ---- One state ---------------------------------------------------------

  ghost predicate RecordOk(e: State, k: Key)
    requires k in e.records
  {
    var r := e.records[k];
    && r.epoch <= e.epoch
    && (k !in e.plans ==> r.running && r.value.None?)
    && (r.value.Some? ==> TicketOk(r.value.value, e.version, e.PlanOf(k)))
  }

  ghost predicate TicketOk(t: Ticket, version: nat, plan: string) {
    1 <= t.version <= version && ValidState(t.state, plan)
  }

  ghost predicate RecordsOk(e: State) {
    && (forall k | k in e.plans :: k in e.records && KnownPlan(e.plans[k]))
    && (forall k | k in e.records :: RecordOk(e, k))
  }

  ghost predicate NotesOk(e: State) {
    && (forall k | k in e.lastProxy :: k in e.records)
    && (forall k | k in e.lastFailure :: k in e.records)
  }

  ghost predicate SizesOk(cfg: Config, e: State) {
    && |e.requests| <= cfg.maxPending
    && |e.queue| <= e.capacity
    && |e.owned| <= OWNERSHIP_LIMIT
  }

  /** With explicit accounts the keys never change and the queue holds them all;
      with selectors every planned key is owned. */
  ghost predicate ModeOk(cfg: Config, e: State) {
    && (!cfg.AutoAccounts() ==>
          && e.plans.Keys == e.records.Keys == ConfiguredKeys(cfg)
          && e.capacity == |e.plans|)
    && (cfg.AutoAccounts() && cfg.accounts != [] ==> forall k | k in e.plans :: e.ownsAllModels || k in e.owned)
    && (cfg.AutoAccounts() ==> forall k | k in e.plans :: k.model in cfg.models)
  }

  ghost predicate WellFormed(cfg: Config, e: State) {
    && e.pool.Valid()
    && RecordsOk(e)
    && NotesOk(e)
    && SizesOk(cfg, e)
    && ModeOk(cfg, e)
  }

  // ---- Two states --------------------------------------------------------

  function Count(q: seq<Job>, k: Key): nat {
    if q == [] then 0 else Count(q[..|q| - 1], k) + (if q[|q| - 1].key == k then 1 else 0)
  }

  function Flag(b: bool): nat {
    if b then 1 else 0
  }

  /** The key lost its ticket, or its plan changed or went away. */
  ghost predicate Withdrawn(e: State, e': State, k: Key) {
    || (e.HasTicket(k) && !e'.HasTicket(k))
    || (k in e.plans && (k !in e'.plans || e'.plans[k] != e.plans[k]))
  }

  ghost predicate NewJobsOk(e: State, e': State) {
    && e.queue <= e'.queue
    && forall i | |e.queue| <= i < |e'.queue| ::
         e.enqueued <= e'.queue[i].serial < e'.enqueued && e'.queue[i].epoch <= e'.epoch
  }

  /** Jobs are enqueued exactly for the records that start running. */
  ghost predicate Balanced(e: State, e': State) {
    forall k :: Count(e'.queue, k) + Flag(e.Running(k)) == Count(e.queue, k) + Flag(e'.Running(k))
  }

  ghost predicate NoNewTickets(e: State, e': State) {
    forall k | e'.HasTicket(k) :: e.HasTicket(k) && e.records[k].value == e'.records[k].value
  }

  /** A record either keeps its epoch, or has one that is new. */
  ghost predicate EpochMoves(e: State, e': State, k: Key) {
    k in e'.records ==>
      || e'.records[k].epoch > e.epoch
      || (k in e.records && e'.records[k].epoch == e.records[k].epoch && !Withdrawn(e, e', k))
  }

  ghost predicate Evolves(e: State, e': State) {
    && e.epoch <= e'.epoch
    && e.version == e'.version
    && e.enqueued <= e'.enqueued
    && (e.closed ==> e'.closed)
    && NewJobsOk(e, e')
    && Balanced(e, e')
    && NoNewTickets(e, e')
    && (forall k :: EpochMoves(e, e', k))
  }

  /** Nothing but the requests, the records and the queue moved. */
  ghost predicate Steady(e: State, e': State) {
    && e'.pool == e.pool && e'.plans == e.plans && e'.capacity == e.capacity && e'.closed == e.closed
    && e'.owned == e.owned && e'.ownsAllModels == e.ownsAllModels && e'.discoveryCount == e.discoveryCount
  }

  lemma EvolvesTrans(e: State, e1: State, e2: State)
    requires Evolves(e, e1) && Evolves(e1, e2)
    ensures Evolves(e, e2)
  {
    forall i | |e.queue| <= i < |e2.queue|
      ensures e.enqueued <= e2.queue[i].serial < e2.enqueued && e2.queue[i].epoch <= e2.epoch
    {
      if i < |e1.queue| {
        assert e2.queue[i] == e1.queue[i];
      }
    }
    forall k
      ensures EpochMoves(e, e2, k)
    {
      assert EpochMoves(e, e1, k) && EpochMoves(e1, e2, k);
    }
    forall k
      ensures Count(e2.queue, k) + Flag(e.Running(k)) == Count(e.queue, k) + Flag(e2.Running(k))
    {
      assert Count(e1.queue, k) + Flag(e.Running(k)) == Count(e.queue, k) + Flag(e1.Running(k));
      assert Count(e2.queue, k) + Flag(e1.Running(k)) == Count(e1.queue, k) + Flag(e2.Running(k));
    }
  }

  /** A region that leaves records, plans and queue alone. */
  lemma EvolvesQuietly(e: State, e': State)
    requires e'.records == e.records && e'.plans == e.plans && e'.queue == e.queue
    requires e'.epoch == e.epoch && e'.version == e.version && e'.enqueued == e.enqueued
    requires e.closed ==> e'.closed
    ensures Evolves(e, e')
  {
  }

  /** A region that only moves the running flags and cooldowns, and drops records. */
  lemma FlagsKeepRecordsOk(e: State, e': State)
    requires RecordsOk(e) && e'.plans == e.plans && e'.epoch == e.epoch && e'.version == e.version
    requires forall k | k in e.plans :: k in e'.records
    requires forall k | k in e'.records :: k in e.records
               && e'.records[k].value == e.records[k].value && e'.records[k].epoch == e.records[k].epoch
               && (k !in e.plans ==> e'.records[k].running == e.records[k].running)
    ensures RecordsOk(e')
  {
    forall x | x in e'.records ensures RecordOk(e', x) {
      assert RecordOk(e, x);
    }
  }

  // ---- Scheduling --------------------------------------------------------

  lemma CountOneMore(q: seq<Job>, j: Job, k: Key)
    ensures Count(q + [j], k) == Count(q, k) + Flag(j.key == k)
  {
    assert (q + [j])[..|q|] == q;
  }

  lemma EnqueueBalanced(e: State, k: Key, now: Time)
    ensures Balanced(e, Enqueue(e, k, now))
  {
    var e' := Enqueue(e, k, now);
    forall x
      ensures Count(e'.queue, x) + Flag(e.Running(x)) == Count(e.queue, x) + Flag(e'.Running(x))
    {
      if CanEnqueue(e, k, now) {
        CountOneMore(e.queue, Job(k, e.records[k].epoch, e.enqueued), x);
      }
    }
  }

  lemma EnqueueShape(e: State, k: Key, now: Time)
    ensures var e' := Enqueue(e, k, now);
            e' == e.(records := e'.records, queue := e'.queue, enqueued := e'.enqueued,
                     lastProxy := e'.lastProxy, lastFailure := e'.lastFailure)
            && e'.records.Keys == e.records.Keys
            && forall x | x in e.records :: e'.records[x] == e.records[x].(running := e'.records[x].running)
  {
  }

  lemma EnqueueJobs(e: State, k: Key, now: Time)
    requires RecordsOk(e)
    ensures NewJobsOk(e, Enqueue(e, k, now)) && e.enqueued <= Enqueue(e, k, now).enqueued
  {
    if CanEnqueue(e, k, now) {
      assert RecordOk(e, k);
    }
  }

  lemma EnqueueEvolves(e: State, k: Key, now: Time)
    requires RecordsOk(e)
    ensures Evolves(e, Enqueue(e, k, now))
  {
    EnqueueBalanced(e, k, now);
    EnqueueShape(e, k, now);
    EnqueueJobs(e, k, now);
  }

  /** Most regions leave the parts that ModeOk speaks about alone. */
  lemma SameMode(cfg: Config, e: State, e': State)
    requires WellFormed(cfg, e)
    requires e'.plans == e.plans && e'.records.Keys == e.records.Keys && e'.capacity == e.capacity
    requires e'.owned == e.owned && e'.ownsAllModels == e.ownsAllModels
    ensures ModeOk(cfg, e') && |e'.owned| <= OWNERSHIP_LIMIT
  {
  }

  lemma EnqueueRecordsOk(e: State, k: Key, now: Time)
    requires RecordsOk(e)
    ensures RecordsOk(Enqueue(e, k, now)) && (NotesOk(e) ==> NotesOk(Enqueue(e, k, now)))
  {
    EnqueueShape(e, k, now);
    FlagsKeepRecordsOk(e, Enqueue(e, k, now));
  }

  lemma EnqueueWellFormed(cfg: Config, e: State, k: Key, now: Time)
    requires WellFormed(cfg, e)
    ensures WellFormed(cfg, Enqueue(e, k, now))
  {
    EnqueueRecordsOk(e, k, now);
    EnqueueShape(e, k, now);
    SameMode(cfg, e, Enqueue(e, k, now));
  }

  lemma {:induction false} EnqueueDueKeeps(cfg: Config, e: State, order: seq<Key>, now: Time)
    requires WellFormed(cfg, e)
    ensures WellFormed(cfg, EnqueueDue(cfg, e, order, now)) && Evolves(e, EnqueueDue(cfg, e, order, now))
    ensures EnqueueDue(cfg, e, order, now).requests == e.requests && Steady(e, EnqueueDue(cfg, e, order, now))
    decreases |order|
  {
    if order == [] {
      EvolvesQuietly(e, e);
    } else {
      var k := order[0];
      var next := if k in e.records && Due(cfg, e.records[k], now) then Enqueue(e, k, now) else e;
      EnqueueWellFormed(cfg, e, k, now);
      EnqueueEvolves(e, k, now);
      EnqueueShape(e, k, now);
      EvolvesQuietly(e, e);
      EnqueueDueKeeps(cfg, next, order[1..], now);
      EvolvesTrans(e, next, EnqueueDue(cfg, next, order[1..], now));
    }
  }

  lemma PurgeKeeps(cfg: Config, e: State, now: Time)
    requires WellFormed(cfg, e)
    ensures WellFormed(cfg, PurgeRequests(e, now)) && Evolves(e, PurgeRequests(e, now))
  {
    var e' := PurgeRequests(e, now);
    SmallerMap(e'.requests, e.requests);
    EvolvesQuietly(e, e');
    SameRecordsOk(e, e');
  }

  lemma SameRecordsOk(e: State, e': State)
    requires RecordsOk(e) && e'.records == e.records && e'.plans == e.plans
    requires e'.epoch == e.epoch && e'.version == e.version
    ensures RecordsOk(e')
  {
    forall x | x in e'.records ensures RecordOk(e', x) {
      assert RecordOk(e, x);
    }
  }

  lemma ScheduleKeeps(cfg: Config, e: State, order: seq<Key>, now: Time)
    requires WellFormed(cfg, e)
    ensures WellFormed(cfg, Schedule(cfg, e, order, now)) && Evolves(e, Schedule(cfg, e, order, now))
    ensures Schedule(cfg, e, order, now).requests == PurgeRequests(e, now).requests
    ensures Steady(e, Schedule(cfg, e, order, now))
  {
    PurgeKeeps(cfg, e, now);
    EnqueueDueKeeps(cfg, PurgeRequests(e, now), order, now);
    EvolvesTrans(e, PurgeRequests(e, now), Schedule(cfg, e, order, now));
  }

  // ---- Worker regions ----------------------------------------------------

  lemma NoteKeeps(cfg: Config, e: State, k: Key, reason: string)
    requires WellFormed(cfg, e) && k in e.records
    ensures WellFormed(cfg, NoteFailure(e, k, reason)) && Evolves(e, NoteFailure(e, k, reason))
  {
    EvolvesQuietly(e, NoteFailure(e, k, reason));
    SameRecordsOk(e, NoteFailure(e, k, reason));
  }

  /** Moving the pool and noting the proxy. */
  lemma PoolKeeps(cfg: Config, e: State, pool: Pool, notes: map<Key, int>)
    requires WellFormed(cfg, e) && pool.Valid() && forall k | k in notes :: k in e.records
    ensures WellFormed(cfg, e.(pool := pool, lastProxy := notes)) && Evolves(e, e.(pool := pool, lastProxy := notes))
  {
    var e' := e.(pool := pool, lastProxy := notes);
    EvolvesQuietly(e, e');
    SameRecordsOk(e, e');
    SameMode(cfg, e, e');
  }

  lemma ChooseKeeps(cfg: Config, e: State, k: Key, now: Time)
    requires WellFormed(cfg, e) && k in e.records
    ensures WellFormed(cfg, ChooseProxy(e, k, now).0) && Evolves(e, ChooseProxy(e, k, now).0)
  {
    var (pool, index) := Choose(e.pool, now);
    PoolKeeps(cfg, e, pool, if index >= 0 then e.lastProxy[k := index] else e.lastProxy);
  }

  lemma MarkKeeps(cfg: Config, e: State, index: int, ok: bool, now: Time)
    requires WellFormed(cfg, e)
    ensures WellFormed(cfg, MarkProxy(cfg, e, index, ok, now)) && Evolves(e, MarkProxy(cfg, e, index, ok, now))
  {
    MarkValid(e.pool, index, ok, now, cfg.cooldown);
    PoolKeeps(cfg, e, Mark(e.pool, index, ok, now, cfg.cooldown), e.lastProxy);
  }

  lemma RestedShape(cfg: Config, e: State, j: Job, reason: string, now: Time)
    ensures var rested := Rested(cfg, e, j, reason, now);
            && rested.Keys == e.records.Keys
            && (forall k | k in rested ::
                  rested[k] == e.records[k].(running := rested[k].running, cooldown := rested[k].cooldown))
            && (forall k | k in rested && k != j.key :: rested[k] == e.records[k])
            && (j.key in rested ==> !rested[j.key].running)
  {
  }

  lemma EpilogueShape(cfg: Config, e: State, j: Job, reason: string, now: Time)
    ensures var e' := Epilogue(cfg, e, j, reason, now);
            && e' == e.(records := e'.records, lastProxy := e'.lastProxy, lastFailure := e'.lastFailure)
            && e'.records.Keys == (if j.key in e.plans then e.records.Keys else e.records.Keys - {j.key})
            && (forall k | k in e'.records ::
                  e'.records[k] == e.records[k].(running := e'.records[k].running, cooldown := e'.records[k].cooldown))
            && (forall k | k in e'.records && k != j.key :: e'.records[k] == e.records[k])
            && (j.key in e'.records ==> !e'.records[j.key].running)
  {
    RestedShape(cfg, e, j, reason, now);
  }

  lemma EpilogueRecordsOk(cfg: Config, e: State, j: Job, reason: string, now: Time)
    requires RecordsOk(e)
    ensures RecordsOk(Epilogue(cfg, e, j, reason, now))
  {
    EpilogueShape(cfg, e, j, reason, now);
    FlagsKeepRecordsOk(e, Epilogue(cfg, e, j, reason, now));
  }

  lemma EpilogueNotesOk(cfg: Config, e: State, j: Job, reason: string, now: Time)
    requires NotesOk(e)
    ensures NotesOk(Epilogue(cfg, e, j, reason, now))
  {
    EpilogueShape(cfg, e, j, reason, now);
  }

  lemma EpilogueModeOk(cfg: Config, e: State, j: Job, reason: string, now: Time)
    requires WellFormed(cfg, e) && j.key in e.records
    ensures ModeOk(cfg, Epilogue(cfg, e, j, reason, now))
  {
    EpilogueShape(cfg, e, j, reason, now);
    if !cfg.AutoAccounts() {
      assert j.key in e.plans;
    }
  }

  lemma EpilogueWellFormed(cfg: Config, e: State, j: Job, reason: string, now: Time)
    requires WellFormed(cfg, e) && j.key in e.records
    ensures WellFormed(cfg, Epilogue(cfg, e, j, reason, now))
  {
    EpilogueShape(cfg, e, j, reason, now);
    EpilogueRecordsOk(cfg, e, j, reason, now);
    EpilogueNotesOk(cfg, e, j, reason, now);
    EpilogueModeOk(cfg, e, j, reason, now);
  }

  lemma PublishWellFormed(cfg: Config, e: State, j: Job, plan: string, state: string, scope: string, captured: Time,
                          now: Time)
    requires WellFormed(cfg, e) && CanPublish(cfg, e, j, plan, captured, now) && ValidState(state, plan)
    ensures WellFormed(cfg, Publish(cfg, e, j, state, scope, captured))
  {
    var e' := Publish(cfg, e, j, state, scope, captured);
    assert j.key in e.plans;
    forall x | x in e'.records
      ensures RecordOk(e', x)
    {
      assert RecordOk(e, x);
    }
    assert e'.records.Keys == e.records.Keys;
  }

  // ---- Requests ----------------------------------------------------------

  lemma WithdrawRecordsOk(e: State, k: Key)
    requires RecordsOk(e) && k in e.records
    ensures RecordsOk(Withdraw(e, k)) && Withdraw(e, k).records.Keys == e.records.Keys
  {
    var e' := Withdraw(e, k);
    forall x | x in e'.records
      ensures RecordOk(e', x)
    {
      assert RecordOk(e, x);
    }
  }

  lemma WithdrawEvolves(e: State, k: Key)
    requires RecordsOk(e) && k in e.records
    ensures Evolves(e, Withdraw(e, k))
  {
    assert RecordOk(e, k);
  }

  lemma WithdrawKeeps(cfg: Config, e: State, k: Key)
    requires WellFormed(cfg, e) && k in e.records
    ensures WellFormed(cfg, Withdraw(e, k)) && Evolves(e, Withdraw(e, k))
  {
    WithdrawRecordsOk(e, k);
    WithdrawEvolves(e, k);
    SameMode(cfg, e, Withdraw(e, k));
  }

  lemma TombstoneKeeps(cfg: Config, e: State, id: string, now: Time)
    requires WellFormed(cfg, e)
    ensures WellFormed(cfg, Tombstone(e, id, now)) && Evolves(e, Tombstone(e, id, now))
  {
    var e' := Tombstone(e, id, now);
    if id in e.requests {
      assert e'.requests.Keys == e.requests.Keys;
    }
    EvolvesQuietly(e, e');
    SameRecordsOk(e, e');
  }

  lemma EnqueueKeeps(cfg: Config, e: State, k: Key, now: Time)
    requires WellFormed(cfg, e)
    ensures WellFormed(cfg, Enqueue(e, k, now)) && Evolves(e, Enqueue(e, k, now))
  {
    EnqueueEvolves(e, k, now);
    EnqueueWellFormed(cfg, e, k, now);
  }

  lemma RequestsKeep(cfg: Config, e: State, requests: map<string, Observation>)
    requires WellFormed(cfg, e) && |requests| <= cfg.maxPending
    ensures WellFormed(cfg, e.(requests := requests)) && Evolves(e, e.(requests := requests))
  {
    EvolvesQuietly(e, e.(requests := requests));
    SameRecordsOk(e, e.(requests := requests));
  }

  lemma OneMoreRequest(requests: map<string, Observation>, id: string, o: Observation, limit: nat)
    requires |requests| < limit
    ensures |requests[id := o]| <= limit
  {
    assert requests[id := o].Keys == requests.Keys + {id};
  }

  lemma DropStaleKeeps(cfg: Config, e: State, k: Key, reply: Option<Identity>, now: Time)
    requires WellFormed(cfg, e) && k in e.records
    ensures WellFormed(cfg, DropStale(cfg, e, k, reply, now)) && Evolves(e, DropStale(cfg, e, k, reply, now))
  {
    WithdrawKeeps(cfg, e, k);
    EvolvesQuietly(e, e);
  }

  lemma OfferKeeps(cfg: Config, e: State, id: string, k: Key, observer: Option<Parser>, callerState: bool, now: Time)
    requires WellFormed(cfg, e) && k in e.records
    ensures WellFormed(cfg, Offer(cfg, e, id, k, observer, callerState, now).0)
    ensures Evolves(e, Offer(cfg, e, id, k, observer, callerState, now).0)
  {
    EnqueueKeeps(cfg, e, k, now);
    EvolvesQuietly(e, e);
    if e.records[k].value.Some? && |e.requests| < cfg.maxPending {
      var o := Observation(k, e.records[k].value.value.version, observer, now);
      OneMoreRequest(e.requests, id, o, cfg.maxPending);
      RequestsKeep(cfg, e, e.requests[id := o]);
    }
  }

  lemma BindKeeps(cfg: Config, e: State, id: string, k: Key, reply: Option<Identity>, callerState: bool, now: Time)
    requires WellFormed(cfg, e)
    ensures WellFormed(cfg, Bind(cfg, e, id, k, reply, callerState, now).0)
    ensures Evolves(e, Bind(cfg, e, id, k, reply, callerState, now).0)
  {
    var e1 := Tombstone(e, id, now);
    TombstoneKeeps(cfg, e, id, now);
    if !e1.closed && k in e1.plans && k in e1.records {
      var e2 := DropStale(cfg, e1, k, reply, now);
      var observer := if id in e.requests then None else Some(NewParser(k.model));
      DropStaleKeeps(cfg, e1, k, reply, now);
      OfferKeeps(cfg, e2, id, k, observer, callerState, now);
      EvolvesTrans(e, e1, e2);
      EvolvesTrans(e, e2, Offer(cfg, e2, id, k, observer, callerState, now).0);
    }
  }

  /** The record may be enqueued again at once. */
  function Uncooled(e: State, k: Key): State
    requires k in e.records
  {
    e.(records := e.records[k := e.records[k].(cooldown := 0)])
  }

  lemma UncooledRecordsOk(e: State, k: Key)
    requires RecordsOk(e) && k in e.records
    ensures RecordsOk(Uncooled(e, k)) && Uncooled(e, k).records.Keys == e.records.Keys
  {
    forall x | x in Uncooled(e, k).records
      ensures RecordOk(Uncooled(e, k), x)
    {
      assert RecordOk(e, x);
    }
  }

  lemma UncooledEvolves(e: State, k: Key)
    requires k in e.records
    ensures Evolves(e, Uncooled(e, k))
  {
  }

  lemma CooldownKeeps(cfg: Config, e: State, k: Key)
    requires WellFormed(cfg, e) && k in e.records
    ensures WellFormed(cfg, Uncooled(e, k)) && Evolves(e, Uncooled(e, k))
  {
    UncooledRecordsOk(e, k);
    UncooledEvolves(e, k);
    SameMode(cfg, e, Uncooled(e, k));
  }

  lemma InvalidateKeeps(cfg: Config, e: State, o: Observation, now: Time)
    requires WellFormed(cfg, e)
    ensures WellFormed(cfg, Invalidate(e, o, now)) && Evolves(e, Invalidate(e, o, now))
    ensures Invalidate(e, o, now).requests == e.requests && Steady(e, Invalidate(e, o, now))
  {
    if Invalidate(e, o, now) == e {
      EvolvesQuietly(e, e);
    } else {
      var e1 := Withdraw(e, o.key);
      WithdrawKeeps(cfg, e, o.key);
      var e2 := e1.(records := e1.records[o.key := e1.records[o.key].(cooldown := 0)]);
      CooldownKeeps(cfg, e1, o.key);
      EvolvesTrans(e, e1, e2);
      EnqueueKeeps(cfg, e2, o.key, now);
      EvolvesTrans(e, e2, Enqueue(e2, o.key, now));
      EnqueueShape(e2, o.key, now);
    }
  }

  lemma ObservedKeeps(cfg: Config, e: State, id: string, p: Parser, now: Time)
    requires WellFormed(cfg, e) && id in e.requests
    ensures WellFormed(cfg, Observed(e, id, p, now)) && Evolves(e, Observed(e, id, p, now))
    ensures Observed(e, id, p, now).requests == e.requests[id := e.requests[id].(observer := Some(p))]
    ensures Steady(e, Observed(e, id, p, now))
  {
    var o := e.requests[id].(observer := Some(p));
    var requests := e.requests[id := o];
    assert requests.Keys == e.requests.Keys;
    RequestsKeep(cfg, e, requests);
    var e1 := e.(requests := requests);
    if p.Mismatch() {
      InvalidateKeeps(cfg, e1, o, now);
      EvolvesTrans(e, e1, Invalidate(e1, o, now));
    }
  }

  lemma CompleteKeeps(cfg: Config, e: State, id: string, decode: Decoder, now: Time)
    requires WellFormed(cfg, e)
    ensures WellFormed(cfg, OnComplete(e, id, decode, now)) && Evolves(e, OnComplete(e, id, decode, now))
    ensures Steady(e, OnComplete(e, id, decode, now))
    ensures OnComplete(e, id, decode, now).requests == e.requests
         || OnComplete(e, id, decode, now).requests == e.requests - {id}
  {
    if id in e.requests && e.requests[id].observer.Some? {
      var p := AfterFinish(e.requests[id].observer.value, decode);
      ObservedKeeps(cfg, e, id, p, now);
      var e1 := Observed(e, id, p, now);
      SmallerMap(e1.requests - {id}, e1.requests);
      RequestsKeep(cfg, e1, e1.requests - {id});
      assert e1.requests - {id} == e.requests - {id};
      EvolvesTrans(e, e1, e1.(requests := e1.requests - {id}));
    } else {
      EvolvesQuietly(e, e);
    }
  }

  lemma HeadersKeep(cfg: Config, e: State, id: string, h: Headers, now: Time)
    requires WellFormed(cfg, e)
    ensures WellFormed(cfg, OnHeaders(e, id, h, now)) && Evolves(e, OnHeaders(e, id, h, now))
    ensures OnHeaders(e, id, h, now).requests == e.requests && Steady(e, OnHeaders(e, id, h, now))
  {
    EvolvesQuietly(e, e);
    if id in e.requests {
      InvalidateKeeps(cfg, e, e.requests[id], now);
    }
  }

  lemma CloseKeeps(cfg: Config, e: State)
    requires WellFormed(cfg, e)
    ensures WellFormed(cfg, Close(e)) && Evolves(e, Close(e))
  {
    EvolvesQuietly(e, Close(e));
    SameRecordsOk(e, Close(e));
  }

  // ---- Discovery ---------------------------------------------------------

  lemma {:induction false} PlanForKnown(accounts: seq<Account>, id: string)
    requires forall a <- accounts :: a.plan == "" || KnownPlan(a.plan)
    ensures PlanFor(accounts, id) == "" || KnownPlan(PlanFor(accounts, id))
  {
    if accounts != [] {
      assert accounts[|accounts| - 1] in accounts;
      forall a | a in accounts[..|accounts| - 1] ensures a.plan == "" || KnownPlan(a.plan) {
        assert a in accounts;
      }
      PlanForKnown(accounts[..|accounts| - 1], id);
    }
  }

  lemma AppliedRecord(cfg: Config, e: State, accounts: seq<Account>, e': State, k: Key)
    requires RecordsOk(e) && ValidSnapshot(accounts) && Applied(cfg, e, accounts, e')
    ensures k in e'.records ==> RecordOk(e', k)
    ensures k in e'.plans ==> k in e'.records && KnownPlan(e'.plans[k])
    ensures e'.Running(k) == e.Running(k)
    ensures e'.HasTicket(k) ==> e.HasTicket(k) && e.records[k].value == e'.records[k].value
    ensures EpochMoves(e, e', k)
  {
    assert RecordApplied(e, e', Desired(cfg, accounts), k);
    PlanForKnown(accounts, k.authID);
    if k in e.records {
      assert RecordOk(e, k);
    }
  }

  lemma AppliedRecordsOk(cfg: Config, e: State, accounts: seq<Account>, e': State)
    requires RecordsOk(e) && ValidSnapshot(accounts) && Applied(cfg, e, accounts, e')
    ensures RecordsOk(e')
  {
    forall k
      ensures k in e'.records ==> RecordOk(e', k)
      ensures k in e'.plans ==> k in e'.records && KnownPlan(e'.plans[k])
    {
      AppliedRecord(cfg, e, accounts, e', k);
    }
  }

  lemma AppliedEvolves(cfg: Config, e: State, accounts: seq<Account>, e': State)
    requires RecordsOk(e) && ValidSnapshot(accounts) && Applied(cfg, e, accounts, e')
    ensures Evolves(e, e')
  {
    forall k
      ensures e'.Running(k) == e.Running(k)
      ensures e'.HasTicket(k) ==> e.HasTicket(k) && e.records[k].value == e'.records[k].value
      ensures EpochMoves(e, e', k)
    {
      AppliedRecord(cfg, e, accounts, e', k);
    }
  }

  lemma AppliedKeeps(cfg: Config, e: State, accounts: seq<Account>, e': State)
    requires WellFormed(cfg, e) && cfg.AutoAccounts() && ValidSnapshot(accounts) && Applied(cfg, e, accounts, e')
    ensures WellFormed(cfg, e') && Evolves(e, e')
  {
    AppliedRecordsOk(cfg, e, accounts, e');
    AppliedEvolves(cfg, e, accounts, e');
    AppliedNotes(cfg, e, accounts, e');
  }

  lemma AppliedNotes(cfg: Config, e: State, accounts: seq<Account>, e': State)
    requires NotesOk(e) && Applied(cfg, e, accounts, e')
    ensures NotesOk(e')
  {
    forall k | k in e'.lastProxy || k in e'.lastFailure
      ensures k in e'.records
    {
      assert RecordApplied(e, e', Desired(cfg, accounts), k);
    }
  }

  lemma SnapshotKeeps(cfg: Config, e: State, accounts: seq<Account>, e': State)
    requires WellFormed(cfg, e) && cfg.AutoAccounts() && Snapshot(cfg, e, accounts, e')
    ensures WellFormed(cfg, e') && Evolves(e, e')
  {
    if ValidSnapshot(accounts) && !e.closed {
      AppliedKeeps(cfg, e, accounts, e');
    } else {
      EvolvesQuietly(e, e');
    }
  }

  // ---- The first state ---------------------------------------------------

  lemma {:induction false} ConfiguredPlanKnown(accounts: seq<Account>, k: Key)
    requires forall a <- accounts :: KnownPlan(a.plan)
    requires exists a <- accounts :: a.authID == k.authID && k.model in a.models
    ensures KnownPlan(ConfiguredPlan(accounts, k))
  {
    var last := accounts[|accounts| - 1];
    assert last in accounts;
    if !(last.authID == k.authID && k.model in last.models) {
      var front := accounts[..|accounts| - 1];
      forall a | a in front ensures KnownPlan(a.plan) { assert a in accounts; }
      var a :| a in accounts && a.authID == k.authID && k.model in a.models;
      assert accounts == front + [last];
      assert a in front;
      ConfiguredPlanKnown(front, k);
    }
  }

  lemma InitialWellFormed(cfg: Config, proxies: seq<string>)
    requires cfg.Valid() && proxies != []
    ensures WellFormed(cfg, Initial(cfg, proxies))
  {
    var e := Initial(cfg, proxies);
    NewPoolValid(proxies);
    if cfg.AutoAccounts() {
      assert ConfiguredKeys(cfg) == {};
    } else {
      forall k | k in e.plans
        ensures KnownPlan(e.plans[k])
      {
        ConfiguredPlanKnown(cfg.accounts, k);
      }
    }
    assert e.plans.Keys == ConfiguredKeys(cfg);
    assert e.records.Keys == e.plans.Keys;
  }
}
