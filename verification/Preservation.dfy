/** Every event keeps every invariant. */
module Preservation {
  import opened Base
  import opened PrewarmConfig
  import opened ProbeBudget
  import opened Completions
  import opened EngineState
  import opened EngineInvariants
  import opened ProxyPool
  import opened Protocol
  import opened Evidence
  import opened Invariants

  // ---- Requests and discovery --------------------------------------------

  lemma TombstoneInherits(e: State, id: string, now: Time)
    ensures Inherits(e.requests, Tombstone(e, id, now).requests)
    ensures Tombstone(e, id, now) == e.(requests := Tombstone(e, id, now).requests)
  {
  }

  lemma WithdrawSteady(e: State, k: Key)
    requires k in e.records
    ensures Withdraw(e, k).requests == e.requests && Steady(e, Withdraw(e, k))
    ensures k in Withdraw(e, k).records && !Withdraw(e, k).HasTicket(k)
  {
  }

  lemma DropStaleShape(cfg: Config, e: State, k: Key, reply: Option<Identity>, now: Time)
    requires k in e.records
    ensures var e' := DropStale(cfg, e, k, reply, now);
            && e'.requests == e.requests && Steady(e, e') && k in e'.records
            && (e'.HasTicket(k) ==> e' == e && !Stale(cfg, e, k, e.records[k].value.value, reply, now))
  {
    WithdrawSteady(e, k);
  }

  /** What a hit says about the observation that it leaves behind. */
  ghost predicate HandsOut(before: State, after: State, id: string, k: Key, t: Ticket) {
    && before.HasTicket(k) && before.records[k].value == Some(t)
    && id in after.requests
    && after.requests[id].key == k && after.requests[id].version == t.version
    && (id in before.requests ==> after.requests[id].observer.None?)
    && Inherits(before.requests, after.requests - {id})
  }

  lemma OfferRequests(cfg: Config, e: State, id: string, k: Key, observer: Option<Parser>, callerState: bool, now: Time)
    requires k in e.records
    ensures var (e', hit) := Offer(cfg, e, id, k, observer, callerState, now);
            && Steady(e, e')
            && (hit.None? ==> e'.requests == e.requests)
            && (hit.Some? ==> e.records[k].value == hit && !callerState
                              && e' == e.(requests :=
                                            e.requests[id := Observation(k, hit.value.version, observer, now)]))
  {
    EnqueueShape(e, k, now);
  }

  /** A hit hands out the very ticket of the record, under this observation. */
  lemma BindRequests(cfg: Config, e: State, id: string, k: Key, reply: Option<Identity>, callerState: bool, now: Time)
    ensures var (e', hit) := Bind(cfg, e, id, k, reply, callerState, now);
            && Steady(e, e')
            && (hit.None? ==> Inherits(e.requests, e'.requests))
            && (hit.Some? ==> HandsOut(e, e', id, k, hit.value))
  {
    var e1 := Tombstone(e, id, now);
    TombstoneInherits(e, id, now);
    if !e1.closed && k in e1.plans && k in e1.records {
      DropStaleShape(cfg, e1, k, reply, now);
      OfferRequests(cfg, DropStale(cfg, e1, k, reply, now), id, k,
                    if id in e.requests then None else Some(NewParser(k.model)), callerState, now);
    }
  }

  lemma BindObservations(env: Env, s: System, id: string, k: Key, reply: Option<Identity>, callerState: bool, now: Time)
    requires TicketsOk(s.engine, s.published) && ObservationsOk(s.engine.requests, s.published, s.handed)
    ensures var s' := DoBind(env, s, id, k, reply, callerState, now);
            ObservationsOk(s'.engine.requests, s.published, s'.handed)
  {
    BindRequests(env.cfg, s.engine, id, k, reply, callerState, now);
    var (e', hit) := Bind(env.cfg, s.engine, id, k, reply, callerState, now);
    if hit.None? {
      InheritedObservations(s.engine.requests, e'.requests, s.published, s.handed);
    } else {
      assert Issued(s.published, k, hit.value);
      InheritedObservations(s.engine.requests, e'.requests - {id}, s.published, s.handed);
      forall x | x in e'.requests
        ensures x in s.handed[id := hit.value]
                && ObservationOk(e'.requests[x], s.published, s.handed[id := hit.value][x])
      {
        if x != id {
          assert x in e'.requests - {id};
          assert (e'.requests - {id})[x] == e'.requests[x];
        }
      }
    }
  }

  /** What a callback may do to the engine. */
  ghost predicate Calls(cfg: Config, e: State, e': State) {
    WellFormed(cfg, e') && Evolves(e, e') && Steady(e, e') && Inherits(e.requests, e'.requests)
  }

  lemma NoCall(cfg: Config, e: State)
    requires WellFormed(cfg, e)
    ensures Calls(cfg, e, e)
  {
    EvolvesQuietly(e, e);
  }

  lemma ObservedCalls(cfg: Config, e: State, id: string, p: Parser, now: Time)
    requires WellFormed(cfg, e) && id in e.requests && e.requests[id].observer.Some?
    ensures Calls(cfg, e, Observed(e, id, p, now))
  {
    ObservedKeeps(cfg, e, id, p, now);
  }

  lemma ChunkCalls(cfg: Config, e: State, id: string, bytes: Bytes, decode: Decoder, now: Time)
    requires WellFormed(cfg, e)
    ensures Calls(cfg, e, OnChunk(e, id, bytes, decode, now)) && Calls(cfg, e, OnJSON(e, id, bytes, decode, now))
  {
    NoCall(cfg, e);
    if id in e.requests && e.requests[id].observer.Some? {
      ObservedCalls(cfg, e, id, AfterFeed(e.requests[id].observer.value, decode, bytes), now);
      ObservedCalls(cfg, e, id, AfterJSON(e.requests[id].observer.value, decode, bytes), now);
    }
  }

  lemma SnapshotSteady(cfg: Config, e: State, accounts: seq<Account>, e': State)
    requires Snapshot(cfg, e, accounts, e')
    ensures e'.requests == e.requests && e'.pool == e.pool
  {
  }

  /** What the events outside the workers do to the engine. */
  lemma OutsideEngine(env: Env, s: System, ev: Event, now: Time)
    requires WellFormed(env.cfg, s.engine) && Enabled(env, s, ev, now) && !ev.Take? && !ev.Work?
    ensures WellFormed(env.cfg, Next(env, s, ev, now).engine) && Evolves(s.engine, Next(env, s, ev, now).engine)
  {
    var e := s.engine;
    match ev {
      case Scheduler(order) => ScheduleKeeps(env.cfg, e, order, now);
      case Discovery(accounts, after) => SnapshotKeeps(env.cfg, e, accounts, after);
      case BindRequest(id, k, reply, callerState) => BindKeeps(env.cfg, e, id, k, Described(reply), callerState, now);
      case ResponseHeaders(id, h) => HeadersKeep(env.cfg, e, id, h, now);
      case ResponseChunk(id, bytes) => ChunkCalls(env.cfg, e, id, bytes, env.decode, now);
      case ResponseJSON(id, bytes) => ChunkCalls(env.cfg, e, id, bytes, env.decode, now);
      case RequestComplete(id) => CompleteKeeps(env.cfg, e, id, env.decode, now);
      case Shutdown => CloseKeeps(env.cfg, e);
    }
  }

  /** What they do to the observations: only a Bind adds one. */
  lemma OutsideRequests(env: Env, s: System, ev: Event, now: Time)
    requires WellFormed(env.cfg, s.engine) && Enabled(env, s, ev, now) && !ev.Take? && !ev.Work?
    ensures Next(env, s, ev, now).engine.pool == s.engine.pool
    ensures ev.BindRequest? || Inherits(s.engine.requests, Next(env, s, ev, now).engine.requests)
  {
    var e := s.engine;
    match ev {
      case Scheduler(order) => ScheduleKeeps(env.cfg, e, order, now);
      case Discovery(accounts, after) => SnapshotSteady(env.cfg, e, accounts, after);
      case BindRequest(id, k, reply, callerState) =>
        BindRequests(env.cfg, e, id, k, Described(reply), callerState, now);
      case ResponseHeaders(id, h) => HeadersKeep(env.cfg, e, id, h, now);
      case ResponseChunk(id, bytes) => ChunkCalls(env.cfg, e, id, bytes, env.decode, now);
      case ResponseJSON(id, bytes) => ChunkCalls(env.cfg, e, id, bytes, env.decode, now);
      case RequestComplete(id) => CompleteKeeps(env.cfg, e, id, env.decode, now);
      case Shutdown =>
    }
  }

  /** They leave the workers and the history alone. */
  lemma OutsideFrame(env: Env, s: System, ev: Event, now: Time)
    requires Enabled(env, s, ev, now) && !ev.Take? && !ev.Work?
    ensures var s' := Next(env, s, ev, now);
            && s' == s.(clock := now, engine := s'.engine, handed := s'.handed)
            && (!ev.BindRequest? ==> s'.handed == s.handed)
  {
  }

  lemma OutsideObservations(env: Env, s: System, ev: Event, now: Time)
    requires WellFormed(env.cfg, s.engine) && Enabled(env, s, ev, now) && !ev.Take? && !ev.Work?
    requires TicketsOk(s.engine, s.published) && ObservationsOk(s.engine.requests, s.published, s.handed)
    ensures ObservationsOk(Next(env, s, ev, now).engine.requests, s.published, Next(env, s, ev, now).handed)
  {
    if ev.BindRequest? {
      BindObservations(env, s, ev.id, ev.key, Described(ev.reply), ev.callerState, now);
    } else {
      OutsideRequests(env, s, ev, now);
      OutsideFrame(env, s, ev, now);
      InheritedObservations(s.engine.requests, Next(env, s, ev, now).engine.requests, s.published, s.handed);
    }
  }

  /** Every event outside the workers, at the time of the system. */
  lemma EventKeepsInv(env: Env, s: System, ev: Event, now: Time)
    requires Inv(env, s) && Enabled(env, s, ev, now) && s.clock == now && !ev.Take? && !ev.Work?
    ensures Inv(env, Next(env, s, ev, now))
  {
    var s' := Next(env, s, ev, now);
    OutsideEngine(env, s, ev, now);
    OutsideRequests(env, s, ev, now);
    OutsideObservations(env, s, ev, now);
    OutsideFrame(env, s, ev, now);
    EvolvingKeeps(env, s, s'.engine, s'.handed);
  }

  // ---- Taking a job ------------------------------------------------------

  lemma TakeFlight(s: System, w: nat)
    requires w < |s.workers| && s.workers[w].Idle? && s.engine.queue != []
    requires SingleFlight(s.engine, s.workers)
    ensures SingleFlight(TakeJob(s, w).engine, TakeJob(s, w).workers)
  {
    var s' := TakeJob(s, w);
    forall k
      ensures Count(s'.engine.queue, k) + BusyCount(s'.workers, k) == Flag(s'.engine.Running(k))
    {
      CountHead(s.engine.queue, k);
      BusyUpdate(s.workers, w, s'.workers[w], k);
      assert Count(s.engine.queue, k) + BusyCount(s.workers, k) == Flag(s.engine.Running(k));
    }
  }

  lemma TakeJobs(s: System, w: nat)
    requires w < |s.workers| && s.engine.queue != [] && JobsOk(s.engine, s.workers)
    ensures JobsOk(TakeJob(s, w).engine, TakeJob(s, w).workers)
  {
    var s' := TakeJob(s, w);
    assert s.engine.queue[0] in s.engine.queue;
    forall j | j in s'.engine.queue ensures JobOk(s'.engine, j) {
      assert j in s.engine.queue;
      assert JobOk(s.engine, j);
    }
    forall x | x in s'.workers && x.Busy? ensures JobOk(s'.engine, x.job) {
      assert JobOk(s.engine, s.engine.queue[0]);
      if x in s.workers {
        assert JobOk(s.engine, x.job);
      }
    }
  }

  /** Replacing one worker. */
  lemma OtherWorkers(ws: seq<Worker>, w: nat, x: Worker, v: Worker)
    requires w < |ws| && v in ws[w := x]
    ensures v == x || exists i | 0 <= i < |ws| && i != w :: ws[i] == v
  {
    var i :| 0 <= i < |ws| && ws[w := x][i] == v;
  }

  /** Taking a job moves nothing of the engine but its queue. */
  lemma TakeEngine(env: Env, e: State, published: seq<Publication>)
    requires WellFormed(env.cfg, e) && UrlsOk(env, e) && TicketsOk(e, published) && e.queue != []
    ensures var e' := e.(queue := e.queue[1..]);
            WellFormed(env.cfg, e') && UrlsOk(env, e') && TicketsOk(e', published)
  {
    SameRecordsOk(e, e.(queue := e.queue[1..]));
  }

  lemma StartedRuns(env: Env, ws: seq<Worker>, w: nat, job: Job, clock: Time)
    requires RunsOk(env, ws, clock) && w < |ws|
    ensures RunsOk(env, ws[w := Busy(job, Starting, [])], clock)
  {
    MovedRuns(env, ws, w, Busy(job, Starting, []), clock);
  }

  lemma StartedCaptures(ws: seq<Worker>, w: nat, job: Job, published: seq<Publication>, clock: Time)
    requires CapturesOk(ws, published, clock) && w < |ws|
    ensures CapturesOk(ws[w := Busy(job, Starting, [])], published, clock)
  {
    MovedCaptures(ws, w, Busy(job, Starting, []), published, clock);
  }

  lemma StartedBudget(s: System, w: nat, job: Job)
    requires BudgetOk(s.budget, s.grants, s.clock, s.probes, s.workers) && w < |s.workers| && s.workers[w].Idle?
    ensures BudgetOk(s.budget, s.grants, s.clock, s.probes, s.workers[w := Busy(job, Starting, [])])
  {
    PendingUpdate(s.workers, w, Busy(job, Starting, []));
  }

  lemma TakeKeepsInv(env: Env, s: System, w: nat)
    requires Inv(env, s) && w < |s.workers| && s.workers[w].Idle? && s.engine.queue != []
    ensures Inv(env, TakeJob(s, w))
  {
    var job := s.engine.queue[0];
    TakeEngine(env, s.engine, s.published);
    TakeFlight(s, w);
    TakeJobs(s, w);
    StartedRuns(env, s.workers, w, job, s.clock);
    StartedCaptures(s.workers, w, job, s.published, s.clock);
    StartedBudget(s, w, job);
  }

  // ---- One worker step ---------------------------------------------------

  /** The steps that neither publish nor end the job. */
  predicate Ordinary(env: Env, e: State, job: Job, phase: Phase, now: Time) {
    !phase.Done? && !(phase.Publishing? && CanPublish(env.cfg, e, job, phase.a.plan, phase.a.captured, now))
  }

  lemma ChoreKeeps(env: Env, e: State, k: Key, chore: Chore, now: Time)
    requires WellFormed(env.cfg, e) && UrlsOk(env, e) && k in e.records
    ensures var e' := DoChore(env, e, k, chore, now);
            WellFormed(env.cfg, e') && Evolves(e, e') && UrlsOk(env, e') && e'.requests == e.requests
  {
    match chore
    case Note(reason) => NoteKeeps(env.cfg, e, k, reason);
    case Mark(index, ok) =>
      MarkKeeps(env.cfg, e, index, ok, now);
      MarkUrls(env, e, index, ok, now);
  }

  lemma MarkUrls(env: Env, e: State, index: int, ok: bool, now: Time)
    requires e.pool.Valid() && UrlsOk(env, e)
    ensures UrlsOk(env, MarkProxy(env.cfg, e, index, ok, now))
  {
    MarkValid(e.pool, index, ok, now, env.cfg.cooldown);
    var e' := MarkProxy(env.cfg, e, index, ok, now);
    forall n | n in e'.pool.nodes ensures n.url in env.proxies {
      var i :| 0 <= i < |e'.pool.nodes| && e'.pool.nodes[i] == n;
      assert e.pool.nodes[i] in e.pool.nodes;
    }
  }

  /** A step of the engine that leaves the requests alone. */
  ghost predicate Progress(env: Env, e: State, e': State) {
    WellFormed(env.cfg, e') && Evolves(e, e') && UrlsOk(env, e') && e'.requests == e.requests
  }

  lemma NoProgress(env: Env, e: State)
    requires WellFormed(env.cfg, e) && UrlsOk(env, e)
    ensures Progress(env, e, e)
  {
    EvolvesQuietly(e, e);
  }

  /** The step that chooses a proxy, spelled out. */
  lemma ChoosingAdvance(env: Env, e: State, budget: seq<Time>, job: Job, phase: Phase, input: Input, now: Time)
    requires e.pool.Valid() && phase.Choosing?
    ensures var out := Advance(env, e, budget, job, phase, input, now);
            out.engine == ChooseProxy(e, job.key, now).0 && out.next.Some? && out.published.None?
  {
  }

  lemma ChoiceProgress(env: Env, e: State, k: Key, now: Time)
    requires WellFormed(env.cfg, e) && UrlsOk(env, e) && k in e.records
    ensures Progress(env, e, ChooseProxy(e, k, now).0)
  {
    ChooseKeeps(env.cfg, e, k, now);
  }

  lemma ChoosingEngine(env: Env, e: State, budget: seq<Time>, job: Job, phase: Phase, input: Input, now: Time)
    requires WellFormed(env.cfg, e) && UrlsOk(env, e) && job.key in e.records && phase.Choosing?
    ensures var out := Advance(env, e, budget, job, phase, input, now);
            Progress(env, e, out.engine) && out.next.Some? && out.published.None?
  {
    ChoosingAdvance(env, e, budget, job, phase, input, now);
    ChoiceProgress(env, e, job.key, now);
  }

  lemma ChoreEngine(env: Env, e: State, budget: seq<Time>, job: Job, phase: Phase, input: Input, now: Time)
    requires WellFormed(env.cfg, e) && UrlsOk(env, e) && job.key in e.records && phase.Settling? && phase.chores != []
    ensures var out := Advance(env, e, budget, job, phase, input, now);
            Progress(env, e, out.engine) && out.next.Some? && out.published.None?
  {
    ChoreKeeps(env, e, job.key, phase.chores[0], now);
  }

  lemma OrdinaryEngine(env: Env, e: State, budget: seq<Time>, job: Job, phase: Phase, input: Input, now: Time)
    requires WellFormed(env.cfg, e) && UrlsOk(env, e) && job.key in e.records && Ordinary(env, e, job, phase, now)
    ensures var out := Advance(env, e, budget, job, phase, input, now);
            Progress(env, e, out.engine) && out.next.Some? && out.published.None?
  {
    NoProgress(env, e);
    if phase.Choosing? {
      ChoosingEngine(env, e, budget, job, phase, input, now);
    } else if phase.Settling? && phase.chores != [] {
      ChoreEngine(env, e, budget, job, phase, input, now);
    } else {
      OrdinaryElsewhere(env, e, budget, job, phase, input, now);
    }
  }

  lemma OrdinaryElsewhere(env: Env, e: State, budget: seq<Time>, job: Job, phase: Phase, input: Input, now: Time)
    requires e.pool.Valid() && Ordinary(env, e, job, phase, now)
    requires !phase.Choosing? && !(phase.Settling? && phase.chores != [])
    ensures var out := Advance(env, e, budget, job, phase, input, now);
            out.engine == e && out.next.Some? && out.published.None?
  {
  }

  lemma ReservingBudget(env: Env, e: State, budget: seq<Time>, job: Job, phase: Phase, input: Input, now: Time)
    requires e.pool.Valid() && (phase.Reserving? || phase.ReservingFormal?)
    ensures var out := Advance(env, e, budget, job, phase, input, now);
            var call := Call(now, env.cfg.maxProbesPerHour);
            && out.next.Some? && out.call.None?
            && (out.granted ==> !e.closed && Grants(budget, call) && out.budget == Charge(budget, call)
                                && (out.next.value.Acquiring? || out.next.value.Verifying?))
            && (!out.granted ==> out.next.value.Done?
                                 && (out.budget == budget
                                     || (!Grants(budget, call) && out.budget == Charge(budget, call))))
  {
  }

  /** Every other phase leaves the budget alone, and only the phases that hold a
      grant send a probe. */
  lemma OtherBudget(env: Env, e: State, budget: seq<Time>, job: Job, phase: Phase, input: Input, now: Time)
    requires e.pool.Valid() && !phase.Reserving? && !phase.ReservingFormal? && SettlesWell(phase)
    ensures var out := Advance(env, e, budget, job, phase, input, now);
            && !out.granted && out.budget == budget
            && (out.next.Some? ==> !out.next.value.Acquiring? && !out.next.value.Verifying?)
            && (phase.Acquiring? || phase.Verifying? <==> out.call.Some? && out.call.value.ProbeCall?)
  {
    if phase.Acquiring? {
      AcquisitionOutcome(env, job.key.model, phase.a, input.probed, e.closed);
    } else if phase.Verifying? {
      VerificationOutcome(env, job.key.model, phase.a, phase.candidate, phase.fixed, input.probed);
    }
  }

  /** The budget after a call that was asked for. */
  lemma ChargeOk(budget: seq<Time>, grants: seq<Call>, now: Time, call: Call)
    requires Represents(budget, grants, now) && WithinLimits(grants) && call.now == now
    ensures Represents(Charge(budget, call), if Grants(budget, call) then grants + [call] else grants, now)
    ensures Grants(budget, call) ==> WithinLimits(grants + [call])
  {
    AllowRefines(budget, grants, now, call);
    if Grants(budget, call) {
      GrantWithinLimits(grants, call);
    }
  }

  /** Asking for a probe: a grant goes with a worker that may spend it. */
  ghost predicate Asked(budget: seq<Time>, budget': seq<Time>, grants: seq<Call>, grants': seq<Call>, call: Call,
                        x: Worker) {
    if Spends(x) then Grants(budget, call) && budget' == Charge(budget, call) && grants' == grants + [call]
    else grants' == grants && (budget' == budget || (!Grants(budget, call) && budget' == Charge(budget, call)))
  }

  lemma AskedKeepsBudget(budget: seq<Time>, budget': seq<Time>, grants: seq<Call>, grants': seq<Call>, now: Time,
                         call: Call, probes: nat, ws: seq<Worker>, w: nat, x: Worker)
    requires BudgetOk(budget, grants, now, probes, ws) && call.now == now
    requires w < |ws| && !Spends(ws[w]) && Asked(budget, budget', grants, grants', call, x)
    ensures BudgetOk(budget', grants', now, probes, ws[w := x])
  {
    ChargeOk(budget, grants, now, call);
    PendingUpdate(ws, w, x);
  }

  lemma ReservingWork(env: Env, s: System, w: nat, input: Input, now: Time)
    requires w < |s.workers| && s.workers[w].Busy? && s.engine.pool.Valid() && s.clock == now
    requires s.workers[w].phase.Reserving? || s.workers[w].phase.ReservingFormal?
    ensures var s' := DoWork(env, s, w, input, now);
            && s'.clock == now && s'.probes == s.probes && s'.workers == s.workers[w := s'.workers[w]]
            && Asked(s.budget, s'.budget, s.grants, s'.grants, Call(now, env.cfg.maxProbesPerHour), s'.workers[w])
  {
    var me := s.workers[w];
    ReservingBudget(env, s.engine, s.budget, me.job, me.phase, input, now);
  }

  lemma ReservingKeepsBudget(env: Env, s: System, w: nat, input: Input, now: Time)
    requires w < |s.workers| && s.workers[w].Busy? && s.engine.pool.Valid() && s.clock == now
    requires s.workers[w].phase.Reserving? || s.workers[w].phase.ReservingFormal?
    requires BudgetOk(s.budget, s.grants, s.clock, s.probes, s.workers)
    ensures var s' := DoWork(env, s, w, input, now);
            BudgetOk(s'.budget, s'.grants, s'.clock, s'.probes, s'.workers)
  {
    var s' := DoWork(env, s, w, input, now);
    ReservingWork(env, s, w, input, now);
    AskedKeepsBudget(s.budget, s'.budget, s.grants, s'.grants, now, Call(now, env.cfg.maxProbesPerHour), s.probes,
                     s.workers, w, s'.workers[w]);
  }

  lemma OtherKeepsBudget(env: Env, s: System, w: nat, input: Input, now: Time)
    requires w < |s.workers| && s.workers[w].Busy? && s.engine.pool.Valid() && s.clock == now
    requires !s.workers[w].phase.Reserving? && !s.workers[w].phase.ReservingFormal? && SettlesWell(s.workers[w].phase)
    requires BudgetOk(s.budget, s.grants, s.clock, s.probes, s.workers)
    ensures var s' := DoWork(env, s, w, input, now);
            BudgetOk(s'.budget, s'.grants, s'.clock, s'.probes, s'.workers)
  {
    var me := s.workers[w];
    var s' := DoWork(env, s, w, input, now);
    PendingUpdate(s.workers, w, s'.workers[w]);
    OtherBudget(env, s.engine, s.budget, me.job, me.phase, input, now);
  }

  // ---- One worker step: runs, captures, history --------------------------

  lemma {:induction false} RunSettlesWell(env: Env, k: Key, phase: Phase, trace: seq<HostCall>, clock: Time)
    requires RunOk(env, k, phase, trace, clock)
    ensures SettlesWell(phase)
  {
  }

  /** The workers after worker w moved on. */
  lemma MovedRuns(env: Env, ws: seq<Worker>, w: nat, x: Worker, clock: Time)
    requires RunsOk(env, ws, clock) && w < |ws|
    requires x.Busy? ==> RunOk(env, x.job.key, x.phase, x.trace, clock)
    ensures RunsOk(env, ws[w := x], clock)
  {
    forall v | v in ws[w := x] && v.Busy?
      ensures RunOk(env, v.job.key, v.phase, v.trace, clock)
    {
      OtherWorkers(ws, w, x, v);
    }
  }

  lemma MovedCaptures(ws: seq<Worker>, w: nat, x: Worker, published: seq<Publication>, clock: Time)
    requires CapturesOk(ws, published, clock) && w < |ws|
    requires x.Busy? && CapturedIn(x.phase).Some? ==> CapturedBy(published, x.job.key, CapturedIn(x.phase).value)
    ensures CapturesOk(ws[w := x], published, clock)
  {
    forall v | v in ws[w := x] && v.Busy? && CapturedIn(v.phase).Some?
      ensures CapturedBy(published, v.job.key, CapturedIn(v.phase).value)
    {
      OtherWorkers(ws, w, x, v);
    }
  }

  lemma MovedJobs(e: State, ws: seq<Worker>, w: nat, x: Worker)
    requires JobsOk(e, ws) && w < |ws| && ws[w].Busy? && (x.Busy? ==> x.job == ws[w].job)
    ensures JobsOk(e, ws[w := x])
  {
    assert JobOk(e, ws[w].job);
    forall v | v in ws[w := x] && v.Busy?
      ensures JobOk(e, v.job)
    {
      OtherWorkers(ws, w, x, v);
    }
  }

  lemma MovedFlight(e: State, ws: seq<Worker>, w: nat, x: Worker)
    requires SingleFlight(e, ws) && w < |ws| && ws[w].Busy? && x.Busy? && x.job == ws[w].job
    ensures SingleFlight(e, ws[w := x])
  {
    forall k
      ensures Count(e.queue, k) + BusyCount(ws[w := x], k) == Flag(e.Running(k))
    {
      BusyUpdate(ws, w, x, k);
      assert Count(e.queue, k) + BusyCount(ws, k) == Flag(e.Running(k));
    }
  }

  lemma AcquiringCaptured(env: Env, e: State, budget: seq<Time>, job: Job, a: Attempt, input: Input, now: Time)
    requires e.pool.Valid()
    ensures var out := Advance(env, e, budget, job, Acquiring(a), input, now);
            out.next.Some? && (CapturedIn(out.next.value).Some? ==> CapturedIn(out.next.value) == Some(a.captured))
  {
    AcquisitionOutcome(env, job.key.model, a, input.probed, e.closed);
  }

  lemma VerifyingCaptured(env: Env, e: State, budget: seq<Time>, job: Job, a: Attempt, c: ProbeResult, fixed: Identity,
                          input: Input, now: Time)
    requires e.pool.Valid()
    ensures var out := Advance(env, e, budget, job, Verifying(a, c, fixed), input, now);
            out.next.Some? && (CapturedIn(out.next.value).Some? ==> CapturedIn(out.next.value) == Some(a.captured))
  {
    VerificationOutcome(env, job.key.model, a, c, fixed, input.probed);
  }

  lemma SettlingCaptured(env: Env, e: State, budget: seq<Time>, job: Job, phase: Phase, input: Input, now: Time)
    requires e.pool.Valid() && phase.Settling? && SettlesWell(phase)
    ensures var out := Advance(env, e, budget, job, phase, input, now);
            out.next.Some? && CapturedIn(out.next.value) == CapturedIn(phase)
  {
  }

  /** A step works on the capture it already had, or reads the clock for one. */
  lemma AdvanceCaptured(env: Env, e: State, budget: seq<Time>, job: Job, phase: Phase, input: Input, now: Time)
    requires e.pool.Valid() && SettlesWell(phase)
    ensures var out := Advance(env, e, budget, job, phase, input, now);
            out.next.Some? && CapturedIn(out.next.value).Some? ==>
              CapturedIn(out.next.value) == CapturedIn(phase) || CapturedIn(out.next.value) == Some(now)
  {
    if phase.Acquiring? {
      AcquiringCaptured(env, e, budget, job, phase.a, input, now);
    } else if phase.Verifying? {
      VerifyingCaptured(env, e, budget, job, phase.a, phase.candidate, phase.fixed, input, now);
    } else if phase.Settling? {
      SettlingCaptured(env, e, budget, job, phase, input, now);
    }
  }
}
