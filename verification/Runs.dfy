/** The invariants hold in every state of every run. */
module Runs {
  import opened Base
  import opened PrewarmConfig
  import opened ProbeBudget
  import opened Completions
  import opened EngineState
  import opened EngineInvariants
  import opened ProxyPool
  import opened Protocol
  import opened Evidence
  import opened Invariants
  import opened Preservation

  // ---- An ordinary worker step -------------------------------------------

  /** Moving one worker, and the engine with it. */
  lemma MovingKeeps(env: Env, s: System, s': System, w: nat)
    requires Inv(env, s) && w < |s.workers| && s.workers[w].Busy?
    requires |s'.workers| == |s.workers| && s'.workers == s.workers[w := s'.workers[w]]
    requires s'.workers[w].Busy? && s'.workers[w].job == s.workers[w].job
    requires s'.published == s.published && s'.handed == s.handed && s'.clock == s.clock
    requires Progress(env, s.engine, s'.engine)
    requires var x := s'.workers[w];
             && RunOk(env, x.job.key, x.phase, x.trace, s.clock)
             && (CapturedIn(x.phase).Some? ==> CapturedBy(s.published, x.job.key, CapturedIn(x.phase).value))
    requires BudgetOk(s'.budget, s'.grants, s'.clock, s'.probes, s'.workers)
    ensures Inv(env, s')
  {
    var x := s'.workers[w];
    EvolvingFlight(s.engine, s'.engine, s.workers);
    MovedFlight(s'.engine, s.workers, w, x);
    EvolvingJobs(s.engine, s'.engine, s.workers);
    MovedJobs(s'.engine, s.workers, w, x);
    EvolvingTickets(s.engine, s'.engine, s.published);
    MovedRuns(env, s.workers, w, x, s.clock);
    MovedCaptures(s.workers, w, x, s.published, s.clock);
  }

  lemma WorkKeepsBudget(env: Env, s: System, w: nat, input: Input, now: Time)
    requires Inv(env, s) && w < |s.workers| && s.workers[w].Busy? && s.clock == now
    ensures var s' := DoWork(env, s, w, input, now);
            BudgetOk(s'.budget, s'.grants, s'.clock, s'.probes, s'.workers)
  {
    var me := s.workers[w];
    assert me in s.workers;
    RunSettlesWell(env, me.job.key, me.phase, me.trace, s.clock);
    if me.phase.Reserving? || me.phase.ReservingFormal? {
      ReservingKeepsBudget(env, s, w, input, now);
    } else {
      OtherKeepsBudget(env, s, w, input, now);
    }
  }

  lemma OrdinaryKeepsInv(env: Env, s: System, w: nat, input: Input, now: Time)
    requires Inv(env, s) && w < |s.workers| && s.workers[w].Busy? && s.clock == now
    requires Ordinary(env, s.engine, s.workers[w].job, s.workers[w].phase, now)
    ensures Inv(env, DoWork(env, s, w, input, now))
  {
    var me := s.workers[w];
    assert me in s.workers;
    OneWorker(s.engine, s.workers, w, w);
    OrdinaryEngine(env, s.engine, s.budget, me.job, me.phase, input, now);
    AdvanceRunOk(env, s.engine, s.budget, me.job, me.phase, input, me.trace, now);
    RunSettlesWell(env, me.job.key, me.phase, me.trace, s.clock);
    AdvanceCaptured(env, s.engine, s.budget, me.job, me.phase, input, now);
    WorkKeepsBudget(env, s, w, input, now);
    MovingKeeps(env, s, DoWork(env, s, w, input, now), w);
  }

  // ---- Publication -------------------------------------------------------

  lemma IssuedGrows(published: seq<Publication>, p: Publication, k: Key, t: Ticket)
    requires Issued(published, k, t)
    ensures Issued(published + [p], k, t)
  {
  }

  lemma PublishTickets(cfg: Config, e: State, job: Job, state: string, scope: string, captured: Time,
                       published: seq<Publication>, p: Publication)
    requires TicketsOk(e, published) && |published| == e.version && job.key in e.records
    requires p.ticket == NewTicket(cfg, e, state, scope, captured) && p.job == job
    ensures TicketsOk(Publish(cfg, e, job, state, scope, captured), published + [p])
  {
    var e' := Publish(cfg, e, job, state, scope, captured);
    forall k | e'.HasTicket(k)
      ensures Issued(published + [p], k, e'.records[k].value.value)
    {
      if k != job.key {
        assert e.HasTicket(k);
        IssuedGrows(published, p, k, e.records[k].value.value);
      }
    }
  }

  lemma PublishObservations(requests: map<string, Observation>, handed: map<string, Ticket>,
                            published: seq<Publication>, p: Publication)
    requires ObservationsOk(requests, published, handed)
    ensures ObservationsOk(requests, published + [p], handed)
  {
    forall id | id in requests
      ensures ObservationOk(requests[id], published + [p], handed[id])
    {
      IssuedGrows(published, p, requests[id].key, handed[id]);
    }
  }

  lemma PublishFlight(cfg: Config, e: State, job: Job, state: string, scope: string, captured: Time, ws: seq<Worker>)
    requires SingleFlight(e, ws) && JobsOk(e, ws) && job.key in e.records
    ensures SingleFlight(Publish(cfg, e, job, state, scope, captured), ws)
    ensures JobsOk(Publish(cfg, e, job, state, scope, captured), ws)
  {
    var e' := Publish(cfg, e, job, state, scope, captured);
    forall k
      ensures Count(e'.queue, k) + BusyCount(ws, k) == Flag(e'.Running(k))
    {
      assert Count(e.queue, k) + BusyCount(ws, k) == Flag(e.Running(k));
    }
    forall j | JobOk(e, j) ensures JobOk(e', j) { }
  }

  /** Only the publishing worker was collecting for the key, so its capture is
      the latest. */
  lemma PublishCaptures(e: State, ws: seq<Worker>, w: nat, x: Worker, published: seq<Publication>, p: Publication,
                        clock: Time)
    requires CapturesOk(ws, published, clock) && SingleFlight(e, ws)
    requires w < |ws| && ws[w].Busy? && ws[w].job == p.job && CapturedIn(ws[w].phase) == Some(p.captured)
    requires p.captured <= clock && (x.Busy? ==> CapturedIn(x.phase).None?)
    ensures CapturesOk(ws[w := x], published + [p], clock)
  {
    assert ws[w] in ws;
    assert CapturedBy(published, p.job.key, p.captured);
    forall v | v in ws[w := x] && v.Busy? && CapturedIn(v.phase).Some?
      ensures CapturedBy(published + [p], v.job.key, CapturedIn(v.phase).value)
    {
      OtherWorkers(ws, w, x, v);
      var i :| 0 <= i < |ws| && i != w && ws[i] == v;
      OneWorker(e, ws, w, i);
      assert CapturedBy(published, v.job.key, CapturedIn(v.phase).value);
    }
    LastCapture(published, p);
  }

  lemma LastCapture(published: seq<Publication>, p: Publication)
    requires CapturesOrdered(published) && CapturedBy(published, p.job.key, p.captured)
    ensures CapturesOrdered(published + [p])
  {
    var after := published + [p];
    forall i, j | 0 <= i < j < |after| && after[i].job.key == after[j].job.key
      ensures after[i].captured <= after[j].captured
    {
      assert after[i] in published;
    }
  }

  /** What a publishing worker publishes. */
  function PublicationOf(cfg: Config, e: State, me: Worker, now: Time): Publication
    requires me.Busy? && me.phase.Publishing?
  {
    var a := me.phase.a;
    Publication(me.job, a.plan, a.captured,
                NewTicket(cfg, e, me.phase.candidate.state, me.phase.current.scope, a.captured),
                now, me.trace)
  }

  ghost predicate MayPublish(cfg: Config, e: State, me: Worker, now: Time) {
    me.Busy? && me.phase.Publishing? && CanPublish(cfg, e, me.job, me.phase.a.plan, me.phase.a.captured, now)
  }

  lemma PublicationOk(env: Env, e: State, ws: seq<Worker>, w: nat, now: Time)
    requires RunsOk(env, ws, now) && w < |ws| && MayPublish(env.cfg, e, ws[w], now)
    ensures var p := PublicationOf(env.cfg, e, ws[w], now);
            && Certified(env, p) && p.ticket.version == e.version + 1
            && ValidState(p.ticket.state, p.plan) && p.captured <= now
  {
    assert ws[w] in ws;
    PublicationCertified(env, e, ws[w].job, ws[w].phase, ws[w].trace, now);
  }

  lemma PublishedGrows(env: Env, e: State, ws: seq<Worker>, w: nat, published: seq<Publication>, now: Time)
    requires PublishedOk(env, e.version, published)
    requires RunsOk(env, ws, now) && w < |ws| && MayPublish(env.cfg, e, ws[w], now)
    ensures PublishedOk(env, e.version + 1, published + [PublicationOf(env.cfg, e, ws[w], now)])
  {
    PublicationOk(env, e, ws, w, now);
  }

  /** The engine and the workers after a publication. */
  lemma PublishMoves(env: Env, s: System, w: nat, now: Time)
    requires WellFormed(env.cfg, s.engine) && UrlsOk(env, s.engine) && w < |s.workers|
    requires SingleFlight(s.engine, s.workers) && JobsOk(s.engine, s.workers)
    requires MayPublish(env.cfg, s.engine, s.workers[w], now)
    requires ValidState(s.workers[w].phase.candidate.state, s.workers[w].phase.a.plan)
    ensures var me := s.workers[w];
            var e' := Publish(env.cfg, s.engine, me.job, me.phase.candidate.state, me.phase.current.scope,
                              me.phase.a.captured);
            var ws := s.workers[w := Busy(me.job, Done("ready"), me.trace)];
            WellFormed(env.cfg, e') && UrlsOk(env, e') && SingleFlight(e', ws) && JobsOk(e', ws)
  {
    var me := s.workers[w];
    var a, state, scope := me.phase.a, me.phase.candidate.state, me.phase.current.scope;
    var e' := Publish(env.cfg, s.engine, me.job, state, scope, a.captured);
    var x := Busy(me.job, Done("ready"), me.trace);
    PublishWellFormed(env.cfg, s.engine, me.job, a.plan, state, scope, a.captured, now);
    PublishFlight(env.cfg, s.engine, me.job, state, scope, a.captured, s.workers);
    MovedFlight(e', s.workers, w, x);
    MovedJobs(e', s.workers, w, x);
  }

  /** What has happened, after a publication. */
  lemma PublishRecords(env: Env, s: System, w: nat, now: Time)
    requires w < |s.workers| && MayPublish(env.cfg, s.engine, s.workers[w], now) && s.clock == now
    requires PublishedOk(env, s.engine.version, s.published) && TicketsOk(s.engine, s.published)
    requires ObservationsOk(s.engine.requests, s.published, s.handed) && RunsOk(env, s.workers, now)
    ensures var me := s.workers[w];
            var p := PublicationOf(env.cfg, s.engine, me, now);
            var e' := Publish(env.cfg, s.engine, me.job, me.phase.candidate.state, me.phase.current.scope,
                              me.phase.a.captured);
            && PublishedOk(env, e'.version, s.published + [p]) && TicketsOk(e', s.published + [p])
            && ObservationsOk(e'.requests, s.published + [p], s.handed)
  {
    var me := s.workers[w];
    var a, state, scope := me.phase.a, me.phase.candidate.state, me.phase.current.scope;
    var p := PublicationOf(env.cfg, s.engine, me, now);
    PublishedGrows(env, s.engine, s.workers, w, s.published, now);
    PublishTickets(env.cfg, s.engine, me.job, state, scope, a.captured, s.published, p);
    PublishObservations(s.engine.requests, s.handed, s.published, p);
  }

  /** The runs and captures of the workers after a publication. */
  lemma PublishRuns(env: Env, s: System, w: nat, now: Time)
    requires w < |s.workers| && MayPublish(env.cfg, s.engine, s.workers[w], now) && s.clock == now
    requires s.workers[w].phase.a.captured <= now
    requires RunsOk(env, s.workers, now) && CapturesOk(s.workers, s.published, now) && SingleFlight(s.engine, s.workers)
    ensures var me := s.workers[w];
            var ws := s.workers[w := Busy(me.job, Done("ready"), me.trace)];
            RunsOk(env, ws, now) && CapturesOk(ws, s.published + [PublicationOf(env.cfg, s.engine, me, now)], now)
  {
    var me := s.workers[w];
    var x := Busy(me.job, Done("ready"), me.trace);
    GivingUpOk(env, me.job.key, x.phase, me.trace, now);
    MovedRuns(env, s.workers, w, x, now);
    PublishCaptures(s.engine, s.workers, w, x, s.published, PublicationOf(env.cfg, s.engine, me, now), now);
  }

  lemma PublishBudget(s: System, w: nat, x: Worker)
    requires BudgetOk(s.budget, s.grants, s.clock, s.probes, s.workers) && w < |s.workers|
    requires !Spends(s.workers[w]) && !Spends(x)
    ensures BudgetOk(s.budget, s.grants, s.clock, s.probes, s.workers[w := x])
  {
    PendingUpdate(s.workers, w, x);
  }

  /** The system after the publication of worker w. */
  function Published(env: Env, s: System, w: nat, now: Time): System
    requires w < |s.workers| && MayPublish(env.cfg, s.engine, s.workers[w], now)
  {
    var me := s.workers[w];
    s.(engine := Publish(env.cfg, s.engine, me.job, me.phase.candidate.state, me.phase.current.scope,
                         me.phase.a.captured),
       workers := s.workers[w := Busy(me.job, Done("ready"), me.trace)],
       published := s.published + [PublicationOf(env.cfg, s.engine, me, now)])
  }

  lemma PublishedEngine(env: Env, s: System, w: nat, now: Time)
    requires Inv(env, s) && w < |s.workers| && s.clock == now && MayPublish(env.cfg, s.engine, s.workers[w], now)
    ensures var s' := Published(env, s, w, now);
            WellFormed(env.cfg, s'.engine) && UrlsOk(env, s'.engine)
            && SingleFlight(s'.engine, s'.workers) && JobsOk(s'.engine, s'.workers)
  {
    PublicationOk(env, s.engine, s.workers, w, now);
    PublishMoves(env, s, w, now);
  }

  lemma PublishedRecords(env: Env, s: System, w: nat, now: Time)
    requires Inv(env, s) && w < |s.workers| && s.clock == now && MayPublish(env.cfg, s.engine, s.workers[w], now)
    ensures var s' := Published(env, s, w, now);
            PublishedOk(env, s'.engine.version, s'.published) && TicketsOk(s'.engine, s'.published)
            && ObservationsOk(s'.engine.requests, s'.published, s'.handed)
  {
    PublishRecords(env, s, w, now);
  }

  lemma PublishedWorkers(env: Env, s: System, w: nat, now: Time)
    requires Inv(env, s) && w < |s.workers| && s.clock == now && MayPublish(env.cfg, s.engine, s.workers[w], now)
    ensures var s' := Published(env, s, w, now);
            RunsOk(env, s'.workers, s'.clock) && CapturesOk(s'.workers, s'.published, s'.clock)
            && BudgetOk(s'.budget, s'.grants, s'.clock, s'.probes, s'.workers)
  {
    PublicationOk(env, s.engine, s.workers, w, now);
    PublishRuns(env, s, w, now);
    PublishBudget(s, w, Busy(s.workers[w].job, Done("ready"), s.workers[w].trace));
  }

  lemma PublishedInv(env: Env, s: System, w: nat, now: Time)
    requires Inv(env, s) && w < |s.workers| && s.clock == now && MayPublish(env.cfg, s.engine, s.workers[w], now)
    ensures Inv(env, Published(env, s, w, now))
  {
    PublishedEngine(env, s, w, now);
    PublishedRecords(env, s, w, now);
    PublishedWorkers(env, s, w, now);
  }

  lemma PublishKeepsInv(env: Env, s: System, w: nat, input: Input, now: Time)
    requires Inv(env, s) && w < |s.workers| && s.clock == now && MayPublish(env.cfg, s.engine, s.workers[w], now)
    ensures Inv(env, DoWork(env, s, w, input, now))
  {
    PublishedInv(env, s, w, now);
    PublishWork(env, s, w, input, now);
  }

  /** The publishing step, spelled out. */
  lemma PublishWork(env: Env, s: System, w: nat, input: Input, now: Time)
    requires w < |s.workers| && s.engine.pool.Valid() && MayPublish(env.cfg, s.engine, s.workers[w], now)
    ensures DoWork(env, s, w, input, now) == Published(env, s, w, now)
  {
  }

  // ---- The end of a job --------------------------------------------------

  lemma EpilogueFlight(cfg: Config, e: State, ws: seq<Worker>, w: nat, reason: string, now: Time)
    requires SingleFlight(e, ws) && w < |ws| && ws[w].Busy?
    ensures SingleFlight(Epilogue(cfg, e, ws[w].job, reason, now), ws[w := Idle])
  {
    var e' := Epilogue(cfg, e, ws[w].job, reason, now);
    EpilogueShape(cfg, e, ws[w].job, reason, now);
    OneWorker(e, ws, w, w);
    forall k
      ensures Count(e'.queue, k) + BusyCount(ws[w := Idle], k) == Flag(e'.Running(k))
    {
      BusyUpdate(ws, w, Idle, k);
      assert Count(e.queue, k) + BusyCount(ws, k) == Flag(e.Running(k));
    }
  }

  lemma EpilogueHistory(cfg: Config, e: State, job: Job, reason: string, now: Time, published: seq<Publication>,
                        ws: seq<Worker>)
    requires TicketsOk(e, published) && JobsOk(e, ws)
    ensures TicketsOk(Epilogue(cfg, e, job, reason, now), published) && JobsOk(Epilogue(cfg, e, job, reason, now), ws)
  {
    var e' := Epilogue(cfg, e, job, reason, now);
    EpilogueShape(cfg, e, job, reason, now);
    forall k | e'.HasTicket(k)
      ensures Issued(published, k, e'.records[k].value.value)
    {
      assert e.HasTicket(k);
    }
    forall j | JobOk(e, j) ensures JobOk(e', j) { }
  }

  lemma EpilogueKeepsInv(env: Env, s: System, w: nat, input: Input, now: Time)
    requires Inv(env, s) && w < |s.workers| && s.workers[w].Busy? && s.clock == now && s.workers[w].phase.Done?
    ensures Inv(env, DoWork(env, s, w, input, now))
  {
    var me := s.workers[w];
    var reason := me.phase.reason;
    var e' := Epilogue(env.cfg, s.engine, me.job, reason, now);
    OneWorker(s.engine, s.workers, w, w);
    EpilogueWellFormed(env.cfg, s.engine, me.job, reason, now);
    EpilogueShape(env.cfg, s.engine, me.job, reason, now);
    EpilogueFlight(env.cfg, s.engine, s.workers, w, reason, now);
    EpilogueHistory(env.cfg, s.engine, me.job, reason, now, s.published, s.workers);
    MovedJobs(e', s.workers, w, Idle);
    MovedRuns(env, s.workers, w, Idle, s.clock);
    MovedCaptures(s.workers, w, Idle, s.published, s.clock);
    WorkKeepsBudget(env, s, w, input, now);
    EpilogueWork(env, s, w, input, now);
  }

  lemma EpilogueWork(env: Env, s: System, w: nat, input: Input, now: Time)
    requires w < |s.workers| && s.workers[w].Busy? && s.workers[w].phase.Done? && s.engine.pool.Valid()
    ensures DoWork(env, s, w, input, now)
         == s.(engine := Epilogue(env.cfg, s.engine, s.workers[w].job, s.workers[w].phase.reason, now),
               workers := s.workers[w := Idle])
  {
  }

  // ---- Every event, every run --------------------------------------------

  lemma WorkKeepsInv(env: Env, s: System, w: nat, input: Input, now: Time)
    requires Inv(env, s) && w < |s.workers| && s.workers[w].Busy? && s.clock == now
    ensures Inv(env, DoWork(env, s, w, input, now))
  {
    var me := s.workers[w];
    if Ordinary(env, s.engine, me.job, me.phase, now) {
      OrdinaryKeepsInv(env, s, w, input, now);
    } else if me.phase.Done? {
      EpilogueKeepsInv(env, s, w, input, now);
    } else {
      PublishKeepsInv(env, s, w, input, now);
    }
  }

  lemma NextTicked(env: Env, s: System, ev: Event, now: Time)
    requires Enabled(env, s, ev, now)
    ensures Enabled(env, s.(clock := now), ev, now) && Next(env, s.(clock := now), ev, now) == Next(env, s, ev, now)
  {
  }

  /** Every event keeps every invariant. */
  lemma NextKeepsInv(env: Env, s: System, ev: Event, now: Time)
    requires Inv(env, s) && Enabled(env, s, ev, now)
    ensures Inv(env, Next(env, s, ev, now))
  {
    var t := s.(clock := now);
    ClockKeeps(env, s, now);
    NextTicked(env, s, ev, now);
    match ev
    case Take(w) => TakeKeepsInv(env, t, w);
    case Work(w, input) => WorkKeepsInv(env, t, w, input, now);
    case _ => EventKeepsInv(env, t, ev, now);
  }

  lemma {:induction false} IdleCounts(ws: seq<Worker>, k: Key)
    requires forall w <- ws :: w.Idle?
    ensures BusyCount(ws, k) == 0 && Pending(ws) == 0
  {
    if ws != [] {
      assert ws[|ws| - 1] in ws;
      forall w | w in ws[..|ws| - 1] ensures w.Idle? { assert w in ws; }
      IdleCounts(ws[..|ws| - 1], k);
    }
  }

  lemma InitInv(env: Env, s: System)
    requires Init(env, s)
    ensures Inv(env, s)
  {
    InitialWellFormed(env.cfg, env.proxies);
    forall k
      ensures Count(s.engine.queue, k) + BusyCount(s.workers, k) == Flag(s.engine.Running(k))
      ensures Pending(s.workers) == 0
    {
      IdleCounts(s.workers, k);
    }
    IdleCounts(s.workers, Key("", ""));
    forall n | n in s.engine.pool.nodes ensures n.url in env.proxies {
      var i :| 0 <= i < |s.engine.pool.nodes| && s.engine.pool.nodes[i] == n;
    }
  }

  lemma RunStep(env: Env, states: seq<System>, occurrences: seq<Occurrence>, i: nat)
    requires IsRun(env, states, occurrences) && i < |occurrences|
    ensures Occurs(env, states[i], occurrences[i], states[i + 1])
  {
  }

  ghost predicate KeepsInv(env: Env, s: System, s': System) {
    Inv(env, s) ==> Inv(env, s')
  }

  lemma StepKeepsInv(env: Env, s: System, o: Occurrence, s': System)
    requires Occurs(env, s, o, s')
    ensures KeepsInv(env, s, s')
  {
    if Inv(env, s) {
      NextKeepsInv(env, s, o.event, o.now);
    }
  }

  lemma {:induction false} InvThroughout(env: Env, states: seq<System>, i: nat)
    requires i < |states| && Inv(env, states[0])
    requires forall p | 0 <= p < |states| - 1 :: KeepsInv(env, states[p], states[p + 1])
    ensures Inv(env, states[i])
  {
    if i > 0 {
      InvThroughout(env, states, i - 1);
      assert KeepsInv(env, states[i - 1], states[i]);
    }
  }

  /** The invariants hold throughout every run. */
  lemma RunInv(env: Env, states: seq<System>, occurrences: seq<Occurrence>, i: nat)
    requires IsRun(env, states, occurrences) && i < |states|
    ensures Inv(env, states[i])
  {
    InitInv(env, states[0]);
    forall p | 0 <= p < |states| - 1
      ensures KeepsInv(env, states[p], states[p + 1])
    {
      RunStep(env, states, occurrences, p);
      StepKeepsInv(env, states[p], occurrences[p], states[p + 1]);
    }
    InvThroughout(env, states, i);
  }

  lemma RunWellFormed(env: Env, states: seq<System>, occurrences: seq<Occurrence>, i: nat)
    requires IsRun(env, states, occurrences) && i < |states|
    ensures WellFormed(env.cfg, states[i].engine)
  {
    RunInv(env, states, occurrences, i);
  }
}
