/** What the protocol guarantees over whole runs. */
module Theorems {
  import opened Base
  import opened PrewarmConfig
  import opened ProbeBudget
  import opened Completions
  import opened EngineState
  import opened EngineInvariants
  import opened ProxyPool
  import opened Protocol
  import opened Evidence
  import opened Invariants
  import opened Preservation
  import opened Runs

  // ---- Certificates and single flight ------------------------------------

  /** Some publication for the key is of this ticket, and has its certificate. */
  ghost predicate Vouched(env: Env, published: seq<Publication>, k: Key, t: Ticket) {
    exists p <- published :: p.ticket == t && p.job.key == k && Certified(env, p)
  }

  lemma HeldIsVouched(env: Env, e: State, published: seq<Publication>, k: Key)
    requires RecordsOk(e) && TicketsOk(e, published) && PublishedOk(env, e.version, published) && e.HasTicket(k)
    ensures var t := e.records[k].value.value;
            k in e.plans && ValidState(t.state, e.plans[k]) && Vouched(env, published, k, t)
  {
    var t := e.records[k].value.value;
    assert RecordOk(e, k);
    assert Issued(published, k, t);
    assert published[t.version - 1] in published;
  }

  /** Every ticket that is held was published with its certificate, for this key,
      and its state fits the plan the key has now. */
  lemma TicketsAreCertified(env: Env, states: seq<System>, occurrences: seq<Occurrence>, i: nat, k: Key)
    requires IsRun(env, states, occurrences) && i < |states| && states[i].engine.HasTicket(k)
    ensures var t := states[i].engine.records[k].value.value;
            && k in states[i].engine.plans
            && ValidState(t.state, states[i].engine.plans[k])
            && Vouched(env, states[i].published, k, t)
  {
    RunInv(env, states, occurrences, i);
    HeldIsVouched(env, states[i].engine, states[i].published, k);
  }

  /** For every key at most one job is queued or in hand, and exactly one while
      its record is running. */
  lemma OneJobPerKey(env: Env, states: seq<System>, occurrences: seq<Occurrence>, i: nat, k: Key)
    requires IsRun(env, states, occurrences) && i < |states|
    ensures var s := states[i];
            Count(s.engine.queue, k) + BusyCount(s.workers, k) == if s.engine.Running(k) then 1 else 0
  {
    RunInv(env, states, occurrences, i);
  }

  /** Successive tickets of a key never expire earlier than the ones before. */
  lemma ExpiriesNeverRegress(env: Env, states: seq<System>, occurrences: seq<Occurrence>, i: nat, a: nat, b: nat)
    requires IsRun(env, states, occurrences) && i < |states|
    requires a < b < |states[i].published| && states[i].published[a].job.key == states[i].published[b].job.key
    ensures states[i].published[a].ticket.expires <= states[i].published[b].ticket.expires
    ensures states[i].published[a].ticket.version < states[i].published[b].ticket.version
  {
    RunInv(env, states, occurrences, i);
    var s := states[i];
    assert Certified(env, s.published[a]) && Certified(env, s.published[b]);
    assert CapturesOrdered(s.published);
  }

  lemma EpochsBelow(e: State, ws: seq<Worker>, j: Job)
    requires JobsOk(e, ws) && (j in e.queue || exists w <- ws :: w.Busy? && w.job == j)
    ensures j.epoch <= e.epoch
  {
    assert JobOk(e, j);
  }

  /** Every reachable state is well formed: planned keys have records; a record
      without a plan is running and has no ticket; a ticket fits its plan; no
      epoch of a record or a job is ahead of the engine's; notes belong to records;
      requests stay within their limit; and a preferred proxy has no failure and
      no cooldown. */
  lemma AlwaysWellFormed(env: Env, states: seq<System>, occurrences: seq<Occurrence>, i: nat)
    requires IsRun(env, states, occurrences) && i < |states|
    ensures var e := states[i].engine;
            && (forall k | k in e.plans :: k in e.records)
            && (forall k | k in e.records && k !in e.plans :: e.records[k].running && e.records[k].value.None?)
            && (forall k | k in e.records && e.records[k].value.Some? ::
                  ValidState(e.records[k].value.value.state, e.PlanOf(k)))
            && (forall k | k in e.records :: e.records[k].epoch <= e.epoch)
            && (forall j | Outstanding(states[i], j) :: j.epoch <= e.epoch)
            && e.lastProxy.Keys <= e.records.Keys && e.lastFailure.Keys <= e.records.Keys
            && |e.requests| <= env.cfg.maxPending
            && e.pool.good < |e.pool.nodes|
            && (e.pool.good >= 0 ==> e.pool.nodes[e.pool.good].failures == 0 && e.pool.nodes[e.pool.good].cooldown == 0)
  {
    RunInv(env, states, occurrences, i);
    var e := states[i].engine;
    forall k | k in e.records
      ensures RecordOk(e, k)
    {
    }
    forall j | Outstanding(states[i], j)
      ensures j.epoch <= e.epoch
    {
      EpochsBelow(e, states[i].workers, j);
    }
  }

  // ---- One step, summarised ----------------------------------------------

  ghost predicate Outstanding(s: System, j: Job) {
    j in s.engine.queue || exists w <- s.workers :: w.Busy? && w.job == j
  }

  /** A publication by an outstanding job with the record's epoch. */
  ghost predicate PublishedBy(s: System, s': System) {
    && |s'.published| == |s.published| + 1 && s'.published[..|s.published|] == s.published
    && var p := s'.published[|s.published|];
    && Outstanding(s, p.job) && p.job.key in s.engine.records
    && s.engine.records[p.job.key].epoch == p.job.epoch
    && !s.engine.closed
    && p.ticket.version == s.engine.version + 1
    && !Withdrawn(s.engine, s'.engine, p.job.key)
  }

  ghost predicate TicketMoves(e: State, e': State, k: Key) {
    e'.HasTicket(k) ==>
      || (e.HasTicket(k) && e'.records[k].value == e.records[k].value)
      || e'.records[k].value.value.version > e.version
  }

  ghost predicate Steps(s: System, s': System) {
    var e, e' := s.engine, s'.engine;
    && e.epoch <= e'.epoch && e.enqueued <= e'.enqueued && e.version <= e'.version
    && (e.closed ==> e'.closed && s'.grants == s.grants)
    && (forall k :: EpochMoves(e, e', k))
    && (forall k :: TicketMoves(e, e', k))
    && (forall j | Outstanding(s', j) :: Outstanding(s, j) || j.serial >= e.enqueued)
    && (s'.published == s.published || PublishedBy(s, s'))
  }

  lemma EvolvingSteps(s: System, s': System)
    requires Evolves(s.engine, s'.engine) && s'.published == s.published
    requires s.engine.closed ==> s'.grants == s.grants
    requires forall w | w in s'.workers && w.Busy? :: exists v <- s.workers :: v.Busy? && v.job == w.job
    ensures Steps(s, s')
  {
    var e, e' := s.engine, s'.engine;
    forall j | Outstanding(s', j)
      ensures Outstanding(s, j) || j.serial >= e.enqueued
    {
      if j in e'.queue {
        var i :| 0 <= i < |e'.queue| && e'.queue[i] == j;
        if i < |e.queue| {
          assert e.queue[i] == j;
        }
      }
    }
    forall k
      ensures TicketMoves(e, e', k)
    {
      if e'.HasTicket(k) {
        assert e.HasTicket(k);
      }
    }
  }

  lemma SameWorkersStep(s: System, s': System)
    requires Evolves(s.engine, s'.engine)
    requires s'.workers == s.workers && s'.published == s.published && s'.grants == s.grants
    ensures Steps(s, s')
  {
    EvolvingSteps(s, s');
  }

  lemma OutsideSteps(env: Env, s: System, ev: Event, now: Time)
    requires WellFormed(env.cfg, s.engine) && Enabled(env, s, ev, now) && !ev.Take? && !ev.Work?
    ensures Steps(s, Next(env, s, ev, now))
  {
    OutsideEngine(env, s, ev, now);
    OutsideFrame(env, s, ev, now);
    SameWorkersStep(s, Next(env, s, ev, now));
  }

  lemma TakeSteps(s: System, w: nat)
    requires w < |s.workers| && s.engine.queue != []
    ensures Steps(s, TakeJob(s, w))
  {
    var s' := TakeJob(s, w);
    forall j | Outstanding(s', j)
      ensures Outstanding(s, j)
    {
      if j !in s'.engine.queue {
        var v :| v in s'.workers && v.Busy? && v.job == j;
        OtherWorkers(s.workers, w, s'.workers[w], v);
        assert s.engine.queue[0] in s.engine.queue;
      } else {
        assert j in s.engine.queue;
      }
    }
  }

  /** A worker that keeps its job, or lets go of it. */
  lemma WorkersShrink(ws: seq<Worker>, w: nat, x: Worker)
    requires w < |ws| && ws[w].Busy? && (x.Busy? ==> x.job == ws[w].job)
    ensures forall v | v in ws[w := x] && v.Busy? :: exists u <- ws :: u.Busy? && u.job == v.job
  {
    forall v | v in ws[w := x] && v.Busy?
      ensures exists u <- ws :: u.Busy? && u.job == v.job
    {
      OtherWorkers(ws, w, x, v);
      assert ws[w] in ws;
    }
  }

  lemma OrdinarySteps(env: Env, s: System, w: nat, input: Input, now: Time)
    requires Inv(env, s) && w < |s.workers| && s.workers[w].Busy? && s.clock == now
    requires Ordinary(env, s.engine, s.workers[w].job, s.workers[w].phase, now)
    ensures Steps(s, DoWork(env, s, w, input, now))
  {
    var me := s.workers[w];
    assert me in s.workers;
    var s' := DoWork(env, s, w, input, now);
    OneWorker(s.engine, s.workers, w, w);
    OrdinaryEngine(env, s.engine, s.budget, me.job, me.phase, input, now);
    WorkersShrink(s.workers, w, s'.workers[w]);
    RunSettlesWell(env, me.job.key, me.phase, me.trace, s.clock);
    ClosedGrantsNothing(env, s.engine, s.budget, me.job, me.phase, input, now);
    EvolvingSteps(s, s');
  }

  lemma ClosedGrantsNothing(env: Env, e: State, budget: seq<Time>, job: Job, phase: Phase, input: Input, now: Time)
    requires e.pool.Valid() && SettlesWell(phase)
    ensures e.closed ==> !Advance(env, e, budget, job, phase, input, now).granted
  {
    if e.closed {
      if phase.Reserving? || phase.ReservingFormal? {
        ReservingBudget(env, e, budget, job, phase, input, now);
      } else {
        OtherBudget(env, e, budget, job, phase, input, now);
      }
    }
  }

  lemma PublishedStep(env: Env, s: System, w: nat, now: Time)
    requires w < |s.workers| && MayPublish(env.cfg, s.engine, s.workers[w], now)
    ensures PublishedBy(s, Published(env, s, w, now))
  {
    assert s.workers[w] in s.workers;
  }

  lemma PublishedSteps(env: Env, s: System, w: nat, now: Time)
    requires w < |s.workers| && MayPublish(env.cfg, s.engine, s.workers[w], now)
    ensures Steps(s, Published(env, s, w, now))
  {
    var me, s' := s.workers[w], Published(env, s, w, now);
    PublishedStep(env, s, w, now);
    WorkersShrink(s.workers, w, s'.workers[w]);
    forall j | Outstanding(s', j)
      ensures Outstanding(s, j)
    {
    }
  }

  lemma PublishSteps(env: Env, s: System, w: nat, input: Input, now: Time)
    requires s.engine.pool.Valid() && w < |s.workers| && MayPublish(env.cfg, s.engine, s.workers[w], now)
    ensures Steps(s, DoWork(env, s, w, input, now))
  {
    PublishWork(env, s, w, input, now);
    PublishedSteps(env, s, w, now);
  }

  lemma EpilogueEpochs(cfg: Config, e: State, j: Job, reason: string, now: Time)
    requires RecordsOk(e)
    ensures forall k :: EpochMoves(e, Epilogue(cfg, e, j, reason, now), k)
    ensures forall k :: TicketMoves(e, Epilogue(cfg, e, j, reason, now), k)
  {
    var e' := Epilogue(cfg, e, j, reason, now);
    EpilogueShape(cfg, e, j, reason, now);
    forall k
      ensures EpochMoves(e, e', k) && TicketMoves(e, e', k)
    {
      if k in e'.records {
        assert RecordOk(e, k);
      }
    }
  }

  lemma EpilogueSteps(env: Env, s: System, w: nat, input: Input, now: Time)
    requires WellFormed(env.cfg, s.engine) && w < |s.workers| && s.workers[w].Busy? && s.workers[w].phase.Done?
    ensures Steps(s, DoWork(env, s, w, input, now))
  {
    var me := s.workers[w];
    var s' := DoWork(env, s, w, input, now);
    EpilogueWork(env, s, w, input, now);
    EpilogueShape(env.cfg, s.engine, me.job, me.phase.reason, now);
    EpilogueEpochs(env.cfg, s.engine, me.job, me.phase.reason, now);
    WorkersShrink(s.workers, w, Idle);
    forall j | Outstanding(s', j)
      ensures Outstanding(s, j)
    {
    }
  }

  lemma WorkSteps(env: Env, s: System, w: nat, input: Input, now: Time)
    requires Inv(env, s) && w < |s.workers| && s.workers[w].Busy? && s.clock == now
    ensures Steps(s, DoWork(env, s, w, input, now))
  {
    var me := s.workers[w];
    if Ordinary(env, s.engine, me.job, me.phase, now) {
      OrdinarySteps(env, s, w, input, now);
    } else if me.phase.Done? {
      EpilogueSteps(env, s, w, input, now);
    } else {
      PublishSteps(env, s, w, input, now);
    }
  }

  lemma TickSteps(s: System, t: System, s': System)
    requires t == s.(clock := t.clock) && Steps(t, s')
    ensures Steps(s, s')
  {
    forall j | Outstanding(s', j)
      ensures Outstanding(s, j) || j.serial >= s.engine.enqueued
    {
      assert Outstanding(t, j) ==> Outstanding(s, j);
    }
    if s'.published != s.published {
      assert PublishedBy(t, s');
      assert Outstanding(t, s'.published[|s.published|].job) ==> Outstanding(s, s'.published[|s.published|].job);
    }
  }

  lemma NextSteps(env: Env, s: System, ev: Event, now: Time)
    requires Inv(env, s) && Enabled(env, s, ev, now)
    ensures Steps(s, Next(env, s, ev, now))
  {
    var t := s.(clock := now);
    match ev
    case Take(w) =>
      TakeSteps(t, w);
      TickSteps(s, t, TakeJob(t, w));
    case Work(w, input) =>
      ClockKeeps(env, s, now);
      WorkSteps(env, t, w, input, now);
      TickSteps(s, t, DoWork(env, t, w, input, now));
    case _ => OutsideSteps(env, s, ev, now);
  }

  lemma OccursSteps(env: Env, s: System, o: Occurrence, s': System)
    requires Inv(env, s) && Occurs(env, s, o, s')
    ensures Steps(s, s')
  {
    NextSteps(env, s, o.event, o.now);
  }

  /** The states of a run, one step after the other. */
  ghost predicate Stepwise(states: seq<System>) {
    forall i | 0 <= i < |states| - 1 :: Steps(states[i], states[i + 1])
  }

  lemma RunIsStepwise(env: Env, states: seq<System>, occurrences: seq<Occurrence>)
    requires IsRun(env, states, occurrences)
    ensures Stepwise(states)
  {
    forall i | 0 <= i < |states| - 1
      ensures Steps(states[i], states[i + 1])
    {
      RunInv(env, states, occurrences, i);
      OccursSteps(env, states[i], occurrences[i], states[i + 1]);
    }
  }

  // ---- No stale publication ----------------------------------------------

  /** No job for the key that was enqueued before the n-th has the epoch of the
      record any more. */
  ghost predicate Barred(s: System, k: Key, n: nat, bar: nat) {
    && bar <= s.engine.epoch && n <= s.engine.enqueued
    && (forall j | Outstanding(s, j) :: j.key == k && j.serial < n ==> j.epoch <= bar)
    && (k in s.engine.records ==> s.engine.records[k].epoch > bar)
  }

  lemma BarredKept(s: System, s': System, k: Key, n: nat, bar: nat)
    requires Steps(s, s') && Barred(s, k, n, bar)
    ensures Barred(s', k, n, bar)
    ensures s'.published == s.published || s'.published[|s.published|].job.key != k
         || s'.published[|s.published|].job.serial >= n
  {
    assert EpochMoves(s.engine, s'.engine, k);
  }

  lemma WithdrawalBars(env: Env, s: System, s': System, k: Key)
    requires Inv(env, s) && Steps(s, s') && Withdrawn(s.engine, s'.engine, k)
    ensures Barred(s', k, s.engine.enqueued, s.engine.epoch)
    ensures s'.published != s.published ==> s'.published[|s.published|].job.key != k
  {
    assert EpochMoves(s.engine, s'.engine, k);
    forall j | Outstanding(s', j) && j.key == k && j.serial < s.engine.enqueued
      ensures j.epoch <= s.engine.epoch
    {
      assert Outstanding(s, j);
      assert JobOk(s.engine, j);
    }
  }

  /** Every publication from position `from` on is by a job that was enqueued as
      the n-th or later. */
  ghost predicate PublishedLater(published: seq<Publication>, from: nat, k: Key, n: nat) {
    from <= |published|
    && forall m | from <= m < |published| && published[m].job.key == k :: published[m].job.serial >= n
  }

  lemma PublishedLaterStep(s: System, s': System, from: nat, k: Key, n: nat)
    requires Steps(s, s') && PublishedLater(s.published, from, k, n)
    requires s'.published == s.published || s'.published[|s.published|].job.key != k
          || s'.published[|s.published|].job.serial >= n
    ensures PublishedLater(s'.published, from, k, n)
  {
    if s'.published != s.published {
      assert PublishedBy(s, s');
      forall m | from <= m < |s'.published| && s'.published[m].job.key == k
        ensures s'.published[m].job.serial >= n
      {
        if m < |s.published| {
          assert s'.published[m] == s.published[m];
        }
      }
    }
  }

  /** Since the n-th job and the publication `from`, the key is safe from old jobs. */
  ghost predicate Guarded(s: System, k: Key, from: nat, n: nat, bar: nat) {
    Barred(s, k, n, bar) && PublishedLater(s.published, from, k, n)
  }

  lemma GuardedFrom(env: Env, s: System, s': System, k: Key)
    requires Inv(env, s) && Steps(s, s') && Withdrawn(s.engine, s'.engine, k)
    ensures Guarded(s', k, |s.published|, s.engine.enqueued, s.engine.epoch)
  {
    WithdrawalBars(env, s, s', k);
    PublishedLaterStep(s, s', |s.published|, k, s.engine.enqueued);
  }

  lemma GuardedStep(s: System, s': System, k: Key, from: nat, n: nat, bar: nat)
    requires Steps(s, s') && Guarded(s, k, from, n, bar)
    ensures Guarded(s', k, from, n, bar)
  {
    BarredKept(s, s', k, n, bar);
    PublishedLaterStep(s, s', from, k, n);
  }

  lemma {:induction false} GuardedThroughout(states: seq<System>, i: nat, j: nat, k: Key, from: nat, n: nat, bar: nat)
    requires Stepwise(states) && i <= j < |states| && Guarded(states[i], k, from, n, bar)
    ensures Guarded(states[j], k, from, n, bar)
  {
    if i < j {
      GuardedThroughout(states, i, j - 1, k, from, n, bar);
      GuardedStep(states[j - 1], states[j], k, from, n, bar);
    }
  }

  lemma QueuedEarlier(env: Env, s: System, j: Job)
    requires Inv(env, s) && Outstanding(s, j)
    ensures j.serial < s.engine.enqueued
  {
    assert JobOk(s.engine, j);
  }

  /** Once a key's ticket is withdrawn or its plan changes or goes away, whatever
      is published for it later comes from a job that was enqueued later: none of
      the jobs that were outstanding at the time. */
  lemma NoStalePublication(env: Env, states: seq<System>, occurrences: seq<Occurrence>, i: nat, j: nat, k: Key, m: nat)
    requires IsRun(env, states, occurrences) && i < j < |states|
    requires Withdrawn(states[i].engine, states[i + 1].engine, k)
    requires |states[i].published| <= m < |states[j].published| && states[j].published[m].job.key == k
    ensures states[j].published[m].job.serial >= states[i].engine.enqueued
    ensures forall job | Outstanding(states[i], job) :: job != states[j].published[m].job
  {
    RunIsStepwise(env, states, occurrences);
    RunInv(env, states, occurrences, i);
    var s := states[i];
    GuardedFrom(env, s, states[i + 1], k);
    GuardedThroughout(states, i + 1, j, k, |s.published|, s.engine.enqueued, s.engine.epoch);
    forall job | Outstanding(states[i], job)
      ensures job != states[j].published[m].job
    {
      QueuedEarlier(env, states[i], job);
    }
  }

  // ---- A withdrawn ticket stays withdrawn --------------------------------

  ghost predicate Gone(s: System, version: nat) {
    version <= s.engine.version
    && forall k | s.engine.HasTicket(k) :: s.engine.records[k].value.value.version != version
  }

  lemma LostIsGone(s: System, s': System, k: Key)
    requires TicketsOk(s.engine, s.published) && |s.published| == s.engine.version
             && Steps(s, s') && s.engine.HasTicket(k) && !s'.engine.HasTicket(k)
    ensures Gone(s', s.engine.records[k].value.value.version)
  {
    var t := s.engine.records[k].value.value;
    assert Issued(s.published, k, t);
    forall x | s'.engine.HasTicket(x)
      ensures s'.engine.records[x].value.value.version != t.version
    {
      assert TicketMoves(s.engine, s'.engine, x);
      if s.engine.HasTicket(x) {
        assert Issued(s.published, x, s.engine.records[x].value.value);
      }
    }
  }

  lemma GoneStays(s: System, s': System, version: nat)
    requires Steps(s, s') && Gone(s, version)
    ensures Gone(s', version)
  {
    forall x | s'.engine.HasTicket(x)
      ensures s'.engine.records[x].value.value.version != version
    {
      assert TicketMoves(s.engine, s'.engine, x);
    }
  }

  lemma {:induction false} GoneThroughout(states: seq<System>, i: nat, j: nat, version: nat)
    requires Stepwise(states) && i <= j < |states| && Gone(states[i], version)
    ensures Gone(states[j], version)
  {
    if i < j {
      GoneThroughout(states, i, j - 1, version);
      GoneStays(states[j - 1], states[j], version);
    }
  }

  /** A ticket that was lost once is held by no record ever after, so it cannot
      be revoked a second time. */
  lemma LostForGood(env: Env, states: seq<System>, occurrences: seq<Occurrence>, i: nat, j: nat, k: Key)
    requires IsRun(env, states, occurrences) && i < j < |states|
    requires states[i].engine.HasTicket(k) && !states[i + 1].engine.HasTicket(k)
    ensures Gone(states[j], states[i].engine.records[k].value.value.version)
  {
    RunIsStepwise(env, states, occurrences);
    RunInv(env, states, occurrences, i);
    LostIsGone(states[i], states[i + 1], k);
    GoneThroughout(states, i + 1, j, states[i].engine.records[k].value.value.version);
  }

  // ---- Closing -----------------------------------------------------------

  lemma ClosedStep(s: System, s': System)
    requires Steps(s, s') && s.engine.closed
    ensures s'.engine.closed && s'.grants == s.grants && s'.published == s.published
  {
  }

  lemma {:induction false} ClosedThroughout(states: seq<System>, i: nat, j: nat)
    requires Stepwise(states) && i <= j < |states| && states[i].engine.closed
    ensures states[j].engine.closed
    ensures states[j].grants == states[i].grants && states[j].published == states[i].published
  {
    if i < j {
      ClosedThroughout(states, i, j - 1);
      ClosedStep(states[j - 1], states[j]);
    }
  }

  /** A closed engine stays closed, grants no probe and publishes no ticket. */
  lemma ClosedIsFinal(env: Env, states: seq<System>, occurrences: seq<Occurrence>, i: nat, j: nat)
    requires IsRun(env, states, occurrences) && i <= j < |states| && states[i].engine.closed
    ensures states[j].engine.closed
    ensures states[j].grants == states[i].grants && states[j].published == states[i].published
  {
    RunIsStepwise(env, states, occurrences);
    ClosedThroughout(states, i, j);
  }

  /** A hit of Bind hands out a live verified ticket, and only from an open engine. */
  lemma HitsAreLive(cfg: Config, e: State, id: string, k: Key, reply: Option<Identity>, callerState: bool, now: Time)
    requires Bind(cfg, e, id, k, reply, callerState, now).1.Some?
    ensures var t := Bind(cfg, e, id, k, reply, callerState, now).1.value;
            && !e.closed && !callerState && k in e.plans
            && e.HasTicket(k) && e.records[k].value.value == t
            && now < t.expires
            && reply.Some? && reply.value.scope == t.scope && IdentityPlanMatches(cfg, reply.value.plan, e.plans[k])
  {
    var e1 := Tombstone(e, id, now);
    TombstoneInherits(e, id, now);
    DropStaleShape(cfg, e1, k, reply, now);
    OfferRequests(cfg, DropStale(cfg, e1, k, reply, now), id, k,
                  if id in e.requests then None else Some(NewParser(k.model)), callerState, now);
  }

  // ---- The budget --------------------------------------------------------

  /** Every probe that any engine sent was granted, and every one-hour window
      holds at most the limit in force for the last grant in it. */
  lemma ProbesStayWithinBudget(env: Env, states: seq<System>, occurrences: seq<Occurrence>, i: nat, now: Time,
                               last: nat)
    requires IsRun(env, states, occurrences) && i < |states|
    requires last < |states[i].grants| && states[i].grants[last].now <= now
    requires forall g | last < g < |states[i].grants| :: now < states[i].grants[g].now
    ensures InWindow(states[i].grants, now) <= states[i].grants[last].limit
    ensures states[i].probes + Pending(states[i].workers) == |states[i].grants|
  {
    RunInv(env, states, occurrences, i);
    WindowBound(states[i].grants, now, last);
  }
}
