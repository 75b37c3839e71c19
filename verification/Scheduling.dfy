/** When work on a key starts and how it ends, in numbers: a pass of the scheduler,
    and the end of a job (internal/prewarm/engine.go, schedule and worker). */
module Scheduling {
  import opened Base
  import opened PrewarmConfig
  import opened EngineState
  import opened EngineInvariants
  import opened Protocol
  import opened Guarantees
  import opened Runs
  import opened Hits
  import opened Collecting
  import opened ProxyPool

  // ---- A pass of the scheduler -------------------------------------------

  /** The records after some of them started running. */
  ghost predicate SomeStarted(e: State, e': State) {
    && e'.records.Keys == e.records.Keys
    && (forall k | k in e.records :: e'.records[k] == e.records[k].(running := e'.records[k].running))
    && (forall k | k in e.records && e.records[k].running :: e'.records[k].running)
    && e'.plans == e.plans && e'.closed == e.closed && e'.capacity == e.capacity && |e.queue| <= |e'.queue|
  }

  lemma EnqueueStarts(e: State, k: Key, now: Time)
    ensures SomeStarted(e, Enqueue(e, k, now))
    ensures Enqueue(e, k, now).Running(k) && !e.Running(k) <==> Startable(e, k, now)
    ensures forall x | x != k :: SameRecord(e, Enqueue(e, k, now), x)
  {
  }

  lemma StartedTransitive(e: State, e1: State, e2: State)
    requires SomeStarted(e, e1) && SomeStarted(e1, e2)
    ensures SomeStarted(e, e2)
  {
    forall k | k in e.records
      ensures e2.records[k] == e.records[k].(running := e2.records[k].running)
    {
      assert e1.records[k] == e.records[k].(running := e1.records[k].running);
    }
  }

  /** What may be started at all. */
  predicate MayStart(cfg: Config, e: State, k: Key, now: Time) {
    && !e.closed && k in e.plans && k in e.records && !e.records[k].running && e.records[k].cooldown <= now
    && !Lasting(cfg, e.records[k], now)
  }

  lemma {:induction false} DueStarts(cfg: Config, e: State, order: seq<Key>, now: Time)
    ensures SomeStarted(e, EnqueueDue(cfg, e, order, now))
    decreases |order|
  {
    if order != [] {
      var k := order[0];
      var e1 := if k in e.records && Due(cfg, e.records[k], now) then Enqueue(e, k, now) else e;
      EnqueueStarts(e, k, now);
      DueStarts(cfg, e1, order[1..], now);
      StartedTransitive(e, e1, EnqueueDue(cfg, e1, order[1..], now));
    }
  }

  lemma {:induction false} StartsOnlyDue(cfg: Config, e: State, order: seq<Key>, now: Time, k: Key)
    requires EnqueueDue(cfg, e, order, now).Running(k) && !e.Running(k)
    ensures MayStart(cfg, e, k, now)
    decreases |order|
  {
    if order != [] {
      var x := order[0];
      var e1 := if x in e.records && Due(cfg, e.records[x], now) then Enqueue(e, x, now) else e;
      EnqueueStarts(e, x, now);
      if !e1.Running(k) {
        StartsOnlyDue(cfg, e1, order[1..], now, k);
      }
    }
  }

  /** A pass forgets exactly the requests that were bound more than two hours ago,
      and leaves the others as they are. */
  lemma PassForgets(env: Env, s: System, o: Occurrence, s': System, id: string)
    requires WellFormed(env.cfg, s.engine) && Occurs(env, s, o, s') && o.event.Scheduler?
    ensures id in s'.engine.requests
       <==> id in s.engine.requests && o.now <= s.engine.requests[id].created + 7_200_000_000_000
    ensures id in s'.engine.requests ==> s'.engine.requests[id] == s.engine.requests[id]
  {
    ScheduleKeeps(env.cfg, s.engine, o.event.order, o.now);
  }

  lemma ScheduleStartsIff(cfg: Config, e: State, order: seq<Key>, now: Time, k: Key)
    requires WellFormed(cfg, e) && Visits(order, e.records.Keys)
    ensures var e' := Schedule(cfg, e, order, now);
            && SomeStarted(e, e')
            && (e'.Running(k) && !e.Running(k) ==> MayStart(cfg, e, k, now))
            && (MayStart(cfg, e, k, now) ==> e'.Running(k) || |e'.queue| >= e'.capacity)
  {
    var e1 := PurgeRequests(e, now);
    DueStarts(cfg, e1, order, now);
    assert SomeStarted(e, e1);
    StartedTransitive(e, e1, Schedule(cfg, e, order, now));
    if Schedule(cfg, e, order, now).Running(k) && !e.Running(k) {
      StartsOnlyDue(cfg, e1, order, now, k);
    }
    if MayStart(cfg, e, k, now) {
      ScheduleCovers(cfg, e, order, now, k);
    }
  }

  /** A pass starts a job for a key only if the key is planned, idle, not cooling down
      and without a ticket that lasts beyond the refresh window; and it does so for
      every such key, unless the queue is full in the end. It changes nothing else
      about a record. */
  lemma PassStartsIff(env: Env, s: System, o: Occurrence, s': System, k: Key)
    requires WellFormed(env.cfg, s.engine) && Occurs(env, s, o, s') && o.event.Scheduler?
    ensures s'.engine.Running(k) && !s.engine.Running(k) ==> MayStart(env.cfg, s.engine, k, o.now)
    ensures MayStart(env.cfg, s.engine, k, o.now) ==>
              s'.engine.Running(k) || |s'.engine.queue| >= s'.engine.capacity
    ensures SomeStarted(s.engine, s'.engine)
  {
    ScheduleStartsIff(env.cfg, s.engine, o.event.order, o.now, k);
  }

  /** Shutting down closes the engine, and does nothing else to it. */
  lemma ShutdownCloses(env: Env, s: System, o: Occurrence, s': System)
    requires Occurs(env, s, o, s') && o.event.Shutdown?
    ensures s'.engine.closed && s'.engine.(closed := s.engine.closed) == s.engine && s'.workers == s.workers
  {
  }

  // ---- The end of a job --------------------------------------------------

  /** What is left of a record after its job. */
  ghost predicate RecordEnds(cfg: Config, e: State, e': State, job: Job, reason: string, now: Time)
    requires job.key in e.records
  {
    var r := e.records[job.key];
    if job.key in e.plans then
      && job.key in e'.records
      && e'.records[job.key]
      == Record(r.value, r.epoch, false,
                if reason != "ready" && !e.closed && r.epoch == job.epoch then now + cfg.cooldown else r.cooldown)
    else job.key !in e'.records
  }

  lemma EpilogueEnds(cfg: Config, e: State, job: Job, reason: string, now: Time)
    requires job.key in e.records
    ensures RecordEnds(cfg, e, Epilogue(cfg, e, job, reason, now), job, reason, now)
    ensures forall k | k != job.key :: SameRecord(e, Epilogue(cfg, e, job, reason, now), k)
  {
  }

  /** When a job ends its worker is free. The record of a planned key rests, with
      ticket and epoch as they were; it cools down for the configured time exactly
      after a failure of its own epoch in an open engine. The record of a key that is
      not planned any more is gone. */
  lemma JobEnds(env: Env, s: System, o: Occurrence, s': System, w: nat, job: Job, reason: string)
    requires Occurs(env, s, o, s') && o.event.Work? && o.event.w == w && InPhase(s, w, job, Done(reason))
    requires job.key in s.engine.records
    ensures w < |s'.workers| && s'.workers[w].Idle?
    ensures RecordEnds(env.cfg, s.engine, s'.engine, job, reason, o.now)
    ensures forall k | k != job.key :: SameRecord(s.engine, s'.engine, k)
  {
    EpilogueWork(env, s.(clock := o.now), w, o.event.input, o.now);
    EpilogueEnds(env.cfg, s.engine, job, reason, o.now);
  }

  /** After a failure of its own epoch a planned key can be started again exactly
      from the end of the cooldown on. */
  lemma FailureRestsExactly(env: Env, s: System, o: Occurrence, s': System, w: nat, job: Job, reason: string,
                            later: Time)
    requires Occurs(env, s, o, s') && o.event.Work? && o.event.w == w && InPhase(s, w, job, Done(reason))
    requires reason != "ready" && !s.engine.closed && job.key in s.engine.plans && job.key in s.engine.records
    requires s.engine.records[job.key].epoch == job.epoch && |s.engine.queue| < s.engine.capacity
    ensures Enqueue(s'.engine, job.key, later).Running(job.key) <==> o.now + env.cfg.cooldown <= later
  {
    EpilogueWork(env, s.(clock := o.now), w, o.event.input, o.now);
    JobEnds(env, s, o, s', w, job, reason);
    EnqueueStarts(s'.engine, job.key, later);
  }

  // ---- Marks -------------------------------------------------------------

  /** A mark by a worker counts for the proxy it names: a success clears failures and
      rest and makes it the preferred one; the n-th failure in a row gives it n minutes
      of rest, or the configured cooldown if that is less. */
  lemma MarkCounts(env: Env, s: System, o: Occurrence, s': System, w: nat, job: Job, index: nat, ok: bool,
                   rest: seq<Chore>, next: Phase)
    requires Occurs(env, s, o, s') && o.event.Work? && o.event.w == w
    requires InPhase(s, w, job, Settling([Mark(index, ok)] + rest, next)) && index < |s.engine.pool.nodes|
    ensures InPhase(s', w, job, Settling(rest, next)) && |s'.engine.pool.nodes| == |s.engine.pool.nodes|
    ensures var n, n' := s.engine.pool.nodes[index], s'.engine.pool.nodes[index];
            if ok then n'.failures == 0 && n'.cooldown == 0 && s'.engine.pool.good == index
            else
              && n'.failures == n.failures + 1
              && n'.cooldown == o.now + Min((n.failures + 1) * 60_000_000_000, env.cfg.cooldown)
              && s'.engine.pool.good != index
  {
    assert ([Mark(index, ok)] + rest)[0] == Mark(index, ok) && ([Mark(index, ok)] + rest)[1..] == rest;
    WorkMoves(env, s, o, s', w, job, Settling([Mark(index, ok)] + rest, next), Settling(rest, next));
  }
}
