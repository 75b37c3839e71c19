/** A run of collect whose replies are all good publishes its ticket, whatever else
    happens in between and whether or not the key has a ticket to be renewed
    (internal/prewarm/engine.go, collect). */
module Collecting {
  import opened Base
  import opened PrewarmConfig
  import opened ProbeBudget
  import opened ProxyPool
  import opened Completions
  import opened EngineState
  import opened EngineInvariants
  import opened Protocol
  import opened Invariants
  import opened Preservation
  import opened Runs
  import opened Plans
  import opened ProbeBody

  // ---- What the Host answers ---------------------------------------------

  /** The answers to the five calls of an attempt. */
  datatype Answers = Answers(first: Option<Identity>, obtained: ProbeReply, second: Option<Identity>,
                             formal: ProbeReply, third: Option<Identity>)

  /** The probe was answered under the scope, with a completion of the model and
      no other plan. */
  ghost predicate GoodReply(env: Env, reply: ProbeReply, model: string, plan: string, scope: string) {
    var r := reply.result;
    && !reply.failed && r.scope == scope && r.status == 200
    && |r.body| <= 4_194_304 && BodySucceeds(r.body, model, env.decode)
    && (Blank(r.plan) || OfPlan(r.plan, plan))
  }

  ghost predicate ScopeIs(reply: Option<Identity>, scope: string) {
    reply.Some? && reply.value.scope == scope && scope != ""
  }

  /** The identity has the plan and keeps its scope; the first probe obtains a
      state that fits the plan, and the second one keeps it. */
  ghost predicate Convincing(env: Env, k: Key, plan: string, a: Answers) {
    && a.first.Some? && IdentityFits(env.cfg, a.first.value.plan, plan)
    && var scope := a.first.value.scope;
    && ScopeIs(a.first, scope) && ScopeIs(a.second, scope) && ScopeIs(a.third, scope)
    && GoodReply(env, a.obtained, k.model, plan, scope) && Usable(a.obtained.result.state, plan)
    && GoodReply(env, a.formal, k.model, plan, scope) && |a.formal.result.state| != 312
  }

  lemma ProbeMeans(env: Env, r: ProbeResult, model: string)
    ensures SuccessfulProbe(env, r, model)
       <==> r.status == 200 && |r.body| <= 4_194_304 && BodySucceeds(r.body, model, env.decode)
  {
    BodyMeans(r.body, model, env.decode);
  }

  // ---- One step of the worker --------------------------------------------

  predicate InPhase(s: System, w: nat, job: Job, phase: Phase) {
    w < |s.workers| && s.workers[w].Busy? && s.workers[w].job == job && s.workers[w].phase == phase
  }

  /** The worker's own steps. */
  predicate Own(o: Occurrence, w: nat) {
    (o.event.Take? && o.event.w == w) || (o.event.Work? && o.event.w == w)
  }

  predicate KeepsWorker(s: System, s': System, w: nat) {
    |s'.workers| == |s.workers| && (w < |s.workers| ==> s'.workers[w] == s.workers[w])
  }

  lemma OthersKeepWorker(env: Env, s: System, o: Occurrence, s': System, w: nat)
    requires Occurs(env, s, o, s') && !Own(o, w)
    ensures KeepsWorker(s, s', w)
  {
  }

  lemma WorkMoves(env: Env, s: System, o: Occurrence, s': System, w: nat, job: Job, phase: Phase, next: Phase)
    requires Occurs(env, s, o, s') && o.event.Work? && o.event.w == w && InPhase(s, w, job, phase)
    requires s.engine.pool.Valid()
    requires Advance(env, s.engine, s.budget, job, phase, o.event.input, o.now).next == Some(next)
    ensures InPhase(s', w, job, next)
    ensures s'.engine == Advance(env, s.engine, s.budget, job, phase, o.event.input, o.now).engine
  {
  }

  /** The worker does nothing between the two. */
  ghost predicate Follows(occurrences: seq<Occurrence>, w: nat, i: nat, j: nat) {
    i < j <= |occurrences| && forall p | i < p < j :: !Own(occurrences[p], w)
  }

  lemma {:induction false} WorkerWaits(states: seq<System>, w: nat, i: nat, j: nat, job: Job, phase: Phase)
    requires i <= j < |states| && InPhase(states[i], w, job, phase)
    requires forall p | i <= p < j :: KeepsWorker(states[p], states[p + 1], w)
    ensures InPhase(states[j], w, job, phase)
  {
    if i < j {
      WorkerWaits(states, w, i, j - 1, job, phase);
      assert KeepsWorker(states[j - 1], states[j], w);
    }
  }

  lemma WorkerKeeps(env: Env, states: seq<System>, occurrences: seq<Occurrence>, w: nat, i: nat, j: nat, job: Job,
                    phase: Phase)
    requires IsRun(env, states, occurrences) && Follows(occurrences, w, i, j)
    requires InPhase(states[i + 1], w, job, phase)
    ensures InPhase(states[j], w, job, phase)
  {
    forall p | i + 1 <= p < j
      ensures KeepsWorker(states[p], states[p + 1], w)
    {
      RunStep(env, states, occurrences, p);
      OthersKeepWorker(env, states[p], occurrences[p], states[p + 1], w);
    }
    WorkerWaits(states, w, i + 1, j, job, phase);
  }

  /** Occurrence i is a step of the worker in this phase, with this outcome. */
  ghost predicate StepsTo(env: Env, s: System, o: Occurrence, w: nat, job: Job, phase: Phase, next: Phase) {
    && o.event.Work? && o.event.w == w && InPhase(s, w, job, phase) && s.engine.pool.Valid()
    && Advance(env, s.engine, s.budget, job, phase, o.event.input, o.now).next == Some(next)
  }

  lemma Onward(env: Env, states: seq<System>, occurrences: seq<Occurrence>, w: nat, i: nat, j: nat, job: Job,
               phase: Phase, next: Phase)
    requires IsRun(env, states, occurrences) && Follows(occurrences, w, i, j) && i < |occurrences|
    requires StepsTo(env, states[i], occurrences[i], w, job, phase, next)
    ensures InPhase(states[j], w, job, next)
  {
    RunStep(env, states, occurrences, i);
    WorkMoves(env, states[i], occurrences[i], states[i + 1], w, job, phase, next);
    WorkerKeeps(env, states, occurrences, w, i, j, job, next);
  }

  // ---- The steps of a good attempt ---------------------------------------

  /** The job is the one to be done: its key has this plan, and its record the
      epoch that the job was enqueued with. */
  predicate Current(e: State, job: Job, plan: string) {
    && !e.closed && job.key in e.plans && e.plans[job.key] == plan
    && job.key in e.records && e.records[job.key].epoch == job.epoch
  }

  lemma BeginsAttempt(env: Env, s: System, o: Occurrence, w: nat, job: Job, plan: string, n: nat)
    requires WellFormed(env.cfg, s.engine) && o.event.Work? && o.event.w == w && n < env.cfg.maxAttempts
    requires InPhase(s, w, job, Checking(plan, n)) && Current(s.engine, job, plan)
    ensures StepsTo(env, s, o, w, job, Checking(plan, n), Describing(plan, n))
  {
  }

  lemma Describes(env: Env, s: System, o: Occurrence, w: nat, job: Job, plan: string, n: nat)
    requires WellFormed(env.cfg, s.engine) && o.event.Work? && o.event.w == w
    requires InPhase(s, w, job, Describing(plan, n)) && Current(s.engine, job, plan)
    requires var reply := o.event.input.described;
             reply.Some? && reply.value.scope != "" && IdentityFits(env.cfg, reply.value.plan, plan)
    ensures StepsTo(env, s, o, w, job, Describing(plan, n), Choosing(plan, n, o.event.input.described.value))
  {
    assert KnownPlan(s.engine.plans[job.key]);
    IdentityMeans(env.cfg, o.event.input.described.value.plan, plan);
  }

  ghost predicate SomeProxy(p: Pool, now: Time) {
    exists x | 0 <= x < |p.nodes| :: p.nodes[x].cooldown <= now
  }

  lemma ChoiceSucceeds(p: Pool, now: Time)
    requires p.Valid() && SomeProxy(p, now)
    ensures Choose(p, now).1 >= 0
  {
    if p.good >= 0 {
      PreferredIsChosen(p, now);
    } else {
      var x :| 0 <= x < |p.nodes| && p.nodes[x].cooldown <= now;
      ChooseRotates(p, now);
      assert !p.Cooling(x, now);
    }
  }

  lemma Chooses(env: Env, s: System, o: Occurrence, w: nat, job: Job, plan: string, n: nat, id: Identity)
    returns (index: nat, proxy: string)
    requires WellFormed(env.cfg, s.engine) && o.event.Work? && o.event.w == w
    requires InPhase(s, w, job, Choosing(plan, n, id)) && SomeProxy(s.engine.pool, o.now)
    ensures StepsTo(env, s, o, w, job, Choosing(plan, n, id), Capturing(plan, n, id, index, proxy))
  {
    ChoiceSucceeds(s.engine.pool, o.now);
    index := Choose(s.engine.pool, o.now).1;
    proxy := s.engine.pool.nodes[index].url;
  }

  lemma Captures(env: Env, s: System, o: Occurrence, w: nat, job: Job, plan: string, n: nat, id: Identity, index: nat,
                 proxy: string)
    requires WellFormed(env.cfg, s.engine) && o.event.Work? && o.event.w == w
    requires InPhase(s, w, job, Capturing(plan, n, id, index, proxy))
    ensures StepsTo(env, s, o, w, job, Capturing(plan, n, id, index, proxy),
                    Reserving(Attempt(plan, n, id, index, proxy, o.now)))
  {
  }

  /** Fewer probes than the limit were granted in the last hour. */
  predicate ProbeLeft(env: Env, s: System, now: Time) {
    InWindow(s.grants, now) < env.cfg.maxProbesPerHour
  }

  lemma GrantedIff(env: Env, s: System, now: Time)
    requires BudgetOk(s.budget, s.grants, s.clock, s.probes, s.workers) && s.clock <= now
    ensures Grants(s.budget, Call(now, env.cfg.maxProbesPerHour)) <==> ProbeLeft(env, s, now)
  {
    AllowRefines(s.budget, s.grants, s.clock, Call(now, env.cfg.maxProbesPerHour));
  }

  lemma Reserves(env: Env, s: System, o: Occurrence, w: nat, job: Job, plan: string, a: Attempt)
    requires s.engine.pool.Valid() && o.event.Work? && o.event.w == w
    requires InPhase(s, w, job, Reserving(a)) && Current(s.engine, job, plan)
    requires Grants(s.budget, Call(o.now, env.cfg.maxProbesPerHour))
    ensures StepsTo(env, s, o, w, job, Reserving(a), Acquiring(a))
  {
  }

  lemma ReservesFormal(env: Env, s: System, o: Occurrence, w: nat, job: Job, plan: string, a: Attempt, c: ProbeResult,
                       fixed: Identity)
    requires s.engine.pool.Valid() && o.event.Work? && o.event.w == w
    requires InPhase(s, w, job, ReservingFormal(a, c, fixed)) && Current(s.engine, job, plan)
    requires Grants(s.budget, Call(o.now, env.cfg.maxProbesPerHour))
    ensures StepsTo(env, s, o, w, job, ReservingFormal(a, c, fixed), Verifying(a, c, fixed))
  {
  }

  lemma ObtainingReplyServes(env: Env, model: string, a: Attempt, reply: ProbeReply)
    requires GoodReply(env, reply, model, a.plan, a.id.scope) && Usable(reply.result.state, a.plan)
    ensures AfterAcquisition(env, model, a, reply, false) == Redescribing(a, reply.result)
    ensures AfterAcquisition(env, model, a, reply, true) == Redescribing(a, reply.result)
  {
    ProbeMeans(env, reply.result, model);
    PlanMatchesMeans(reply.result.plan, a.plan);
    ValidStateMeans(reply.result.state, a.plan);
  }

  lemma AcquisitionSteps(env: Env, s: System, o: Occurrence, w: nat, job: Job, a: Attempt)
    requires s.engine.pool.Valid() && o.event.Work? && o.event.w == w && InPhase(s, w, job, Acquiring(a))
    requires AfterAcquisition(env, job.key.model, a, o.event.input.probed, s.engine.closed)
          == Redescribing(a, o.event.input.probed.result)
    ensures StepsTo(env, s, o, w, job, Acquiring(a), Redescribing(a, o.event.input.probed.result))
  {
  }

  lemma Acquires(env: Env, s: System, o: Occurrence, w: nat, job: Job, a: Attempt)
    requires s.engine.pool.Valid() && o.event.Work? && o.event.w == w && InPhase(s, w, job, Acquiring(a))
    requires GoodReply(env, o.event.input.probed, job.key.model, a.plan, a.id.scope)
    requires Usable(o.event.input.probed.result.state, a.plan)
    ensures StepsTo(env, s, o, w, job, Acquiring(a), Redescribing(a, o.event.input.probed.result))
  {
    ObtainingReplyServes(env, job.key.model, a, o.event.input.probed);
    AcquisitionSteps(env, s, o, w, job, a);
  }

  lemma Redescribes(env: Env, s: System, o: Occurrence, w: nat, job: Job, a: Attempt, c: ProbeResult)
    requires s.engine.pool.Valid() && o.event.Work? && o.event.w == w && InPhase(s, w, job, Redescribing(a, c))
    requires ScopeIs(o.event.input.described, a.id.scope)
    ensures StepsTo(env, s, o, w, job, Redescribing(a, c), ReservingFormal(a, c, o.event.input.described.value))
  {
  }

  lemma FormalReplyServes(env: Env, model: string, a: Attempt, c: ProbeResult, fixed: Identity, reply: ProbeReply)
    requires GoodReply(env, reply, model, a.plan, fixed.scope) && |reply.result.state| != 312
    ensures AfterVerification(env, model, a, c, fixed, reply) == Confirming(a, c, fixed)
  {
    ProbeMeans(env, reply.result, model);
    PlanMatchesMeans(reply.result.plan, a.plan);
  }

  lemma VerificationSteps(env: Env, s: System, o: Occurrence, w: nat, job: Job, a: Attempt, c: ProbeResult,
                          fixed: Identity)
    requires s.engine.pool.Valid() && o.event.Work? && o.event.w == w && InPhase(s, w, job, Verifying(a, c, fixed))
    requires AfterVerification(env, job.key.model, a, c, fixed, o.event.input.probed) == Confirming(a, c, fixed)
    ensures StepsTo(env, s, o, w, job, Verifying(a, c, fixed), Confirming(a, c, fixed))
  {
  }

  lemma Verifies(env: Env, s: System, o: Occurrence, w: nat, job: Job, a: Attempt, c: ProbeResult, fixed: Identity)
    requires s.engine.pool.Valid() && o.event.Work? && o.event.w == w && InPhase(s, w, job, Verifying(a, c, fixed))
    requires GoodReply(env, o.event.input.probed, job.key.model, a.plan, fixed.scope)
    requires |o.event.input.probed.result.state| != 312
    ensures StepsTo(env, s, o, w, job, Verifying(a, c, fixed), Confirming(a, c, fixed))
  {
    FormalReplyServes(env, job.key.model, a, c, fixed, o.event.input.probed);
    VerificationSteps(env, s, o, w, job, a, c, fixed);
  }

  lemma Confirms(env: Env, s: System, o: Occurrence, w: nat, job: Job, a: Attempt, c: ProbeResult, fixed: Identity)
    requires s.engine.pool.Valid() && o.event.Work? && o.event.w == w && InPhase(s, w, job, Confirming(a, c, fixed))
    requires ScopeIs(o.event.input.described, fixed.scope)
    ensures StepsTo(env, s, o, w, job, Confirming(a, c, fixed),
                    Settling([Mark(a.index, true)], Publishing(a, c, o.event.input.described.value)))
  {
  }

  lemma Settles(env: Env, s: System, o: Occurrence, w: nat, job: Job, chore: Chore, next: Phase)
    requires s.engine.pool.Valid() && o.event.Work? && o.event.w == w && InPhase(s, w, job, Settling([chore], next))
    ensures StepsTo(env, s, o, w, job, Settling([chore], next), Settling([], next))
  {
    assert [chore][1..] == [];
  }

  lemma Settled(env: Env, s: System, o: Occurrence, w: nat, job: Job, next: Phase)
    requires s.engine.pool.Valid() && o.event.Work? && o.event.w == w && InPhase(s, w, job, Settling([], next))
    ensures StepsTo(env, s, o, w, job, Settling([], next), next)
  {
  }

  /** The publishing step: the ticket is replaced, or there is one now, as long as
      the job is current and the time from its capture has not run out. */
  lemma Publishes(env: Env, s: System, o: Occurrence, s': System, w: nat, job: Job, plan: string, a: Attempt,
                  c: ProbeResult, current: Identity)
    requires Occurs(env, s, o, s') && s.engine.pool.Valid() && o.event.Work? && o.event.w == w
    requires InPhase(s, w, job, Publishing(a, c, current)) && Current(s.engine, job, plan) && a.plan == plan
    requires o.now < a.captured + env.cfg.ttl
    ensures InPhase(s', w, job, Done("ready")) && job.key in s'.engine.records
    ensures s'.engine.records[job.key].value
         == Some(Ticket(c.state, current.scope, s.engine.version + 1, a.captured + env.cfg.ttl))
    ensures s'.engine.records[job.key].cooldown == 0
  {
    WorkMoves(env, s, o, s', w, job, Publishing(a, c, current), Done("ready"));
  }

  // ---- A good attempt ----------------------------------------------------

  /** The worker's steps of an attempt, one after the other: check, describe, choose
      a proxy, read the clock, reserve, probe, describe, reserve, probe, describe,
      mark the proxy, settle, publish. */
  ghost predicate AttemptSteps(occurrences: seq<Occurrence>, w: nat, at: seq<nat>) {
    && |at| == 13
    && (forall n | 0 <= n < 13 :: at[n] < |occurrences| && occurrences[at[n]].event.Work?
                                  && occurrences[at[n]].event.w == w)
    && forall m, n | 0 <= m < n < 13 && n == m + 1 :: Follows(occurrences, w, at[m], at[n])
  }

  function AnswersOf(occurrences: seq<Occurrence>, at: seq<nat>): Answers
    requires |at| == 13 && forall n | 0 <= n < 13 :: at[n] < |occurrences| && occurrences[at[n]].event.Work?
  {
    Answers(occurrences[at[1]].event.input.described, occurrences[at[5]].event.input.probed,
            occurrences[at[6]].event.input.described, occurrences[at[8]].event.input.probed,
            occurrences[at[9]].event.input.described)
  }

  /** All through the attempt the job is current; a proxy is available and the
      budget grants when they are asked for; the answers convince; and the ticket is
      published in time. */
  ghost predicate GoodAttempt(env: Env, states: seq<System>, occurrences: seq<Occurrence>, w: nat, at: seq<nat>,
                              job: Job, plan: string)
    requires |states| == |occurrences| + 1 && AttemptSteps(occurrences, w, at)
  {
    && (forall n | 0 <= n < 13 :: Current(states[at[n]].engine, job, plan))
    && SomeProxy(states[at[2]].engine.pool, occurrences[at[2]].now)
    && ProbeLeft(env, states[at[4]], occurrences[at[4]].now) && ProbeLeft(env, states[at[7]], occurrences[at[7]].now)
    && Convincing(env, job.key, plan, AnswersOf(occurrences, at))
    && occurrences[at[12]].now < occurrences[at[3]].now + env.cfg.ttl
  }

  lemma BudgetAt(env: Env, states: seq<System>, occurrences: seq<Occurrence>, i: nat)
    requires IsRun(env, states, occurrences) && i < |occurrences| && ProbeLeft(env, states[i], occurrences[i].now)
    ensures Grants(states[i].budget, Call(occurrences[i].now, env.cfg.maxProbesPerHour))
  {
    RunInv(env, states, occurrences, i);
    RunStep(env, states, occurrences, i);
    GrantedIff(env, states[i], occurrences[i].now);
  }

  lemma AttemptChooses(env: Env, states: seq<System>, occurrences: seq<Occurrence>, w: nat, at: seq<nat>, job: Job,
                       plan: string, n: nat)
    requires IsRun(env, states, occurrences) && AttemptSteps(occurrences, w, at) && n < env.cfg.maxAttempts
    requires GoodAttempt(env, states, occurrences, w, at, job, plan)
    requires InPhase(states[at[0]], w, job, Checking(plan, n))
    ensures InPhase(states[at[2]], w, job, Choosing(plan, n, AnswersOf(occurrences, at).first.value))
  {
    RunWellFormed(env, states, occurrences, at[0]);
    BeginsAttempt(env, states[at[0]], occurrences[at[0]], w, job, plan, n);
    Onward(env, states, occurrences, w, at[0], at[1], job, Checking(plan, n), Describing(plan, n));
    RunWellFormed(env, states, occurrences, at[1]);
    Describes(env, states[at[1]], occurrences[at[1]], w, job, plan, n);
    Onward(env, states, occurrences, w, at[1], at[2], job, Describing(plan, n),
           Choosing(plan, n, AnswersOf(occurrences, at).first.value));
  }

  lemma AttemptCaptures(env: Env, states: seq<System>, occurrences: seq<Occurrence>, w: nat, at: seq<nat>, job: Job,
                        plan: string, n: nat)
    returns (a: Attempt)
    requires IsRun(env, states, occurrences) && AttemptSteps(occurrences, w, at)
    requires GoodAttempt(env, states, occurrences, w, at, job, plan)
    requires InPhase(states[at[2]], w, job, Choosing(plan, n, AnswersOf(occurrences, at).first.value))
    ensures a.plan == plan && a.id == AnswersOf(occurrences, at).first.value && a.captured == occurrences[at[3]].now
    ensures InPhase(states[at[4]], w, job, Reserving(a))
  {
    var id := AnswersOf(occurrences, at).first.value;
    RunWellFormed(env, states, occurrences, at[2]);
    var index, proxy := Chooses(env, states[at[2]], occurrences[at[2]], w, job, plan, n, id);
    Onward(env, states, occurrences, w, at[2], at[3], job, Choosing(plan, n, id), Capturing(plan, n, id, index, proxy));
    RunWellFormed(env, states, occurrences, at[3]);
    a := Attempt(plan, n, id, index, proxy, occurrences[at[3]].now);
    Captures(env, states[at[3]], occurrences[at[3]], w, job, plan, n, id, index, proxy);
    Onward(env, states, occurrences, w, at[3], at[4], job, Capturing(plan, n, id, index, proxy), Reserving(a));
  }

  lemma AttemptObtains(env: Env, states: seq<System>, occurrences: seq<Occurrence>, w: nat, at: seq<nat>, job: Job,
                       plan: string, a: Attempt)
    requires IsRun(env, states, occurrences) && AttemptSteps(occurrences, w, at)
    requires GoodAttempt(env, states, occurrences, w, at, job, plan)
    requires a.plan == plan && a.id == AnswersOf(occurrences, at).first.value
    requires InPhase(states[at[4]], w, job, Reserving(a))
    ensures InPhase(states[at[6]], w, job, Redescribing(a, AnswersOf(occurrences, at).obtained.result))
  {
    RunWellFormed(env, states, occurrences, at[4]);
    BudgetAt(env, states, occurrences, at[4]);
    Reserves(env, states[at[4]], occurrences[at[4]], w, job, plan, a);
    Onward(env, states, occurrences, w, at[4], at[5], job, Reserving(a), Acquiring(a));
    RunWellFormed(env, states, occurrences, at[5]);
    Acquires(env, states[at[5]], occurrences[at[5]], w, job, a);
    Onward(env, states, occurrences, w, at[5], at[6], job, Acquiring(a),
           Redescribing(a, AnswersOf(occurrences, at).obtained.result));
  }

  lemma AttemptFixes(env: Env, states: seq<System>, occurrences: seq<Occurrence>, w: nat, at: seq<nat>, job: Job,
                     plan: string, a: Attempt, c: ProbeResult)
    requires IsRun(env, states, occurrences) && AttemptSteps(occurrences, w, at)
    requires GoodAttempt(env, states, occurrences, w, at, job, plan)
    requires a.plan == plan && a.id == AnswersOf(occurrences, at).first.value
    requires InPhase(states[at[6]], w, job, Redescribing(a, c))
    ensures InPhase(states[at[8]], w, job, Verifying(a, c, AnswersOf(occurrences, at).second.value))
  {
    var fixed := AnswersOf(occurrences, at).second.value;
    RunWellFormed(env, states, occurrences, at[6]);
    Redescribes(env, states[at[6]], occurrences[at[6]], w, job, a, c);
    Onward(env, states, occurrences, w, at[6], at[7], job, Redescribing(a, c), ReservingFormal(a, c, fixed));
    RunWellFormed(env, states, occurrences, at[7]);
    BudgetAt(env, states, occurrences, at[7]);
    ReservesFormal(env, states[at[7]], occurrences[at[7]], w, job, plan, a, c, fixed);
    Onward(env, states, occurrences, w, at[7], at[8], job, ReservingFormal(a, c, fixed), Verifying(a, c, fixed));
  }

  lemma AttemptVerifies(env: Env, states: seq<System>, occurrences: seq<Occurrence>, w: nat, at: seq<nat>, job: Job,
                        plan: string, a: Attempt, c: ProbeResult)
    requires IsRun(env, states, occurrences) && AttemptSteps(occurrences, w, at)
    requires GoodAttempt(env, states, occurrences, w, at, job, plan)
    requires a.plan == plan && a.id == AnswersOf(occurrences, at).first.value
    requires InPhase(states[at[8]], w, job, Verifying(a, c, AnswersOf(occurrences, at).second.value))
    ensures InPhase(states[at[10]], w, job,
                    Settling([Mark(a.index, true)], Publishing(a, c, AnswersOf(occurrences, at).third.value)))
  {
    var fixed := AnswersOf(occurrences, at).second.value;
    RunWellFormed(env, states, occurrences, at[8]);
    Verifies(env, states[at[8]], occurrences[at[8]], w, job, a, c, fixed);
    Onward(env, states, occurrences, w, at[8], at[9], job, Verifying(a, c, fixed), Confirming(a, c, fixed));
    RunWellFormed(env, states, occurrences, at[9]);
    Confirms(env, states[at[9]], occurrences[at[9]], w, job, a, c, fixed);
    Onward(env, states, occurrences, w, at[9], at[10], job, Confirming(a, c, fixed),
           Settling([Mark(a.index, true)], Publishing(a, c, AnswersOf(occurrences, at).third.value)));
  }

  lemma AttemptSettles(env: Env, states: seq<System>, occurrences: seq<Occurrence>, w: nat, at: seq<nat>, job: Job,
                       chore: Chore, next: Phase)
    requires IsRun(env, states, occurrences) && AttemptSteps(occurrences, w, at)
    requires InPhase(states[at[10]], w, job, Settling([chore], next))
    ensures InPhase(states[at[12]], w, job, next)
  {
    RunWellFormed(env, states, occurrences, at[10]);
    Settles(env, states[at[10]], occurrences[at[10]], w, job, chore, next);
    Onward(env, states, occurrences, w, at[10], at[11], job, Settling([chore], next), Settling([], next));
    RunWellFormed(env, states, occurrences, at[11]);
    Settled(env, states[at[11]], occurrences[at[11]], w, job, next);
    Onward(env, states, occurrences, w, at[11], at[12], job, Settling([], next), next);
  }

  /** The record holds the ticket that the attempt obtained, with the lifetime from
      its capture. */
  predicate HoldsObtained(env: Env, before: State, after: State, k: Key, a: Answers, captured: Time)
    requires a.first.Some?
  {
    && k in after.records && after.records[k].cooldown == 0
    && after.records[k].value
    == Some(Ticket(a.obtained.result.state, a.first.value.scope, before.version + 1, captured + env.cfg.ttl))
  }

  lemma AnswersPublish(env: Env, s: System, o: Occurrence, s': System, w: nat, job: Job, plan: string, a: Attempt,
                       answers: Answers)
    requires Occurs(env, s, o, s') && s.engine.pool.Valid() && o.event.Work? && o.event.w == w
    requires Current(s.engine, job, plan) && a.plan == plan && o.now < a.captured + env.cfg.ttl
    requires answers.first.Some? && answers.third.Some? && answers.third.value.scope == answers.first.value.scope
    requires InPhase(s, w, job, Publishing(a, answers.obtained.result, answers.third.value))
    ensures InPhase(s', w, job, Done("ready"))
    ensures HoldsObtained(env, s.engine, s'.engine, job.key, answers, a.captured)
  {
    Publishes(env, s, o, s', w, job, plan, a, answers.obtained.result, answers.third.value);
  }

  lemma AttemptPublishes(env: Env, states: seq<System>, occurrences: seq<Occurrence>, w: nat, at: seq<nat>, job: Job,
                         plan: string, a: Attempt)
    requires IsRun(env, states, occurrences) && AttemptSteps(occurrences, w, at)
    requires GoodAttempt(env, states, occurrences, w, at, job, plan)
    requires a.plan == plan && a.captured == occurrences[at[3]].now
    requires InPhase(states[at[12]], w, job,
                     Publishing(a, AnswersOf(occurrences, at).obtained.result, AnswersOf(occurrences, at).third.value))
    ensures InPhase(states[at[12] + 1], w, job, Done("ready"))
    ensures HoldsObtained(env, states[at[12]].engine, states[at[12] + 1].engine, job.key, AnswersOf(occurrences, at),
                          occurrences[at[3]].now)
  {
    RunWellFormed(env, states, occurrences, at[12]);
    RunStep(env, states, occurrences, at[12]);
    AnswersPublish(env, states[at[12]], occurrences[at[12]], states[at[12] + 1], w, job, plan, a,
                   AnswersOf(occurrences, at));
  }

  /** In every run, an attempt of a current job whose answers convince, with a proxy
      and two probes to spend, leaves the record with exactly the ticket that it
      obtained, whether there was one before or not, and whatever other workers,
      requests, snapshots and scheduler passes come in between. */
  lemma GoodAttemptPublishes(env: Env, states: seq<System>, occurrences: seq<Occurrence>, w: nat, at: seq<nat>,
                             job: Job, plan: string, n: nat)
    requires IsRun(env, states, occurrences) && AttemptSteps(occurrences, w, at) && n < env.cfg.maxAttempts
    requires InPhase(states[at[0]], w, job, Checking(plan, n))
    requires GoodAttempt(env, states, occurrences, w, at, job, plan)
    ensures InPhase(states[at[12] + 1], w, job, Done("ready"))
    ensures HoldsObtained(env, states[at[12]].engine, states[at[12] + 1].engine, job.key, AnswersOf(occurrences, at),
                          occurrences[at[3]].now)
  {
    var answers := AnswersOf(occurrences, at);
    AttemptChooses(env, states, occurrences, w, at, job, plan, n);
    var a := AttemptCaptures(env, states, occurrences, w, at, job, plan, n);
    AttemptObtains(env, states, occurrences, w, at, job, plan, a);
    AttemptFixes(env, states, occurrences, w, at, job, plan, a, answers.obtained.result);
    AttemptVerifies(env, states, occurrences, w, at, job, plan, a, answers.obtained.result);
    AttemptSettles(env, states, occurrences, w, at, job, Mark(a.index, true),
                   Publishing(a, answers.obtained.result, answers.third.value));
    AttemptPublishes(env, states, occurrences, w, at, job, plan, a);
  }

  // ---- From the job on ---------------------------------------------------

  lemma TakesJob(env: Env, s: System, o: Occurrence, s': System, w: nat)
    requires Occurs(env, s, o, s') && o.event == Take(w)
    ensures s.engine.queue != [] && InPhase(s', w, s.engine.queue[0], Starting)
  {
  }

  lemma Starts(env: Env, s: System, o: Occurrence, w: nat, job: Job, plan: string)
    requires s.engine.pool.Valid() && o.event.Work? && o.event.w == w
    requires InPhase(s, w, job, Starting) && Current(s.engine, job, plan)
    ensures StepsTo(env, s, o, w, job, Starting, Checking(plan, 0))
  {
  }

  lemma JobBegins(env: Env, states: seq<System>, occurrences: seq<Occurrence>, w: nat, take: nat, start: nat,
                  first: nat, job: Job, plan: string)
    requires IsRun(env, states, occurrences) && start < |occurrences|
    requires Follows(occurrences, w, take, start) && Follows(occurrences, w, start, first)
    requires occurrences[take].event == Take(w) && states[take].engine.queue != []
    requires states[take].engine.queue[0] == job
    requires occurrences[start].event.Work? && occurrences[start].event.w == w
    requires Current(states[start].engine, job, plan)
    ensures InPhase(states[first], w, job, Checking(plan, 0))
  {
    RunStep(env, states, occurrences, take);
    TakesJob(env, states[take], occurrences[take], states[take + 1], w);
    WorkerKeeps(env, states, occurrences, w, take, start, job, Starting);
    RunWellFormed(env, states, occurrences, start);
    Starts(env, states[start], occurrences[start], w, job, plan);
    Onward(env, states, occurrences, w, start, first, job, Starting, Checking(plan, 0));
  }

  /** The same from the moment at which a worker takes the job from the queue. */
  lemma GoodJobPublishes(env: Env, states: seq<System>, occurrences: seq<Occurrence>, w: nat, take: nat, start: nat,
                         at: seq<nat>, job: Job, plan: string)
    requires IsRun(env, states, occurrences) && AttemptSteps(occurrences, w, at)
    requires start < |occurrences|
    requires Follows(occurrences, w, take, start) && Follows(occurrences, w, start, at[0])
    requires occurrences[take].event == Take(w) && states[take].engine.queue != []
    requires states[take].engine.queue[0] == job
    requires occurrences[start].event.Work? && occurrences[start].event.w == w
    requires Current(states[start].engine, job, plan) && GoodAttempt(env, states, occurrences, w, at, job, plan)
    ensures HoldsObtained(env, states[at[12]].engine, states[at[12] + 1].engine, job.key, AnswersOf(occurrences, at),
                          occurrences[at[3]].now)
  {
    RunFacts(env, states, occurrences);
    JobBegins(env, states, occurrences, w, take, start, at[0], job, plan);
    GoodAttemptPublishes(env, states, occurrences, w, at, job, plan, 0);
  }

  lemma RunFacts(env: Env, states: seq<System>, occurrences: seq<Occurrence>)
    requires IsRun(env, states, occurrences)
    ensures env.cfg.maxAttempts >= 1
  {
  }
}
