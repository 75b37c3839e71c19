/** How far a run of collect goes: how many calls it makes, when it stops for good,
    and when it may call itself ready (internal/prewarm/engine.go, collect). */
module Attempts {
  import opened Base
  import opened PrewarmConfig
  import opened ProbeBudget
  import opened EngineState
  import opened EngineInvariants
  import opened Protocol
  import opened Evidence
  import opened Invariants
  import opened Runs
  import opened Collecting
  import opened Plans

  // ---- Calls of a run ----------------------------------------------------

  /** The account is rejected upstream. */
  predicate Rejected(c: HostCall) {
    c.ProbeCall? && c.reply.result.status in {401, 403, 429}
  }

  /** How many probes went through a proxy of the pool; every attempt makes one. */
  function Acquisitions(trace: seq<HostCall>): nat {
    if trace == [] then 0
    else
      var c := trace[|trace| - 1];
      Acquisitions(trace[..|trace| - 1]) + (if c.ProbeCall? && c.request.proxyOverride.Some? then 1 else 0)
  }

  lemma AcquisitionsAppend(trace: seq<HostCall>, c: HostCall)
    ensures Acquisitions(trace + [c])
         == Acquisitions(trace) + if c.ProbeCall? && c.request.proxyOverride.Some? then 1 else 0
  {
    assert (trace + [c])[..|trace|] == trace;
  }

  /** In attempt n, after so many acquisitions and at most so many calls of its own. */
  predicate Within(cfg: Config, trace: seq<HostCall>, n: nat, acquired: nat, calls: nat) {
    n < cfg.maxAttempts && Acquisitions(trace) == n + acquired && |trace| <= 5 * n + calls
  }

  predicate Counted(cfg: Config, phase: Phase, trace: seq<HostCall>)
    decreases phase
  {
    match phase
    case Starting => trace == []
    case Checking(_, n) => n <= cfg.maxAttempts && Acquisitions(trace) == n && |trace| <= 5 * n
    case Describing(_, n) => Within(cfg, trace, n, 0, 0)
    case Choosing(_, n, _) => Within(cfg, trace, n, 0, 1)
    case Capturing(_, n, _, _, _) => Within(cfg, trace, n, 0, 1)
    case Reserving(a) => Within(cfg, trace, a.number, 0, 1)
    case Acquiring(a) => Within(cfg, trace, a.number, 0, 1)
    case Redescribing(a, _) => Within(cfg, trace, a.number, 1, 2)
    case ReservingFormal(a, _, _) => Within(cfg, trace, a.number, 1, 3)
    case Verifying(a, _, _) => Within(cfg, trace, a.number, 1, 3)
    case Confirming(a, _, _) => Within(cfg, trace, a.number, 1, 4)
    case Publishing(a, _, _) => Within(cfg, trace, a.number, 1, 5)
    case Settling(_, next) => SettlesWell(phase) && Counted(cfg, next, trace)
    case Done(reason) =>
      && Acquisitions(trace) <= cfg.maxAttempts && |trace| <= 5 * cfg.maxAttempts
      && (reason == "attempts_exhausted" ==> Acquisitions(trace) == cfg.maxAttempts)
  }

  /** The run is over, or settles before it is. */
  predicate Ending(phase: Phase, reason: string) {
    phase == Done(reason) || (phase.Settling? && phase.next == Done(reason))
  }

  /** Only the last call can be rejected, and then the run ends. */
  ghost predicate StopsInTime(phase: Phase, trace: seq<HostCall>) {
    && (forall i | 0 <= i < |trace| - 1 :: !Rejected(trace[i]))
    && (trace != [] && Rejected(trace[|trace| - 1]) ==> Ending(phase, "upstream_rejected"))
  }

  ghost predicate WorkerOk(cfg: Config, phase: Phase, trace: seq<HostCall>) {
    Counted(cfg, phase, trace) && StopsInTime(phase, trace)
  }

  /** No call is made any more. */
  predicate Silent(phase: Phase) {
    phase.Settling? || phase.Done? || phase.Publishing?
  }

  lemma StopsAppend(phase: Phase, trace: seq<HostCall>, c: HostCall, next: Phase)
    requires StopsInTime(phase, trace) && !Silent(phase)
    requires Rejected(c) ==> Ending(next, "upstream_rejected")
    ensures StopsInTime(next, trace + [c])
  {
    var all := trace + [c];
    forall i | 0 <= i < |all| - 1
      ensures !Rejected(all[i])
    {
      assert all[i] == trace[i];
    }
  }

  lemma DescribeCallCounts(cfg: Config, phase: Phase, trace: seq<HostCall>, c: HostCall, next: Phase)
    requires StopsInTime(phase, trace) && !Silent(phase) && c.DescribeCall? && Counted(cfg, next, trace + [c])
    ensures WorkerOk(cfg, next, trace + [c])
  {
    StopsAppend(phase, trace, c, next);
  }

  /** The run gives up, for another reason than exhaustion. */
  predicate GivesUpEarly(phase: Phase) {
    phase.Settling? && phase.next.Done? && phase.next.reason != "attempts_exhausted"
  }

  lemma DescribeOutcome(env: Env, plan: string, n: nat, reply: Option<Identity>)
    ensures var next := AfterDescribe(env, plan, n, reply);
            (next.Choosing? && next.number == n) || GivesUpEarly(next)
  {
  }

  lemma DescribedIsCounted(cfg: Config, next: Phase, n: nat, trace: seq<HostCall>)
    requires n < cfg.maxAttempts && Acquisitions(trace) == n && |trace| <= 5 * n + 1
    requires (next.Choosing? && next.number == n) || GivesUpEarly(next)
    ensures Counted(cfg, next, trace)
  {
  }

  lemma FirstDescribeCounts(env: Env, plan: string, n: nat, reply: Option<Identity>, trace: seq<HostCall>, c: HostCall)
    requires WorkerOk(env.cfg, Describing(plan, n), trace) && c.DescribeCall?
    ensures WorkerOk(env.cfg, AfterDescribe(env, plan, n, reply), trace + [c])
  {
    AcquisitionsAppend(trace, c);
    DescribeOutcome(env, plan, n, reply);
    DescribedIsCounted(env.cfg, AfterDescribe(env, plan, n, reply), n, trace + [c]);
    DescribeCallCounts(env.cfg, Describing(plan, n), trace, c, AfterDescribe(env, plan, n, reply));
  }

  lemma SecondDescribeCounts(cfg: Config, a: Attempt, o: ProbeResult, reply: Option<Identity>, trace: seq<HostCall>,
                             c: HostCall)
    requires WorkerOk(cfg, Redescribing(a, o), trace) && c.DescribeCall?
    ensures WorkerOk(cfg, AfterRedescribe(a, o, reply), trace + [c])
  {
    AcquisitionsAppend(trace, c);
    DescribeCallCounts(cfg, Redescribing(a, o), trace, c, AfterRedescribe(a, o, reply));
  }

  lemma ThirdDescribeCounts(cfg: Config, a: Attempt, o: ProbeResult, fixed: Identity, reply: Option<Identity>,
                            trace: seq<HostCall>, c: HostCall)
    requires WorkerOk(cfg, Confirming(a, o, fixed), trace) && c.DescribeCall?
    ensures WorkerOk(cfg, AfterConfirm(a, o, fixed, reply), trace + [c])
  {
    AcquisitionsAppend(trace, c);
    DescribeCallCounts(cfg, Confirming(a, o, fixed), trace, c, AfterConfirm(a, o, fixed, reply));
  }

  lemma CancelledCounts(cfg: Config, plan: string, n: nat, trace: seq<HostCall>)
    requires WorkerOk(cfg, Describing(plan, n), trace)
    ensures WorkerOk(cfg, Done("cancelled"), trace)
  {
  }

  lemma DescribeCounts(env: Env, e: State, budget: seq<Time>, job: Job, phase: Phase, input: Input,
                       trace: seq<HostCall>, now: Time)
    requires e.pool.Valid() && WorkerOk(env.cfg, phase, trace)
    requires phase.Describing? || phase.Redescribing? || phase.Confirming?
    ensures var out := Advance(env, e, budget, job, phase, input, now);
            out.next.Some? && WorkerOk(env.cfg, out.next.value, AppendCall(trace, out.call))
  {
    var reply := Described(input.described);
    var c := DescribeCall(job.key.authID, reply, now);
    match phase
    case Describing(plan, n) =>
      CancelledCounts(env.cfg, plan, n, trace);
      FirstDescribeCounts(env, plan, n, reply, trace, c);
    case Redescribing(a, o) => SecondDescribeCounts(env.cfg, a, o, reply, trace, c);
    case Confirming(a, o, fixed) => ThirdDescribeCounts(env.cfg, a, o, fixed, reply, trace, c);
  }

  lemma AcquireCounts(env: Env, k: Key, a: Attempt, reply: ProbeReply, closed: bool, trace: seq<HostCall>, now: Time)
    requires WorkerOk(env.cfg, Acquiring(a), trace)
    ensures WorkerOk(env.cfg, AfterAcquisition(env, k.model, a, reply, closed),
                     trace + [ProbeCall(AcquisitionRequest(k, a), reply, now)])
  {
    var c := ProbeCall(AcquisitionRequest(k, a), reply, now);
    AcquisitionsAppend(trace, c);
    StopsAppend(Acquiring(a), trace, c, AfterAcquisition(env, k.model, a, reply, closed));
    AcquisitionOutcome(env, k.model, a, reply, closed);
  }

  lemma VerifyCounts(env: Env, k: Key, a: Attempt, c: ProbeResult, fixed: Identity, reply: ProbeReply,
                     trace: seq<HostCall>, now: Time)
    requires WorkerOk(env.cfg, Verifying(a, c, fixed), trace)
    ensures WorkerOk(env.cfg, AfterVerification(env, k.model, a, c, fixed, reply),
                     trace + [ProbeCall(FormalRequest(k, c, fixed), reply, now)])
  {
    var call := ProbeCall(FormalRequest(k, c, fixed), reply, now);
    AcquisitionsAppend(trace, call);
    StopsAppend(Verifying(a, c, fixed), trace, call, AfterVerification(env, k.model, a, c, fixed, reply));
    VerificationOutcome(env, k.model, a, c, fixed, reply);
  }

  lemma ProbeCounts(env: Env, e: State, budget: seq<Time>, job: Job, phase: Phase, input: Input, trace: seq<HostCall>,
                    now: Time)
    requires e.pool.Valid() && WorkerOk(env.cfg, phase, trace) && (phase.Acquiring? || phase.Verifying?)
    ensures var out := Advance(env, e, budget, job, phase, input, now);
            out.next.Some? && WorkerOk(env.cfg, out.next.value, AppendCall(trace, out.call))
  {
    match phase
    case Acquiring(a) => AcquireCounts(env, job.key, a, input.probed, e.closed, trace, now);
    case Verifying(a, c, fixed) => VerifyCounts(env, job.key, a, c, fixed, input.probed, trace, now);
  }

  lemma QuietCounts(env: Env, e: State, budget: seq<Time>, job: Job, phase: Phase, input: Input, trace: seq<HostCall>,
                    now: Time)
    requires e.pool.Valid() && WorkerOk(env.cfg, phase, trace)
    requires phase.Starting? || phase.Checking? || phase.Publishing? || phase.Settling? || phase.Done?
    ensures var out := Advance(env, e, budget, job, phase, input, now);
            out.call.None? && (out.next.Some? ==> WorkerOk(env.cfg, out.next.value, trace))
  {
  }

  lemma ChoiceCounts(env: Env, e: State, budget: seq<Time>, job: Job, phase: Phase, input: Input, trace: seq<HostCall>,
                     now: Time)
    requires e.pool.Valid() && WorkerOk(env.cfg, phase, trace) && (phase.Choosing? || phase.Capturing?)
    ensures var out := Advance(env, e, budget, job, phase, input, now);
            out.call.None? && (out.next.Some? ==> WorkerOk(env.cfg, out.next.value, trace))
  {
  }

  lemma ReserveCounts(env: Env, e: State, budget: seq<Time>, job: Job, phase: Phase, input: Input,
                      trace: seq<HostCall>, now: Time)
    requires e.pool.Valid() && WorkerOk(env.cfg, phase, trace) && (phase.Reserving? || phase.ReservingFormal?)
    ensures var out := Advance(env, e, budget, job, phase, input, now);
            out.call.None? && (out.next.Some? ==> WorkerOk(env.cfg, out.next.value, trace))
  {
  }

  lemma AdvanceCounts(env: Env, e: State, budget: seq<Time>, job: Job, phase: Phase, input: Input,
                      trace: seq<HostCall>, now: Time)
    requires e.pool.Valid() && WorkerOk(env.cfg, phase, trace)
    ensures var out := Advance(env, e, budget, job, phase, input, now);
            out.next.Some? ==> WorkerOk(env.cfg, out.next.value, AppendCall(trace, out.call))
  {
    if phase.Describing? || phase.Redescribing? || phase.Confirming? {
      DescribeCounts(env, e, budget, job, phase, input, trace, now);
    } else if phase.Acquiring? || phase.Verifying? {
      ProbeCounts(env, e, budget, job, phase, input, trace, now);
    } else if phase.Choosing? || phase.Capturing? {
      ChoiceCounts(env, e, budget, job, phase, input, trace, now);
    } else if phase.Reserving? || phase.ReservingFormal? {
      ReserveCounts(env, e, budget, job, phase, input, trace, now);
    } else {
      QuietCounts(env, e, budget, job, phase, input, trace, now);
    }
  }

  // ---- Readiness ---------------------------------------------------------

  /** The run has not succeeded, or its job has published. */
  ghost predicate ReadyOk(job: Job, phase: Phase, published: seq<Publication>) {
    Ending(phase, "ready") ==> phase.Done? && exists m | 0 <= m < |published| :: published[m].job == job
  }

  lemma OrdinaryNeverReady(env: Env, e: State, budget: seq<Time>, job: Job, phase: Phase, input: Input, now: Time)
    requires e.pool.Valid() && SettlesWell(phase) && !Ending(phase, "ready")
    requires !(phase.Publishing? && CanPublish(env.cfg, e, job, phase.a.plan, phase.a.captured, now))
    ensures var out := Advance(env, e, budget, job, phase, input, now);
            out.next.Some? ==> !Ending(out.next.value, "ready")
  {
  }

  // ---- All workers -------------------------------------------------------

  ghost predicate Fine(cfg: Config, x: Worker, published: seq<Publication>) {
    x.Busy? ==> WorkerOk(cfg, x.phase, x.trace) && ReadyOk(x.job, x.phase, published)
  }

  ghost predicate AllFine(cfg: Config, s: System) {
    forall w | 0 <= w < |s.workers| :: Fine(cfg, s.workers[w], s.published)
  }

  /** Another worker's entry is as it was, and publications only grow. */
  lemma OtherFine(env: Env, s: System, o: Occurrence, s': System, w: nat)
    requires Occurs(env, s, o, s') && !Own(o, w) && w < |s.workers| && Fine(env.cfg, s.workers[w], s.published)
    ensures |s'.workers| == |s.workers| && Fine(env.cfg, s'.workers[w], s'.published)
  {
    OthersKeepWorker(env, s, o, s', w);
    PublishedKept(env, s, o, s');
    ReadyKept(s.workers[w], s.published, s'.published);
  }

  lemma PublishedKept(env: Env, s: System, o: Occurrence, s': System)
    requires Occurs(env, s, o, s')
    ensures s.published <= s'.published
  {
  }

  lemma ReadyKept(x: Worker, before: seq<Publication>, after: seq<Publication>)
    requires before <= after && (x.Busy? ==> ReadyOk(x.job, x.phase, before))
    ensures x.Busy? ==> ReadyOk(x.job, x.phase, after)
  {
    if x.Busy? && Ending(x.phase, "ready") {
      var m :| 0 <= m < |before| && before[m].job == x.job;
      assert after[m].job == x.job;
    }
  }

  lemma TakeFine(env: Env, s: System, o: Occurrence, s': System, w: nat)
    requires Occurs(env, s, o, s') && o.event == Take(w)
    ensures w < |s'.workers| == |s.workers| && Fine(env.cfg, s'.workers[w], s'.published)
  {
  }

  /** The worker's entry after its own step. */
  lemma WorkEntry(env: Env, s: System, o: Occurrence, s': System, w: nat)
    requires Occurs(env, s, o, s') && o.event.Work? && o.event.w == w
    ensures w < |s.workers| == |s'.workers| && s.workers[w].Busy? && s.engine.pool.Valid()
    ensures var me := s.workers[w];
            var out := Advance(env, s.engine, s.budget, me.job, me.phase, o.event.input, o.now);
            s'.workers[w]
            == if out.next.Some? then Busy(me.job, out.next.value, AppendCall(me.trace, out.call)) else Idle
  {
  }

  lemma PublishEntry(env: Env, s: System, o: Occurrence, s': System, w: nat)
    requires Occurs(env, s, o, s') && o.event.Work? && o.event.w == w && w < |s.workers|
    requires MayPublish(env.cfg, s.engine, s.workers[w], o.now)
    ensures s'.published != [] && s'.published[|s'.published| - 1].job == s.workers[w].job
    ensures w < |s'.workers| && s'.workers[w] == Busy(s.workers[w].job, Done("ready"), s.workers[w].trace)
  {
  }

  lemma WorkFine(env: Env, s: System, o: Occurrence, s': System, w: nat)
    requires Occurs(env, s, o, s') && o.event.Work? && o.event.w == w
    requires w < |s.workers| && Fine(env.cfg, s.workers[w], s.published)
    ensures |s'.workers| == |s.workers| && Fine(env.cfg, s'.workers[w], s'.published)
  {
    WorkEntry(env, s, o, s', w);
    var me := s.workers[w];
    AdvanceCounts(env, s.engine, s.budget, me.job, me.phase, o.event.input, me.trace, o.now);
    if MayPublish(env.cfg, s.engine, me, o.now) {
      PublishEntry(env, s, o, s', w);
    } else if Ending(me.phase, "ready") {
    } else {
      OrdinaryNeverReady(env, s.engine, s.budget, me.job, me.phase, o.event.input, o.now);
    }
  }

  lemma StepFine(env: Env, s: System, o: Occurrence, s': System)
    requires Occurs(env, s, o, s') && AllFine(env.cfg, s)
    ensures AllFine(env.cfg, s')
  {
    forall w | 0 <= w < |s'.workers|
      ensures Fine(env.cfg, s'.workers[w], s'.published)
    {
      SameWorkers(env, s, o, s');
      if o.event == Take(w) {
        TakeFine(env, s, o, s', w);
      } else if Own(o, w) {
        WorkFine(env, s, o, s', w);
      } else {
        OtherFine(env, s, o, s', w);
      }
    }
  }

  lemma SameWorkers(env: Env, s: System, o: Occurrence, s': System)
    requires Occurs(env, s, o, s')
    ensures |s'.workers| == |s.workers|
  {
  }

  lemma {:induction false} FineThroughout(cfg: Config, states: seq<System>, i: nat)
    requires i < |states| && AllFine(cfg, states[0])
    requires forall p | 0 <= p < |states| - 1 :: AllFine(cfg, states[p]) ==> AllFine(cfg, states[p + 1])
    ensures AllFine(cfg, states[i])
  {
    if i > 0 {
      FineThroughout(cfg, states, i - 1);
    }
  }

  lemma RunFine(env: Env, states: seq<System>, occurrences: seq<Occurrence>, i: nat)
    requires IsRun(env, states, occurrences) && i < |states|
    ensures AllFine(env.cfg, states[i])
  {
    forall p | 0 <= p < |states| - 1 && AllFine(env.cfg, states[p])
      ensures AllFine(env.cfg, states[p + 1])
    {
      RunStep(env, states, occurrences, p);
      StepFine(env, states[p], occurrences[p], states[p + 1]);
    }
    InitFine(env, states[0]);
    FineThroughout(env.cfg, states, i);
  }

  lemma InitFine(env: Env, s: System)
    requires Init(env, s)
    ensures AllFine(env.cfg, s)
  {
    forall w | 0 <= w < |s.workers| ensures Fine(env.cfg, s.workers[w], s.published) {
      assert s.workers[w] in s.workers;
    }
  }

  // ---- What follows ------------------------------------------------------

  /** A run of collect makes at most the configured number of attempts, each with
      one probe through the pool and at most five calls; it gives up for exhaustion
      only after all of them. */
  lemma AttemptsAreBounded(env: Env, states: seq<System>, occurrences: seq<Occurrence>, i: nat, w: nat)
    requires IsRun(env, states, occurrences) && i < |states| && w < |states[i].workers| && states[i].workers[w].Busy?
    ensures var me := states[i].workers[w];
            && Acquisitions(me.trace) <= env.cfg.maxAttempts && |me.trace| <= 5 * env.cfg.maxAttempts
            && (me.phase == Done("attempts_exhausted") ==> Acquisitions(me.trace) == env.cfg.maxAttempts)
  {
    RunFine(env, states, occurrences, i);
    assert Fine(env.cfg, states[i].workers[w], states[i].published);
    CountedBounds(env.cfg, states[i].workers[w].phase, states[i].workers[w].trace);
  }

  lemma CountedBounds(cfg: Config, phase: Phase, trace: seq<HostCall>)
    requires Counted(cfg, phase, trace)
    ensures Acquisitions(trace) <= cfg.maxAttempts && |trace| <= 5 * cfg.maxAttempts
  {
    if phase.Settling? {
      CountedBounds(cfg, phase.next, trace);
    }
  }

  /** After an answer with status 401, 403 or 429 a run makes no further call, and
      ends as rejected. */
  lemma RejectionIsFinal(env: Env, states: seq<System>, occurrences: seq<Occurrence>, i: nat, w: nat, n: nat)
    requires IsRun(env, states, occurrences) && i < |states| && w < |states[i].workers| && states[i].workers[w].Busy?
    requires n < |states[i].workers[w].trace| && Rejected(states[i].workers[w].trace[n])
    ensures n == |states[i].workers[w].trace| - 1 && Ending(states[i].workers[w].phase, "upstream_rejected")
  {
    RunFine(env, states, occurrences, i);
    assert Fine(env.cfg, states[i].workers[w], states[i].published);
  }

  /** A run calls itself ready only if its job has published, so that every other
      end counts as a failure. */
  lemma ReadyHasPublished(env: Env, states: seq<System>, occurrences: seq<Occurrence>, i: nat, w: nat)
    requires IsRun(env, states, occurrences) && i < |states| && w < |states[i].workers| && states[i].workers[w].Busy?
    requires states[i].workers[w].phase == Done("ready")
    ensures exists m | 0 <= m < |states[i].published| :: states[i].published[m].job == states[i].workers[w].job
  {
    RunFine(env, states, occurrences, i);
    assert Fine(env.cfg, states[i].workers[w], states[i].published);
  }

  /** A job that is not current begins no attempt. */
  lemma StaleJobStops(env: Env, s: System, o: Occurrence, s': System, w: nat, job: Job, plan: string, n: nat)
    requires Occurs(env, s, o, s') && o.event.Work? && o.event.w == w && InPhase(s, w, job, Checking(plan, n))
    requires s.engine.closed || job.key !in s.engine.plans || job.key !in s.engine.records
             || s.engine.records[job.key].epoch != job.epoch
    ensures s'.workers[w].Busy? && s'.workers[w].phase.Done? && s'.workers[w].phase.reason != "ready"
    ensures s'.workers[w].trace == s.workers[w].trace
  {
    WorkEntry(env, s, o, s', w);
  }

  // ---- The certificate, spelled out --------------------------------------

  /** The answers that five calls were given. */
  function AnswersIn(calls: seq<HostCall>): Answers
    requires |calls| == 5 && calls[0].DescribeCall? && calls[1].ProbeCall? && calls[2].DescribeCall?
    requires calls[3].ProbeCall? && calls[4].DescribeCall?
  {
    Answers(calls[0].identity, calls[1].reply, calls[2].identity, calls[3].reply, calls[4].identity)
  }

  /** The calls of a certificate had convincing answers, so a run publishes with
      these answers and no others. */
  lemma CertificateConvinces(env: Env, calls: seq<HostCall>, claim: Claim)
    requires Supports(env, calls, claim) && |calls| == 5 && KnownPlan(claim.plan)
    ensures Convincing(env, claim.key, claim.plan, AnswersIn(calls))
    ensures calls[1].reply.result.state == claim.state && calls[0].identity.value.scope == claim.scope
  {
    IdentityMeans(env.cfg, calls[0].identity.value.plan, claim.plan);
    ValidStateMeans(claim.state, claim.plan);
    GoodProbeServes(env, calls[1], claim);
    GoodProbeServes(env, calls[3], claim);
  }

  lemma GoodProbeServes(env: Env, c: HostCall, claim: Claim)
    requires GoodProbe(env, c, claim)
    ensures GoodReply(env, c.reply, claim.key.model, claim.plan, claim.scope)
  {
    ProbeMeans(env, c.reply.result, claim.key.model);
    PlanMatchesMeans(c.reply.result.plan, claim.plan);
  }

  // ---- What every answer leads to ----------------------------------------

  /** The attempt failed: its proxy is marked as failed, and the next one follows. */
  predicate Retries(phase: Phase, a: Attempt) {
    && phase.Settling? && phase.next == Checking(a.plan, a.number + 1)
    && |phase.chores| == 2 && phase.chores[0].Note? && phase.chores[1] == Mark(a.index, false)
  }

  /** The run is rejected: its proxy is marked as failed, and the run ends. */
  predicate GivesUpRejected(phase: Phase, a: Attempt) {
    phase == Settling([Mark(a.index, false)], Done("upstream_rejected"))
  }

  /** A job whose key has no plan any more ends at once. */
  lemma StartDecides(env: Env, s: System, o: Occurrence, s': System, w: nat, job: Job)
    requires Occurs(env, s, o, s') && o.event.Work? && o.event.w == w && InPhase(s, w, job, Starting)
    ensures s'.workers[w].Busy?
    ensures var e := s.engine;
            s'.workers[w].phase
            == if job.key in e.plans then Checking(e.plans[job.key], 0) else Done("cancelled")
  {
    WorkEntry(env, s, o, s', w);
  }

  /** Without an available proxy the run ends, and otherwise it goes on with one that
      is available. */
  lemma ChoiceDecides(env: Env, s: System, o: Occurrence, s': System, w: nat, job: Job, plan: string, n: nat,
                      id: Identity)
    requires WellFormed(env.cfg, s.engine)
    requires Occurs(env, s, o, s') && o.event.Work? && o.event.w == w && InPhase(s, w, job, Choosing(plan, n, id))
    ensures s'.workers[w].Busy?
    ensures var nodes, next := s.engine.pool.nodes, s'.workers[w].phase;
            if SomeProxy(s.engine.pool, o.now) then
              && next.Capturing? && next.index < |nodes| && nodes[next.index].cooldown <= o.now
              && next == Capturing(plan, n, id, next.index, nodes[next.index].url)
            else Ending(next, "proxy_pool_cooldown")
  {
    WorkEntry(env, s, o, s', w);
    if SomeProxy(s.engine.pool, o.now) {
      ChoiceSucceeds(s.engine.pool, o.now);
    }
  }

  /** The phase reserves this probe. */
  predicate ReservesFor(phase: Phase, probe: Phase) {
    || (phase.Reserving? && probe == Acquiring(phase.a))
    || (phase.ReservingFormal? && probe == Verifying(phase.a, phase.candidate, phase.fixed))
  }

  lemma ReserveSteps(env: Env, s: System, o: Occurrence, s': System, w: nat, job: Job, phase: Phase, probe: Phase)
    requires Occurs(env, s, o, s') && o.event.Work? && o.event.w == w && InPhase(s, w, job, phase)
    requires ReservesFor(phase, probe)
    ensures s'.workers[w].Busy? && s.clock <= o.now
    ensures s'.workers[w].phase
         == if !s.engine.closed && Grants(s.budget, Call(o.now, env.cfg.maxProbesPerHour)) then probe
            else Done("budget_exhausted")
  {
    WorkEntry(env, s, o, s', w);
  }

  /** Reserving a probe: a closed engine or an exhausted hour ends the run, and any
      other leads on to the probe that was reserved. */
  lemma ReserveDecides(env: Env, s: System, o: Occurrence, s': System, w: nat, job: Job, phase: Phase, probe: Phase)
    requires BudgetOk(s.budget, s.grants, s.clock, s.probes, s.workers)
    requires Occurs(env, s, o, s') && o.event.Work? && o.event.w == w && InPhase(s, w, job, phase)
    requires ReservesFor(phase, probe)
    ensures s'.workers[w].Busy?
    ensures s'.workers[w].phase
         == if !s.engine.closed && ProbeLeft(env, s, o.now) then probe else Done("budget_exhausted")
  {
    ReserveSteps(env, s, o, s', w, job, phase, probe);
    GrantedIff(env, s, o.now);
  }

  /** The identity decides whether there is an attempt at all: without one, or with
      another plan, the run ends. */
  lemma DescribeDecides(env: Env, s: System, o: Occurrence, s': System, w: nat, job: Job, plan: string, n: nat)
    requires Occurs(env, s, o, s') && o.event.Work? && o.event.w == w && InPhase(s, w, job, Describing(plan, n))
    requires KnownPlan(plan) && !s.engine.closed
    ensures s'.workers[w].Busy?
    ensures var reply, next := o.event.input.described, s'.workers[w].phase;
            if reply.None? || reply.value.scope == "" then Ending(next, "identity_unavailable")
            else if !IdentityFits(env.cfg, reply.value.plan, plan) then Ending(next, "plan_mismatch")
            else next == Choosing(plan, n, reply.value)
  {
    WorkEntry(env, s, o, s', w);
    if o.event.input.described.Some? {
      IdentityMeans(env.cfg, o.event.input.described.value.plan, plan);
    }
  }

  /** The first probe: a rejection ends the run, a convincing answer leads on, and any
      other one to the next attempt. */
  lemma AcquisitionDecides(env: Env, s: System, o: Occurrence, s': System, w: nat, job: Job, a: Attempt)
    requires Occurs(env, s, o, s') && o.event.Work? && o.event.w == w && InPhase(s, w, job, Acquiring(a))
    ensures s'.workers[w].Busy?
    ensures var reply, next := o.event.input.probed, s'.workers[w].phase;
            if reply.result.status in {401, 403, 429} then GivesUpRejected(next, a)
            else if reply.failed && s.engine.closed then next == Done("cancelled")
            else if GoodReply(env, reply, job.key.model, a.plan, a.id.scope) && Usable(reply.result.state, a.plan) then
              next == Redescribing(a, reply.result)
            else Retries(next, a)
  {
    WorkEntry(env, s, o, s', w);
    var reply := o.event.input.probed;
    AcquisitionVerdict(env, job.key.model, a, reply, s.engine.closed);
  }

  lemma AcquisitionVerdict(env: Env, model: string, a: Attempt, reply: ProbeReply, closed: bool)
    ensures var next := AfterAcquisition(env, model, a, reply, closed);
            if reply.result.status in {401, 403, 429} then GivesUpRejected(next, a)
            else if reply.failed && closed then next == Done("cancelled")
            else if GoodReply(env, reply, model, a.plan, a.id.scope) && Usable(reply.result.state, a.plan) then
              next == Redescribing(a, reply.result)
            else Retries(next, a)
  {
    ProbeMeans(env, reply.result, model);
    PlanMatchesMeans(reply.result.plan, a.plan);
    ValidStateMeans(reply.result.state, a.plan);
  }

  /** The second identity: without one the run ends, and another scope costs the
      attempt. */
  lemma RedescribeDecides(env: Env, s: System, o: Occurrence, s': System, w: nat, job: Job, a: Attempt, c: ProbeResult)
    requires Occurs(env, s, o, s') && o.event.Work? && o.event.w == w && InPhase(s, w, job, Redescribing(a, c))
    ensures s'.workers[w].Busy?
    ensures var reply, next := o.event.input.described, s'.workers[w].phase;
            if reply.None? || reply.value.scope == "" then next == Done("identity_unavailable")
            else if reply.value.scope != a.id.scope then Retries(next, a)
            else next == ReservingFormal(a, c, reply.value)
  {
    WorkEntry(env, s, o, s', w);
  }

  lemma VerificationVerdict(env: Env, model: string, a: Attempt, c: ProbeResult, fixed: Identity, reply: ProbeReply)
    ensures var next := AfterVerification(env, model, a, c, fixed, reply);
            if reply.result.status in {401, 403, 429} then GivesUpRejected(next, a)
            else if GoodReply(env, reply, model, a.plan, fixed.scope) && |reply.result.state| != 312 then
              next == Confirming(a, c, fixed)
            else Retries(next, a)
  {
    ProbeMeans(env, reply.result, model);
    PlanMatchesMeans(reply.result.plan, a.plan);
  }

  /** The second probe decides like the first one, except that its state need only not
      be of 312 bytes. */
  lemma VerificationDecides(env: Env, s: System, o: Occurrence, s': System, w: nat, job: Job, a: Attempt,
                            c: ProbeResult, fixed: Identity)
    requires Occurs(env, s, o, s') && o.event.Work? && o.event.w == w && InPhase(s, w, job, Verifying(a, c, fixed))
    ensures s'.workers[w].Busy?
    ensures var reply, next := o.event.input.probed, s'.workers[w].phase;
            if reply.result.status in {401, 403, 429} then GivesUpRejected(next, a)
            else if GoodReply(env, reply, job.key.model, a.plan, fixed.scope) && |reply.result.state| != 312 then
              next == Confirming(a, c, fixed)
            else Retries(next, a)
  {
    WorkEntry(env, s, o, s', w);
    VerificationVerdict(env, job.key.model, a, c, fixed, o.event.input.probed);
  }

  /** The last identity: the same scope marks the proxy as good and leads to
      publication, and anything else costs the attempt. */
  lemma ConfirmDecides(env: Env, s: System, o: Occurrence, s': System, w: nat, job: Job, a: Attempt, c: ProbeResult,
                       fixed: Identity)
    requires Occurs(env, s, o, s') && o.event.Work? && o.event.w == w && InPhase(s, w, job, Confirming(a, c, fixed))
    requires fixed.scope != ""
    ensures s'.workers[w].Busy?
    ensures var reply, next := o.event.input.described, s'.workers[w].phase;
            if ScopeIs(reply, fixed.scope) then next == Settling([Mark(a.index, true)], Publishing(a, c, reply.value))
            else Retries(next, a)
  {
    WorkEntry(env, s, o, s', w);
  }

  /** Publication, the other way round: a ticket is published only for a job that is
      current, under the plan the run began with, and in time; otherwise the run is
      cancelled and the record stays. */
  lemma PublicationDecides(env: Env, s: System, o: Occurrence, s': System, w: nat, job: Job, a: Attempt,
                           c: ProbeResult, current: Identity)
    requires WellFormed(env.cfg, s.engine) && KnownPlan(a.plan)
    requires Occurs(env, s, o, s') && o.event.Work? && o.event.w == w && InPhase(s, w, job, Publishing(a, c, current))
    ensures s'.workers[w].Busy?
    ensures if Current(s.engine, job, a.plan) && o.now < a.captured + env.cfg.ttl then
              s'.workers[w].phase == Done("ready") && |s'.published| == |s.published| + 1
            else s'.workers[w].phase == Done("cancelled") && s'.published == s.published && s'.engine == s.engine
  {
    WorkEntry(env, s, o, s', w);
  }
}
