/** What a run of collect has proved about its candidate at each phase, read off
    the Host calls it made. */
module Evidence {
  import opened Base
  import opened PrewarmConfig
  import opened ProbeBudget
  import opened Completions
  import opened EngineState
  import opened EngineInvariants
  import opened ProxyPool
  import opened Protocol

  /** The claim that a ticket makes: the account's identity had this scope and
      plan, and the state was captured under them. */
  datatype Claim = Claim(key: Key, plan: string, scope: string, state: string, captured: Time)

  ghost predicate SameScope(c: HostCall, claim: Claim) {
    && c.DescribeCall?
    && c.authID == claim.key.authID
    && c.identity.Some?
    && c.identity.value.scope == claim.scope
    && claim.scope != ""
  }

  ghost predicate GoodProbe(env: Env, c: HostCall, claim: Claim) {
    && c.ProbeCall?
    && c.request.authID == claim.key.authID
    && c.request.model == claim.key.model
    && c.request.expectedScope == claim.scope
    && !c.reply.failed
    && c.reply.result.scope == claim.scope
    && SuccessfulProbe(env, c.reply.result, claim.key.model)
    && PlanMatches(c.reply.result.plan, claim.plan)
  }

  /** First the identity is described under the expected plan. */
  ghost predicate First(env: Env, c: HostCall, claim: Claim) {
    SameScope(c, claim) && IdentityPlanMatches(env.cfg, c.identity.value.plan, claim.plan) && c.at <= claim.captured
  }

  /** Then a probe through a pool proxy, without a state, obtains the state. */
  ghost predicate Second(env: Env, c: HostCall, claim: Claim) {
    && GoodProbe(env, c, claim)
    && c.request.proxyOverride.Some? && c.request.proxyOverride.value in env.proxies
    && c.request.state == ""
    && c.reply.result.state == claim.state
    && ValidState(claim.state, claim.plan)
    && claim.captured <= c.at
  }

  /** Later a probe on the account's own route carries exactly that state. */
  ghost predicate Fourth(env: Env, c: HostCall, claim: Claim) {
    && GoodProbe(env, c, claim)
    && c.request.proxyOverride.None?
    && c.request.state == claim.state
    && |c.reply.result.state| != 312
  }

  /** The first calls of an attempt, as far as they were made. */
  ghost predicate Supports(env: Env, calls: seq<HostCall>, claim: Claim) {
    && |calls| <= 5
    && (|calls| > 0 ==> First(env, calls[0], claim))
    && (|calls| > 1 ==> Second(env, calls[1], claim))
    && (|calls| > 2 ==> SameScope(calls[2], claim))
    && (|calls| > 3 ==> Fourth(env, calls[3], claim))
    && (|calls| > 4 ==> SameScope(calls[4], claim))
  }

  /** The last n calls of a run support the claim. */
  ghost predicate EndsWith(env: Env, trace: seq<HostCall>, n: nat, claim: Claim) {
    n <= |trace| && Supports(env, trace[|trace| - n..], claim)
  }

  /** The publication certificate: the last five calls of the run support the
      ticket, which lives for the configured time from before its acquisition. */
  ghost predicate Certified(env: Env, p: Publication) {
    && EndsWith(env, p.trace, 5, Claim(p.job.key, p.plan, p.ticket.scope, p.ticket.state, p.captured))
    && p.ticket.expires == p.captured + env.cfg.ttl
    && p.captured <= p.at < p.ticket.expires
  }

  function ClaimOf(k: Key, a: Attempt, state: string): Claim {
    Claim(k, a.plan, a.id.scope, state, a.captured)
  }

  /** The last n calls support the attempt and the state it obtained, if any yet. */
  ghost predicate AttemptBacked(env: Env, k: Key, a: Attempt, state: string, trace: seq<HostCall>, n: nat) {
    a.proxy in env.proxies && EndsWith(env, trace, n, ClaimOf(k, a, state))
  }

  /** The last call described the identity, when it did. */
  ghost predicate IdentityBacked(env: Env, k: Key, plan: string, id: Identity, trace: seq<HostCall>) {
    trace != [] && EndsWith(env, trace, 1, Claim(k, plan, id.scope, "", trace[|trace| - 1].at))
  }

  ghost predicate PublicationBacked(env: Env, k: Key, a: Attempt, c: ProbeResult, current: Identity,
                                    trace: seq<HostCall>) {
    current.scope == a.id.scope && AttemptBacked(env, k, a, c.state, trace, 5)
  }

  /** The evidence that each phase relies on. */
  ghost predicate Backed(env: Env, k: Key, phase: Phase, trace: seq<HostCall>) {
    match phase
    case Starting => true
    case Checking(_, _) => true
    case Describing(_, _) => true
    case Choosing(plan, _, id) => IdentityBacked(env, k, plan, id, trace)
    case Capturing(plan, _, id, _, proxy) => proxy in env.proxies && IdentityBacked(env, k, plan, id, trace)
    case Reserving(a) => AttemptBacked(env, k, a, "", trace, 1)
    case Acquiring(a) => AttemptBacked(env, k, a, "", trace, 1)
    case Redescribing(a, c) => AttemptBacked(env, k, a, c.state, trace, 2)
    case ReservingFormal(a, c, fixed) => fixed.scope == a.id.scope && AttemptBacked(env, k, a, c.state, trace, 3)
    case Verifying(a, c, fixed) => fixed.scope == a.id.scope && AttemptBacked(env, k, a, c.state, trace, 3)
    case Confirming(a, c, fixed) => fixed.scope == a.id.scope && AttemptBacked(env, k, a, c.state, trace, 4)
    case Publishing(a, c, current) => PublicationBacked(env, k, a, c, current, trace)
    case Settling(_, next) =>
      && SettlesWell(phase)
      && (next.Publishing? ==> PublicationBacked(env, k, next.a, next.candidate, next.current, trace))
    case Done(_) => true
  }

  /** Where a settling phase may lead. */
  predicate SettlesWell(phase: Phase) {
    phase.Settling? ==> phase.next.Checking? || phase.next.Done? || phase.next.Publishing?
  }

  /** The clock has passed what the phase has seen. */
  predicate Timely(phase: Phase, trace: seq<HostCall>, clock: Time) {
    && (phase.Choosing? || phase.Capturing? ==> trace != [] && trace[|trace| - 1].at <= clock)
    && (CapturedIn(phase).Some? ==> CapturedIn(phase).value <= clock)
  }

  /** When the state that a phase works on was captured. */
  function CapturedIn(phase: Phase): Option<Time> {
    match phase
    case Reserving(a) => Some(a.captured)
    case Acquiring(a) => Some(a.captured)
    case Redescribing(a, _) => Some(a.captured)
    case ReservingFormal(a, _, _) => Some(a.captured)
    case Verifying(a, _, _) => Some(a.captured)
    case Confirming(a, _, _) => Some(a.captured)
    case Publishing(a, _, _) => Some(a.captured)
    case Settling(_, next) => if next.Publishing? then Some(next.a.captured) else None
    case _ => None
  }

  /** What each phase of a run may rely on. */
  ghost predicate RunOk(env: Env, k: Key, phase: Phase, trace: seq<HostCall>, clock: Time) {
    Backed(env, k, phase, trace) && Timely(phase, trace, clock)
  }

  lemma TimelyLater(phase: Phase, trace: seq<HostCall>, clock: Time, later: Time)
    requires Timely(phase, trace, clock) && clock <= later
    ensures Timely(phase, trace, later)
  {
  }

  /** One more call that fits extends what the trace supports. */
  lemma Extend(env: Env, trace: seq<HostCall>, n: nat, claim: Claim, c: HostCall)
    requires EndsWith(env, trace, n, claim) && n < 5
    requires n == 0 ==> First(env, c, claim)
    requires n == 1 ==> Second(env, c, claim)
    requires n == 2 || n == 4 ==> SameScope(c, claim)
    requires n == 3 ==> Fourth(env, c, claim)
    ensures EndsWith(env, trace + [c], n + 1, claim)
  {
    var calls := trace[|trace| - n..];
    var more := trace + [c];
    assert more[|more| - (n + 1)..] == calls + [c];
  }

  /** While only the identity is described, state and capture are open. */
  lemma ChangeState(env: Env, trace: seq<HostCall>, claim: Claim, state: string, captured: Time)
    requires EndsWith(env, trace, 1, claim) && claim.captured <= captured
    ensures EndsWith(env, trace, 1, claim.(state := state, captured := captured))
  {
  }

  /** The pool offers the configured proxies only. */
  ghost predicate UrlsOk(env: Env, e: State) {
    forall n <- e.pool.nodes :: n.url in env.proxies
  }

  // ---- The phases that call the Host -------------------------------------

  lemma DescribeOk(env: Env, k: Key, plan: string, number: nat, reply: Option<Identity>, trace: seq<HostCall>,
                   now: Time)
    ensures RunOk(env, k, AfterDescribe(env, plan, number, Described(reply)),
                  trace + [DescribeCall(k.authID, Described(reply), now)], now)
  {
    var identity := Described(reply);
    if identity.Some? && IdentityPlanMatches(env.cfg, identity.value.plan, plan) {
      var call := DescribeCall(k.authID, identity, now);
      Extend(env, trace, 0, Claim(k, plan, identity.value.scope, "", now), call);
      assert IdentityBacked(env, k, plan, identity.value, trace + [call]);
    }
  }

  /** A phase from which nothing is claimed any more. */
  predicate GivesUp(phase: Phase) {
    phase.Done? || (phase.Settling? && (phase.next.Checking? || phase.next.Done?))
  }

  lemma GivingUpOk(env: Env, k: Key, phase: Phase, trace: seq<HostCall>, clock: Time)
    requires GivesUp(phase)
    ensures RunOk(env, k, phase, trace, clock)
  {
  }

  lemma VerificationOutcome(env: Env, model: string, a: Attempt, c: ProbeResult, fixed: Identity, reply: ProbeReply)
    ensures var next := AfterVerification(env, model, a, c, fixed, reply);
            next == Confirming(a, c, fixed) || GivesUp(next)
  {
  }

  lemma AcquisitionOutcome(env: Env, model: string, a: Attempt, reply: ProbeReply, closed: bool)
    ensures var next := AfterAcquisition(env, model, a, reply, closed);
            next == Redescribing(a, reply.result) || GivesUp(next)
  {
  }

  lemma AcquireOk(env: Env, k: Key, a: Attempt, reply: ProbeReply, closed: bool, trace: seq<HostCall>, now: Time)
    requires AttemptBacked(env, k, a, "", trace, 1) && a.captured <= now
    ensures RunOk(env, k, AfterAcquisition(env, k.model, a, reply, closed),
                  trace + [ProbeCall(AcquisitionRequest(k, a), reply, now)], now)
  {
    var next := AfterAcquisition(env, k.model, a, reply, closed);
    var call := ProbeCall(AcquisitionRequest(k, a), reply, now);
    AcquisitionOutcome(env, k.model, a, reply, closed);
    if GivesUp(next) {
      GivingUpOk(env, k, next, trace + [call], now);
    } else {
      ChangeState(env, trace, ClaimOf(k, a, ""), reply.result.state, a.captured);
      AcquisitionIsSecond(env, k, a, reply, closed, now);
      Extend(env, trace, 1, ClaimOf(k, a, reply.result.state), call);
      assert AttemptBacked(env, k, a, reply.result.state, trace + [call], 2);
    }
  }

  lemma AcquisitionIsSecond(env: Env, k: Key, a: Attempt, reply: ProbeReply, closed: bool, now: Time)
    requires a.proxy in env.proxies && a.captured <= now
    requires AfterAcquisition(env, k.model, a, reply, closed).Redescribing?
    ensures Second(env, ProbeCall(AcquisitionRequest(k, a), reply, now), ClaimOf(k, a, reply.result.state))
  {
  }

  lemma RedescribeOk(env: Env, k: Key, a: Attempt, c: ProbeResult, reply: Option<Identity>, trace: seq<HostCall>,
                     now: Time)
    requires AttemptBacked(env, k, a, c.state, trace, 2) && a.captured <= now
    ensures RunOk(env, k, AfterRedescribe(a, c, Described(reply)),
                  trace + [DescribeCall(k.authID, Described(reply), now)], now)
  {
    var identity := Described(reply);
    if identity.Some? && identity.value.scope == a.id.scope {
      var call := DescribeCall(k.authID, identity, now);
      Extend(env, trace, 2, ClaimOf(k, a, c.state), call);
      assert AttemptBacked(env, k, a, c.state, trace + [call], 3);
    }
  }

  lemma VerifyOk(env: Env, k: Key, a: Attempt, c: ProbeResult, fixed: Identity, reply: ProbeReply, trace: seq<HostCall>,
                 now: Time)
    requires AttemptBacked(env, k, a, c.state, trace, 3) && fixed.scope == a.id.scope && a.captured <= now
    ensures RunOk(env, k, AfterVerification(env, k.model, a, c, fixed, reply),
                  trace + [ProbeCall(FormalRequest(k, c, fixed), reply, now)], now)
  {
    var next := AfterVerification(env, k.model, a, c, fixed, reply);
    var call := ProbeCall(FormalRequest(k, c, fixed), reply, now);
    VerificationOutcome(env, k.model, a, c, fixed, reply);
    if GivesUp(next) {
      GivingUpOk(env, k, next, trace + [call], now);
    } else {
      VerificationIsFourth(env, k, a, c, fixed, reply, now);
      Extend(env, trace, 3, ClaimOf(k, a, c.state), call);
      assert AttemptBacked(env, k, a, c.state, trace + [call], 4);
    }
  }

  lemma VerificationIsFourth(env: Env, k: Key, a: Attempt, c: ProbeResult, fixed: Identity, reply: ProbeReply,
                             now: Time)
    requires fixed.scope == a.id.scope && AfterVerification(env, k.model, a, c, fixed, reply).Confirming?
    ensures Fourth(env, ProbeCall(FormalRequest(k, c, fixed), reply, now), ClaimOf(k, a, c.state))
  {
  }

  lemma ConfirmedOk(env: Env, k: Key, a: Attempt, c: ProbeResult, current: Identity, trace: seq<HostCall>, now: Time)
    requires AttemptBacked(env, k, a, c.state, trace, 5) && current.scope == a.id.scope && a.captured <= now
    ensures RunOk(env, k, Settling([Mark(a.index, true)], Publishing(a, c, current)), trace, now)
  {
  }

  lemma ConfirmOk(env: Env, k: Key, a: Attempt, c: ProbeResult, fixed: Identity, reply: Option<Identity>,
                  trace: seq<HostCall>, now: Time)
    requires AttemptBacked(env, k, a, c.state, trace, 4) && fixed.scope == a.id.scope && a.captured <= now
    ensures RunOk(env, k, AfterConfirm(a, c, fixed, Described(reply)),
                  trace + [DescribeCall(k.authID, Described(reply), now)], now)
  {
    var identity := Described(reply);
    if identity.Some? && identity.value.scope == fixed.scope {
      var call := DescribeCall(k.authID, identity, now);
      Extend(env, trace, 4, ClaimOf(k, a, c.state), call);
      ConfirmedOk(env, k, a, c, identity.value, trace + [call], now);
    } else {
      GivingUpOk(env, k, AfterConfirm(a, c, fixed, identity), trace + [DescribeCall(k.authID, identity, now)], now);
    }
  }

  // ---- One step of a run -------------------------------------------------

  /** Describing, before and after the probes. */
  lemma DescribingRunOk(env: Env, e: State, budget: seq<Time>, job: Job, phase: Phase, input: Input,
                        trace: seq<HostCall>, now: Time)
    requires e.pool.Valid() && RunOk(env, job.key, phase, trace, now)
    requires phase.Describing? || phase.Redescribing? || phase.Confirming?
    ensures var out := Advance(env, e, budget, job, phase, input, now);
            out.next.Some? && RunOk(env, job.key, out.next.value, AppendCall(trace, out.call), now)
  {
    var k := job.key;
    match phase
    case Describing(plan, number) => DescribeOk(env, k, plan, number, input.described, trace, now);
    case Redescribing(a, c) => RedescribeOk(env, k, a, c, input.described, trace, now);
    case Confirming(a, c, fixed) => ConfirmOk(env, k, a, c, fixed, input.described, trace, now);
  }

  lemma ProbingRunOk(env: Env, e: State, budget: seq<Time>, job: Job, phase: Phase, input: Input, trace: seq<HostCall>,
                     now: Time)
    requires e.pool.Valid() && RunOk(env, job.key, phase, trace, now) && (phase.Acquiring? || phase.Verifying?)
    ensures var out := Advance(env, e, budget, job, phase, input, now);
            out.next.Some? && RunOk(env, job.key, out.next.value, AppendCall(trace, out.call), now)
  {
    match phase
    case Acquiring(a) => AcquireOk(env, job.key, a, input.probed, e.closed, trace, now);
    case Verifying(a, c, fixed) => VerifyOk(env, job.key, a, c, fixed, input.probed, trace, now);
  }

  lemma ChoosingRunOk(env: Env, e: State, budget: seq<Time>, job: Job, phase: Phase, input: Input, trace: seq<HostCall>,
                      now: Time)
    requires e.pool.Valid() && UrlsOk(env, e) && phase.Choosing? && RunOk(env, job.key, phase, trace, now)
    ensures var out := Advance(env, e, budget, job, phase, input, now);
            out.call.None? && out.next.Some? && RunOk(env, job.key, out.next.value, trace, now)
  {
    var index := Choose(e.pool, now).1;
    if index >= 0 {
      assert e.pool.nodes[index] in e.pool.nodes;
    }
  }

  lemma CapturingRunOk(env: Env, e: State, budget: seq<Time>, job: Job, phase: Phase, input: Input,
                       trace: seq<HostCall>, now: Time)
    requires e.pool.Valid() && phase.Capturing? && RunOk(env, job.key, phase, trace, now)
    ensures var out := Advance(env, e, budget, job, phase, input, now);
            out.call.None? && out.next.Some? && RunOk(env, job.key, out.next.value, trace, now)
  {
    ChangeState(env, trace, Claim(job.key, phase.plan, phase.id.scope, "", trace[|trace| - 1].at), "", now);
  }

  lemma ReserveRunOk(env: Env, e: State, budget: seq<Time>, k: Key, next: Phase, trace: seq<HostCall>, now: Time)
    requires RunOk(env, k, next, trace, now)
    ensures var out := Reserve(env, e, budget, next, now);
            out.call.None? && out.next.Some? && RunOk(env, k, out.next.value, trace, now)
  {
    GivingUpOk(env, k, Done("budget_exhausted"), trace, now);
  }

  lemma ReservingRunOk(env: Env, e: State, budget: seq<Time>, job: Job, phase: Phase, input: Input,
                       trace: seq<HostCall>, now: Time)
    requires e.pool.Valid() && RunOk(env, job.key, phase, trace, now)
    requires phase.Reserving? || phase.ReservingFormal?
    ensures var out := Advance(env, e, budget, job, phase, input, now);
            out.call.None? && out.next.Some? && RunOk(env, job.key, out.next.value, trace, now)
  {
    match phase
    case Reserving(a) => ReserveRunOk(env, e, budget, job.key, Acquiring(a), trace, now);
    case ReservingFormal(a, c, fixed) => ReserveRunOk(env, e, budget, job.key, Verifying(a, c, fixed), trace, now);
  }

  /** The chores that follow a phase, one by one. */
  lemma ChoresRunOk(env: Env, k: Key, chores: seq<Chore>, next: Phase, trace: seq<HostCall>, now: Time)
    requires RunOk(env, k, Settling(chores, next), trace, now)
    ensures chores == [] ==> RunOk(env, k, next, trace, now)
    ensures chores != [] ==> RunOk(env, k, Settling(chores[1..], next), trace, now)
  {
  }

  /** Phases that start or end a run. */
  lemma EndingRunOk(env: Env, e: State, budget: seq<Time>, job: Job, phase: Phase, input: Input, trace: seq<HostCall>,
                    now: Time)
    requires e.pool.Valid() && (phase.Starting? || phase.Checking? || phase.Publishing? || phase.Done?)
    ensures var out := Advance(env, e, budget, job, phase, input, now);
            out.call.None? && (out.next.Some? ==> RunOk(env, job.key, out.next.value, trace, now))
  {
  }

  lemma SettlingRunOk(env: Env, e: State, budget: seq<Time>, job: Job, phase: Phase, input: Input, trace: seq<HostCall>,
                      now: Time)
    requires e.pool.Valid() && phase.Settling? && RunOk(env, job.key, phase, trace, now)
    ensures var out := Advance(env, e, budget, job, phase, input, now);
            out.call.None? && (out.next.Some? ==> RunOk(env, job.key, out.next.value, trace, now))
  {
    ChoresRunOk(env, job.key, phase.chores, phase.next, trace, now);
  }

  /** Every step of a run keeps what its phase relies on. */
  lemma AdvanceRunOk(env: Env, e: State, budget: seq<Time>, job: Job, phase: Phase, input: Input,
                     trace: seq<HostCall>, now: Time)
    requires e.pool.Valid() && UrlsOk(env, e) && RunOk(env, job.key, phase, trace, now)
    ensures var out := Advance(env, e, budget, job, phase, input, now);
            out.next.Some? ==> RunOk(env, job.key, out.next.value, AppendCall(trace, out.call), now)
  {
    if phase.Describing? || phase.Redescribing? || phase.Confirming? {
      DescribingRunOk(env, e, budget, job, phase, input, trace, now);
    } else if phase.Acquiring? || phase.Verifying? {
      ProbingRunOk(env, e, budget, job, phase, input, trace, now);
    } else if phase.Choosing? {
      ChoosingRunOk(env, e, budget, job, phase, input, trace, now);
    } else if phase.Capturing? {
      CapturingRunOk(env, e, budget, job, phase, input, trace, now);
    } else if phase.Reserving? || phase.ReservingFormal? {
      ReservingRunOk(env, e, budget, job, phase, input, trace, now);
    } else if phase.Settling? {
      SettlingRunOk(env, e, budget, job, phase, input, trace, now);
    } else {
      EndingRunOk(env, e, budget, job, phase, input, trace, now);
    }
  }

  /** A run that publishes holds the certificate for its ticket. */
  lemma PublicationCertified(env: Env, e: State, job: Job, phase: Phase, trace: seq<HostCall>, now: Time)
    requires phase.Publishing? && RunOk(env, job.key, phase, trace, now)
    requires CanPublish(env.cfg, e, job, phase.a.plan, phase.a.captured, now)
    ensures var t := NewTicket(env.cfg, e, phase.candidate.state, phase.current.scope, phase.a.captured);
            Certified(env, Publication(job, phase.a.plan, phase.a.captured, t, now, trace))
            && ValidState(t.state, phase.a.plan)
  {
    var claim := ClaimOf(job.key, phase.a, phase.candidate.state);
    assert Second(env, trace[|trace| - 5..][1], claim);
  }
}
