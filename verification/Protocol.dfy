/** The whole engine as a protocol: workers run collect step by step, between
    the steps of the scheduler, of discovery, of request callbacks and of Close.
    Every region under the engine lock is one step, and so is every Host call
    (internal/prewarm/engine.go). */
module Protocol {
  import opened Base
  import opened PrewarmConfig
  import opened ProbeBudget
  import opened Completions
  import opened EngineState

  datatype ProbeRequest = ProbeRequest(authID: string, model: string, proxyOverride: Option<string>, state: string,
                                       expectedScope: string)
  datatype ProbeResult = ProbeResult(scope: string, status: int, state: string, actualModel: string, plan: string,
                                     body: Bytes)
  datatype ProbeReply = ProbeReply(result: ProbeResult, failed: bool)

  datatype HostCall =
    | DescribeCall(authID: string, identity: Option<Identity>, at: Time)
    | ProbeCall(request: ProbeRequest, reply: ProbeReply, at: Time)

  datatype Env = Env(cfg: Config, decode: Decoder, proxies: seq<string>)

  predicate StopStatus(status: int) {
    status == 401 || status == 403 || status == 429
  }

  predicate SuccessfulProbe(env: Env, result: ProbeResult, model: string) {
    result.status == 200 && |result.body| <= MAX_PROBE_BYTES
    && EvaluateProbeBody(result.body, model, env.decode).Success()
  }

  // ---- One run of collect ------------------------------------------------

  datatype Chore = Note(reason: string) | Mark(index: nat, ok: bool)

  /** An attempt whose proxy was chosen; `captured` is read before the probe. */
  datatype Attempt = Attempt(plan: string, number: nat, id: Identity, index: nat, proxy: string, captured: Time)

  datatype Phase =
    | Starting
    | Checking(plan: string, number: nat)
    | Describing(plan: string, number: nat)
    | Choosing(plan: string, number: nat, id: Identity)
    | Capturing(plan: string, number: nat, id: Identity, index: nat, proxy: string)
    | Reserving(a: Attempt)
    | Acquiring(a: Attempt)
    | Redescribing(a: Attempt, candidate: ProbeResult)
    | ReservingFormal(a: Attempt, candidate: ProbeResult, fixed: Identity)
    | Verifying(a: Attempt, candidate: ProbeResult, fixed: Identity)
    | Confirming(a: Attempt, candidate: ProbeResult, fixed: Identity)
    | Publishing(a: Attempt, candidate: ProbeResult, current: Identity)
    | Settling(chores: seq<Chore>, next: Phase)
    | Done(reason: string)

  function Retry(reason: string, a: Attempt): Phase {
    Settling([Note(reason), Mark(a.index, false)], Checking(a.plan, a.number + 1))
  }

  function AfterDescribe(env: Env, plan: string, number: nat, reply: Option<Identity>): Phase {
    if reply.None? then Settling([Note("identity_unavailable")], Done("identity_unavailable"))
    else if !IdentityPlanMatches(env.cfg, reply.value.plan, plan) then
      Settling([Note("harvest_plan_mismatch")], Done("plan_mismatch"))
    else Choosing(plan, number, reply.value)
  }

  function AfterAcquisition(env: Env, model: string, a: Attempt, reply: ProbeReply, closed: bool): Phase {
    var r := reply.result;
    if StopStatus(r.status) then Settling([Mark(a.index, false)], Done("upstream_rejected"))
    else if reply.failed then (if closed then Done("cancelled") else Retry("harvest_transport", a))
    else if r.scope != a.id.scope || !SuccessfulProbe(env, r, model)
            || !PlanMatches(r.plan, a.plan) || !ValidState(r.state, a.plan)
    then Retry(if r.actualModel != "" && r.actualModel != model then "harvest_model_mismatch_" + r.actualModel
               else "harvest_model_plan_or_state", a)
    else Redescribing(a, r)
  }

  function AfterRedescribe(a: Attempt, candidate: ProbeResult, reply: Option<Identity>): Phase {
    if reply.None? then Done("identity_unavailable")
    else if reply.value.scope != a.id.scope then Retry("harvest_scope_changed", a)
    else ReservingFormal(a, candidate, reply.value)
  }

  function AfterVerification(env: Env, model: string, a: Attempt, candidate: ProbeResult, fixed: Identity,
                             reply: ProbeReply)
    : Phase
  {
    var r := reply.result;
    if StopStatus(r.status) then Settling([Mark(a.index, false)], Done("upstream_rejected"))
    else if reply.failed || r.scope != fixed.scope || !SuccessfulProbe(env, r, model) || !PlanMatches(r.plan, a.plan)
            || |r.state| == 312
    then Retry(if r.actualModel != "" && r.actualModel != model then "formal_model_mismatch_" + r.actualModel
               else "formal_model_plan_state_or_transport", a)
    else Confirming(a, candidate, fixed)
  }

  function AfterConfirm(a: Attempt, candidate: ProbeResult, fixed: Identity, reply: Option<Identity>): Phase {
    if reply.None? || reply.value.scope != fixed.scope then Retry("formal_scope_changed", a)
    else Settling([Mark(a.index, true)], Publishing(a, candidate, reply.value))
  }

  /** What the environment decides in a worker step: the replies of the Host, and
      whether a cancellation that is under way is noticed. */
  datatype Input = Input(described: Option<Identity>, probed: ProbeReply, cancelled: bool)

  /** The effect of a worker step; `next` is None when the job is over. */
  datatype Outcome = Outcome(engine: State, budget: seq<Time>, next: Option<Phase>, call: Option<HostCall>,
                             granted: bool, published: Option<Ticket>)

  function Move(e: State, budget: seq<Time>, next: Phase): Outcome {
    Outcome(e, budget, Some(next), None, false, None)
  }

  function Called(e: State, budget: seq<Time>, call: HostCall, next: Phase): Outcome {
    Outcome(e, budget, Some(next), Some(call), false, None)
  }

  /** The reserveProbe region: a closed engine does not even ask the budget. */
  function Reserve(env: Env, e: State, budget: seq<Time>, next: Phase, now: Time): Outcome {
    var call := Call(now, env.cfg.maxProbesPerHour);
    if e.closed then Move(e, budget, Done("budget_exhausted"))
    else if Grants(budget, call) then Outcome(e, Charge(budget, call), Some(next), None, true, None)
    else Move(e, Charge(budget, call), Done("budget_exhausted"))
  }

  function AcquisitionRequest(k: Key, a: Attempt): ProbeRequest {
    ProbeRequest(k.authID, k.model, Some(a.proxy), "", a.id.scope)
  }

  function FormalRequest(k: Key, candidate: ProbeResult, fixed: Identity): ProbeRequest {
    ProbeRequest(k.authID, k.model, None, candidate.state, fixed.scope)
  }

  function DoChore(env: Env, e: State, k: Key, chore: Chore, now: Time): State
    requires e.pool.Valid()
  {
    match chore
    case Note(reason) => NoteFailure(e, k, reason)
    case Mark(index, ok) => MarkProxy(env.cfg, e, index, ok, now)
  }

  function Advance(env: Env, e: State, budget: seq<Time>, job: Job, phase: Phase, input: Input, now: Time): Outcome
    requires e.pool.Valid()
  {
    var k := job.key;
    var described := Described(input.described);
    var describe := DescribeCall(k.authID, described, now);
    match phase
    case Starting => Move(e, budget, if k in e.plans then Checking(e.plans[k], 0) else Done("cancelled"))
    case Checking(plan, number) =>
      Move(e, budget, if number >= env.cfg.maxAttempts then Done("attempts_exhausted")
                      else if Active(e, job) then Describing(plan, number) else Done("cancelled"))
    case Describing(plan, number) =>
      if e.closed && input.cancelled then Move(e, budget, Done("cancelled"))
      else Called(e, budget, describe, AfterDescribe(env, plan, number, described))
    case Choosing(plan, number, id) =>
      var (chosen, index) := ChooseProxy(e, k, now);
      Move(chosen, budget, if index >= 0 then Capturing(plan, number, id, index, e.pool.nodes[index].url)
                           else Settling([Note("all_proxies_cooldown")], Done("proxy_pool_cooldown")))
    case Capturing(plan, number, id, index, proxy) =>
      Move(e, budget, Reserving(Attempt(plan, number, id, index, proxy, now)))
    case Reserving(a) => Reserve(env, e, budget, Acquiring(a), now)
    case Acquiring(a) =>
      Called(e, budget, ProbeCall(AcquisitionRequest(k, a), input.probed, now),
             AfterAcquisition(env, k.model, a, input.probed, e.closed))
    case Redescribing(a, candidate) => Called(e, budget, describe, AfterRedescribe(a, candidate, described))
    case ReservingFormal(a, candidate, fixed) => Reserve(env, e, budget, Verifying(a, candidate, fixed), now)
    case Verifying(a, candidate, fixed) =>
      Called(e, budget, ProbeCall(FormalRequest(k, candidate, fixed), input.probed, now),
             AfterVerification(env, k.model, a, candidate, fixed, input.probed))
    case Confirming(a, candidate, fixed) => Called(e, budget, describe, AfterConfirm(a, candidate, fixed, described))
    case Publishing(a, candidate, current) =>
      if CanPublish(env.cfg, e, job, a.plan, a.captured, now) then
        Outcome(Publish(env.cfg, e, job, candidate.state, current.scope, a.captured), budget, Some(Done("ready")), None,
                false, Some(NewTicket(env.cfg, e, candidate.state, current.scope, a.captured)))
      else Move(e, budget, Done("cancelled"))
    case Settling(chores, next) =>
      if chores == [] then Move(e, budget, next)
      else Move(DoChore(env, e, k, chores[0], now), budget, Settling(chores[1..], next))
    case Done(reason) => Outcome(Epilogue(env.cfg, e, job, reason, now), budget, None, None, false, None)
  }

  // ---- The system --------------------------------------------------------

  /** `trace` lists the Host calls that this run of collect has made. */
  datatype Worker = Idle | Busy(job: Job, phase: Phase, trace: seq<HostCall>)

  /** A publication, with the run that led to it. */
  datatype Publication = Publication(job: Job, plan: string, captured: Time, ticket: Ticket, at: Time,
                                     trace: seq<HostCall>)

  /** The last four fields record history; no step depends on them. */
  datatype System = System(
    engine: State,
    budget: seq<Time>,
    workers: seq<Worker>,
    clock: Time,
    published: seq<Publication>,
    handed: map<string, Ticket>,
    grants: seq<Call>,
    probes: nat)

  datatype Event =
    | Take(w: nat)
    | Work(w: nat, input: Input)
    | Scheduler(order: seq<Key>)
    | Discovery(accounts: seq<Account>, after: State)
    | BindRequest(id: string, key: Key, reply: Option<Identity>, callerState: bool)
    | ResponseHeaders(id: string, headers: Headers)
    | ResponseChunk(id: string, bytes: Bytes)
    | ResponseJSON(id: string, bytes: Bytes)
    | RequestComplete(id: string)
    | Shutdown

  ghost predicate Enabled(env: Env, s: System, ev: Event, now: Time) {
    && s.clock <= now
    && match ev
       case Take(w) => w < |s.workers| && s.workers[w].Idle? && s.engine.queue != []
       case Work(w, _) => w < |s.workers| && s.workers[w].Busy? && s.engine.pool.Valid()
       case Scheduler(order) => Visits(order, s.engine.records.Keys)
       case Discovery(accounts, after) => env.cfg.AutoAccounts() && Snapshot(env.cfg, s.engine, accounts, after)
       case BindRequest(id, _, _, _) => id != ""
       case _ => true
  }

  function TakeJob(s: System, w: nat): System
    requires w < |s.workers| && s.engine.queue != []
  {
    s.(engine := s.engine.(queue := s.engine.queue[1..]),
       workers := s.workers[w := Busy(s.engine.queue[0], Starting, [])])
  }

  function AppendCall(trace: seq<HostCall>, call: Option<HostCall>): seq<HostCall> {
    if call.Some? then trace + [call.value] else trace
  }

  function DoWork(env: Env, s: System, w: nat, input: Input, now: Time): System
    requires w < |s.workers| && s.workers[w].Busy? && s.engine.pool.Valid()
  {
    var me := s.workers[w];
    var out := Advance(env, s.engine, s.budget, me.job, me.phase, input, now);
    s.(engine := out.engine,
       budget := out.budget,
       workers := s.workers[w := if out.next.Some? then Busy(me.job, out.next.value, AppendCall(me.trace, out.call))
                                 else Idle],
       grants := if out.granted then s.grants + [Call(now, env.cfg.maxProbesPerHour)] else s.grants,
       probes := if out.call.Some? && out.call.value.ProbeCall? then s.probes + 1 else s.probes,
       published := if out.published.Some? && me.phase.Publishing?
                    then s.published + [Publication(me.job, me.phase.a.plan, me.phase.a.captured,
                                                    out.published.value, now, me.trace)]
                    else s.published)
  }

  function DoBind(env: Env, s: System, id: string, k: Key, reply: Option<Identity>, callerState: bool,
                  now: Time): System {
    var (e, hit) := Bind(env.cfg, s.engine, id, k, reply, callerState, now);
    s.(engine := e, handed := if hit.Some? then s.handed[id := hit.value] else s.handed)
  }

  function Next(env: Env, s: System, ev: Event, now: Time): System
    requires Enabled(env, s, ev, now)
  {
    var t := s.(clock := now);
    match ev
    case Take(w) => TakeJob(t, w)
    case Work(w, input) => DoWork(env, t, w, input, now)
    case Scheduler(order) => t.(engine := Schedule(env.cfg, s.engine, order, now))
    case Discovery(_, after) => t.(engine := after)
    case BindRequest(id, k, reply, callerState) => DoBind(env, t, id, k, Described(reply), callerState, now)
    case ResponseHeaders(id, h) => t.(engine := OnHeaders(s.engine, id, h, now))
    case ResponseChunk(id, bytes) => t.(engine := OnChunk(s.engine, id, bytes, env.decode, now))
    case ResponseJSON(id, bytes) => t.(engine := OnJSON(s.engine, id, bytes, env.decode, now))
    case RequestComplete(id) => t.(engine := OnComplete(s.engine, id, env.decode, now))
    case Shutdown => t.(engine := Close(s.engine))
  }

  /** A started engine: idle workers, and a budget that earlier engines may have
      used already. */
  ghost predicate Init(env: Env, s: System) {
    && env.cfg.Valid() && env.proxies != []
    && s.engine == Initial(env.cfg, env.proxies)
    && (forall w <- s.workers :: w.Idle?)
    && s.published == [] && s.handed == map[]
    && Represents(s.budget, s.grants, s.clock) && WithinLimits(s.grants)
    && s.probes == |s.grants|
  }

  datatype Occurrence = Occurrence(event: Event, now: Time)

  /** The event is possible, and leads there. */
  ghost predicate Occurs(env: Env, s: System, o: Occurrence, s': System) {
    Enabled(env, s, o.event, o.now) && s' == Next(env, s, o.event, o.now)
  }

  /** A run of the system: states[i] is the state before occurrences[i]. */
  ghost predicate IsRun(env: Env, states: seq<System>, occurrences: seq<Occurrence>) {
    && |states| == |occurrences| + 1
    && Init(env, states[0])
    && forall i | 0 <= i < |occurrences| :: Occurs(env, states[i], occurrences[i], states[i + 1])
  }
}
