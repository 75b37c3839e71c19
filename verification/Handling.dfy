/** Requests in flight over the engine and the cache together
    (internal/turnstate/interceptor.go, InterceptRequestAfterAuth). A request is
    handled region by region: the check of its key, then either the steps that
    lead to Bind or the two regions of the cache. Other requests, responses,
    discovery and the workers take their steps in between. */
module Handling {
  import opened Base
  import opened PrewarmConfig
  import opened EngineState
  import opened Protocol
  import opened Interceptor
  import C = PassiveCache
  import CacheLog

  /** What a request does next. Its first step drops it or checks its key. */
  datatype Stage =
    | Dropping
    | CheckingKey
    | Forgetting
    | Rechecking
    | Planning
    | AskingHost
    | Binding(reply: Option<Identity>)
    | Remembering
    | LookingUp
    | Answered(answer: Injection)

  datatype Handler = Handler(request: Request, stage: Stage)

  /** Handlers are numbered by arrival; a request ID may come more than once. */
  datatype Joint = Joint(system: System, cache: C.State, handlers: map<nat, Handler>)

  datatype Label =
    | OfEngine(o: Occurrence)
    | OfCache(m: CacheLog.Moment)
    | Arrival(h: nat, request: Request, now: Time)
    | Turn(h: nat, reply: Option<Identity>, now: Time)

  /** Only handlers bind and look up. */
  predicate Possible(s: Joint, l: Label) {
    match l
    case OfEngine(o) => !o.event.BindRequest?
    case OfCache(m) => !m.op.Bind? && !m.op.Lookup?
    case Arrival(h, _, _) => h !in s.handlers
    case Turn(h, _, _) => h in s.handlers && !s.handlers[h].stage.Answered?
  }

  /** A response without headers, which changes nothing. */
  function Silence(now: Time): Occurrence {
    Occurrence(ResponseHeaders("", map[]), now)
  }

  /** What the step means to the engine. */
  ghost function EngineSide(s: Joint, l: Label): Occurrence
    requires Possible(s, l)
  {
    match l
    case OfEngine(o) => o
    case OfCache(m) => Silence(m.now)
    case Arrival(_, _, now) => Silence(now)
    case Turn(h, _, now) =>
      var r, stage := s.handlers[h].request, s.handlers[h].stage;
      if stage.Binding? then Occurrence(BindRequest(r.id, r.key, stage.reply, HasState(r.headers)), now)
      else Silence(now)
  }

  /** What the step means to the cache; forgetting no request changes nothing. */
  function CacheSide(s: Joint, l: Label): CacheLog.Moment
    requires Possible(s, l)
  {
    match l
    case OfEngine(o) => CacheLog.Moment(CacheLog.Forget(""), o.now)
    case OfCache(m) => m
    case Arrival(_, _, now) => CacheLog.Moment(CacheLog.Forget(""), now)
    case Turn(h, _, now) =>
      var r := s.handlers[h].request;
      CacheLog.Moment(match s.handlers[h].stage
                      case Dropping => CacheLog.Forget(r.id)
                      case Forgetting => CacheLog.Forget(r.id)
                      case Remembering => CacheLog.Bind(r.id, r.key)
                      case LookingUp => CacheLog.Lookup(r.key)
                      case _ => CacheLog.Forget(""), now)
  }

  function FirstStage(r: Request): Stage {
    if !Routed(r) then Answered(Nothing) else if !Complete(r) then Dropping else CheckingKey
  }

  ghost function NextStage(cfg: Config, s: Joint, r: Request, stage: Stage, reply: Option<Identity>, now: Time): Stage {
    var e := s.system.engine;
    match stage
    case Dropping => Answered(Nothing)
    case CheckingKey => if Manages(cfg, e, r.key) then Forgetting else Remembering
    case Forgetting => Rechecking
    case Rechecking => if Manages(cfg, e, r.key) then Planning else Answered(Nothing)
    case Planning => if r.key in e.plans then AskingHost else Answered(Nothing)
    case AskingHost => Binding(reply)
    case Binding(answer) =>
      Answered(Chosen(true, Bind(cfg, e, r.id, r.key, Described(answer), HasState(r.headers), now).1, None))
    case Remembering => LookingUp
    case LookingUp => Answered(Chosen(false, None, C.LookedUp(s.cache, r.key, now).1))
    case Answered(_) => stage
  }

  ghost function HandlersAfter(cfg: Config, s: Joint, l: Label): map<nat, Handler>
    requires Possible(s, l)
  {
    match l
    case Arrival(h, r, _) => s.handlers[h := Handler(r, FirstStage(r))]
    case Turn(h, reply, now) =>
      var r := s.handlers[h].request;
      s.handlers[h := Handler(r, NextStage(cfg, s, r, s.handlers[h].stage, reply, now))]
    case _ => s.handlers
  }

  ghost predicate JointStep(env: Env, limits: C.Limits, s: Joint, l: Label, s': Joint) {
    && Possible(s, l)
    && Occurs(env, s.system, EngineSide(s, l), s'.system)
    && CacheLog.Step(limits, s.cache, CacheSide(s, l), s'.cache)
    && s'.handlers == HandlersAfter(env.cfg, s, l)
  }

  ghost predicate JointInit(env: Env, limits: C.Limits, s: Joint) {
    && Init(env, s.system)
    && s.cache == C.State(map[], map[]) && 1 <= limits.maxEntries && 1 <= limits.maxPending
    && s.handlers == map[]
  }

  ghost predicate IsJointRun(env: Env, limits: C.Limits, states: seq<Joint>, labels: seq<Label>) {
    && |states| == |labels| + 1
    && JointInit(env, limits, states[0])
    && forall i | 0 <= i < |labels| :: JointStep(env, limits, states[i], labels[i], states[i + 1])
  }

  // ---- The run of the engine and that of the cache -----------------------

  function Systems(states: seq<Joint>): (systems: seq<System>)
    ensures |systems| == |states| && forall i | 0 <= i < |states| :: systems[i] == states[i].system
  {
    seq(|states|, i requires 0 <= i < |states| => states[i].system)
  }

  function Caches(states: seq<Joint>): (caches: seq<C.State>)
    ensures |caches| == |states| && forall i | 0 <= i < |states| :: caches[i] == states[i].cache
  {
    seq(|states|, i requires 0 <= i < |states| => states[i].cache)
  }

  /** The states and the steps fit together in number, and each step is possible. */
  ghost predicate Matched(states: seq<Joint>, labels: seq<Label>) {
    |states| == |labels| + 1 && forall i | 0 <= i < |labels| :: Possible(states[i], labels[i])
  }

  ghost function Occurrences(states: seq<Joint>, labels: seq<Label>): (occurrences: seq<Occurrence>)
    requires Matched(states, labels)
    ensures |occurrences| == |labels|
    ensures forall i | 0 <= i < |labels| :: occurrences[i] == EngineSide(states[i], labels[i])
  {
    seq(|labels|, i requires 0 <= i < |labels| => EngineSide(states[i], labels[i]))
  }

  function Moments(states: seq<Joint>, labels: seq<Label>): (moments: seq<CacheLog.Moment>)
    requires Matched(states, labels)
    ensures |moments| == |labels|
    ensures forall i | 0 <= i < |labels| :: moments[i] == CacheSide(states[i], labels[i])
  {
    seq(|labels|, i requires 0 <= i < |labels| => CacheSide(states[i], labels[i]))
  }

  lemma RunIsMatched(env: Env, limits: C.Limits, states: seq<Joint>, labels: seq<Label>)
    requires IsJointRun(env, limits, states, labels)
    ensures Matched(states, labels)
  {
    forall i | 0 <= i < |labels|
      ensures Possible(states[i], labels[i])
    {
      assert JointStep(env, limits, states[i], labels[i], states[i + 1]);
    }
  }

  /** A joint run is a run of the engine, state by state. */
  lemma EngineRuns(env: Env, limits: C.Limits, states: seq<Joint>, labels: seq<Label>)
    requires IsJointRun(env, limits, states, labels)
    ensures Matched(states, labels) && IsRun(env, Systems(states), Occurrences(states, labels))
  {
    RunIsMatched(env, limits, states, labels);
    var systems, occurrences := Systems(states), Occurrences(states, labels);
    forall i | 0 <= i < |occurrences|
      ensures Occurs(env, systems[i], occurrences[i], systems[i + 1])
    {
      assert JointStep(env, limits, states[i], labels[i], states[i + 1]);
    }
    StepsMakeRun(env, systems, occurrences);
  }

  lemma StepsMakeRun(env: Env, systems: seq<System>, occurrences: seq<Occurrence>)
    requires |systems| == |occurrences| + 1 && Init(env, systems[0])
    requires forall i | 0 <= i < |occurrences| :: Occurs(env, systems[i], occurrences[i], systems[i + 1])
    ensures IsRun(env, systems, occurrences)
  {
  }

  /** And a run of the cache, on a clock that does not go backwards. */
  lemma CacheRuns(env: Env, limits: C.Limits, states: seq<Joint>, labels: seq<Label>)
    requires IsJointRun(env, limits, states, labels)
    ensures Matched(states, labels) && CacheLog.IsRun(limits, Caches(states), Moments(states, labels))
  {
    RunIsMatched(env, limits, states, labels);
    var caches, moments := Caches(states), Moments(states, labels);
    forall i | 0 <= i < |moments|
      ensures CacheLog.Step(limits, caches[i], moments[i], caches[i + 1])
    {
      assert JointStep(env, limits, states[i], labels[i], states[i + 1]);
    }
  }

  lemma RunPrefix(env: Env, limits: C.Limits, states: seq<Joint>, labels: seq<Label>, n: nat)
    requires IsJointRun(env, limits, states, labels) && n <= |labels|
    ensures IsJointRun(env, limits, states[..n + 1], labels[..n])
  {
    forall i | 0 <= i < n
      ensures JointStep(env, limits, states[..n + 1][i], labels[..n][i], states[..n + 1][i + 1])
    {
      assert JointStep(env, limits, states[i], labels[i], states[i + 1]);
    }
  }

  // ---- One request -------------------------------------------------------

  /** The request is on the way of a key that was managed when it was checked. */
  predicate OnManagedWay(stage: Stage) {
    || stage.Forgetting? || stage.Rechecking? || stage.Planning? || stage.AskingHost? || stage.Binding?
    || (stage.Answered? && !stage.answer.Passive?)
  }

  predicate OnPassiveWay(stage: Stage) {
    || stage.Remembering? || stage.LookingUp?
    || (stage.Answered? && !stage.answer.Verified?)
  }

  predicate Present(s: Joint, h: nat, r: Request) {
    h in s.handlers && s.handlers[h].request == r
  }

  /** It is the turn of the handler, which is at this stage. */
  predicate TurnAt(s: Joint, l: Label, h: nat, stage: Stage) {
    l.Turn? && l.h == h && h in s.handlers && s.handlers[h].stage == stage
  }

  /** The step in which the handler answers. */
  predicate Answers(s: Joint, l: Label, h: nat, s': Joint) {
    && l.Turn? && l.h == h && h in s.handlers && !s.handlers[h].stage.Answered?
    && h in s'.handlers && s'.handlers[h].stage.Answered?
  }

  lemma TurnOf(cfg: Config, s: Joint, l: Label, handlers: map<nat, Handler>, h: nat)
    requires Possible(s, l) && handlers == HandlersAfter(cfg, s, l) && h in s.handlers
    ensures h in handlers && handlers[h].request == s.handlers[h].request
    ensures handlers[h].stage == if l.Turn? && l.h == h
                                 then NextStage(cfg, s, s.handlers[h].request, s.handlers[h].stage, l.reply, l.now)
                                 else s.handlers[h].stage
  {
  }

  /** A request stays on its way. */
  lemma StaysOnWay(env: Env, limits: C.Limits, s: Joint, l: Label, s': Joint, h: nat)
    requires JointStep(env, limits, s, l, s') && h in s.handlers
    ensures Present(s', h, s.handlers[h].request)
    ensures OnManagedWay(s.handlers[h].stage) ==> OnManagedWay(s'.handlers[h].stage)
    ensures OnPassiveWay(s.handlers[h].stage) ==> OnPassiveWay(s'.handlers[h].stage)
  {
    TurnOf(env.cfg, s, l, s'.handlers, h);
  }

  /** The states of a joint run, one step after the other, as far as one handler
      is concerned. */
  ghost predicate OneAfterAnother(states: seq<Joint>, h: nat) {
    forall i | 0 <= i < |states| - 1 :: Keeps(states[i], states[i + 1], h)
  }

  ghost predicate Keeps(s: Joint, s': Joint, h: nat) {
    h in s.handlers ==>
      && Present(s', h, s.handlers[h].request)
      && (OnManagedWay(s.handlers[h].stage) ==> OnManagedWay(s'.handlers[h].stage))
      && (OnPassiveWay(s.handlers[h].stage) ==> OnPassiveWay(s'.handlers[h].stage))
  }

  lemma RunKeeps(env: Env, limits: C.Limits, states: seq<Joint>, labels: seq<Label>, h: nat)
    requires IsJointRun(env, limits, states, labels)
    ensures OneAfterAnother(states, h)
  {
    forall i | 0 <= i < |states| - 1
      ensures Keeps(states[i], states[i + 1], h)
    {
      assert JointStep(env, limits, states[i], labels[i], states[i + 1]);
      if h in states[i].handlers {
        StaysOnWay(env, limits, states[i], labels[i], states[i + 1], h);
      }
    }
  }

  lemma {:induction false} WaysLast(states: seq<Joint>, h: nat, i: nat, l: nat)
    requires OneAfterAnother(states, h) && i <= l < |states| && h in states[i].handlers
    ensures Present(states[l], h, states[i].handlers[h].request)
    ensures OnManagedWay(states[i].handlers[h].stage) ==> OnManagedWay(states[l].handlers[h].stage)
    ensures OnPassiveWay(states[i].handlers[h].stage) ==> OnPassiveWay(states[l].handlers[h].stage)
    decreases l
  {
    if i < l {
      WaysLast(states, h, i, l - 1);
      assert Keeps(states[l - 1], states[l], h);
    }
  }

  /** After its check at step i, a request is on the way that the check decided. */
  lemma CheckDecides(env: Env, limits: C.Limits, states: seq<Joint>, labels: seq<Label>, i: nat, l: nat, h: nat)
    requires IsJointRun(env, limits, states, labels) && i < l < |states| && TurnAt(states[i], labels[i], h, CheckingKey)
    ensures Present(states[l], h, states[i].handlers[h].request)
    ensures if Manages(env.cfg, states[i].system.engine, states[i].handlers[h].request.key)
            then OnManagedWay(states[l].handlers[h].stage)
            else OnPassiveWay(states[l].handlers[h].stage)
  {
    assert JointStep(env, limits, states[i], labels[i], states[i + 1]);
    TurnOf(env.cfg, states[i], labels[i], states[i + 1].handlers, h);
    RunKeeps(env, limits, states, labels, h);
    WaysLast(states, h, i + 1, l);
  }

  /** A request whose key was not managed is answered by its lookup. */
  lemma PassiveAnswer(env: Env, limits: C.Limits, s: Joint, l: Label, s': Joint, h: nat)
    requires JointStep(env, limits, s, l, s') && Answers(s, l, h, s') && OnPassiveWay(s.handlers[h].stage)
    ensures TurnAt(s, l, h, LookingUp)
    ensures s'.handlers[h].stage
               == Answered(Chosen(false, None, C.LookedUp(s.cache, s.handlers[h].request.key, l.now).1))
  {
    TurnOf(env.cfg, s, l, s'.handlers, h);
  }

  /** A verified answer comes from the locked section of Bind. */
  lemma VerifiedAnswer(env: Env, limits: C.Limits, s: Joint, l: Label, s': Joint, h: nat)
    requires JointStep(env, limits, s, l, s') && Answers(s, l, h, s') && s'.handlers[h].stage.answer.Verified?
    ensures var r, stage := s.handlers[h].request, s.handlers[h].stage;
            && stage.Binding?
            && Bind(env.cfg, s.system.engine, r.id, r.key, Described(stage.reply), HasState(r.headers), l.now).1
            == Some(s'.handlers[h].stage.answer.ticket)
  {
    TurnOf(env.cfg, s, l, s'.handlers, h);
  }

  /** A handler in the locked section of Bind answers with what that hands out. */
  lemma BindingAnswers(env: Env, limits: C.Limits, s: Joint, l: Label, s': Joint, h: nat)
    requires JointStep(env, limits, s, l, s') && Answers(s, l, h, s') && s.handlers[h].stage.Binding?
    ensures var r, stage := s.handlers[h].request, s.handlers[h].stage;
            s'.handlers[h].stage
            == Answered(Chosen(true, Bind(env.cfg, s.system.engine, r.id, r.key, Described(stage.reply),
                                          HasState(r.headers), l.now).1, None))
  {
    TurnOf(env.cfg, s, l, s'.handlers, h);
  }

  // ---- A request that nothing interferes with ----------------------------

  /** A turn that only concerns the cache or the handler leaves the engine alone. */
  lemma SilentEngine(env: Env, limits: C.Limits, s: Joint, l: Label, s': Joint)
    requires JointStep(env, limits, s, l, s') && l.Turn? && !s.handlers[l.h].stage.Binding?
    ensures s'.system.engine == s.system.engine
  {
  }

  /** What a turn does to the cache. */
  ghost predicate CacheTurn(limits: C.Limits, c: C.State, h: Handler, now: Time, c': C.State) {
    if h.stage.Dropping? || h.stage.Forgetting? then c' == C.Forgotten(c, h.request.id)
    else if h.stage.Remembering? then C.BoundTo(limits, c, c', h.request.id, h.request.key, now)
    else if h.stage.LookingUp? then c' == C.LookedUp(c, h.request.key, now).0
    else c' == c
  }

  lemma CacheOfTurn(env: Env, limits: C.Limits, s: Joint, l: Label, s': Joint)
    requires JointStep(env, limits, s, l, s') && l.Turn?
    ensures CacheTurn(limits, s.cache, s.handlers[l.h], l.now, s'.cache)
  {
  }

  /** The turns of one handler, back to back, at one clock reading. */
  ghost predicate Alone(env: Env, limits: C.Limits, states: seq<Joint>, h: nat, reply: Option<Identity>, now: Time) {
    forall i, j {:trigger JointStep(env, limits, states[i], Turn(h, reply, now), states[j])} |
      0 <= i < j < |states| && j == i + 1 ::
      JointStep(env, limits, states[i], Turn(h, reply, now), states[j])
  }

  lemma TurnAlone(env: Env, limits: C.Limits, states: seq<Joint>, h: nat, reply: Option<Identity>, now: Time, i: nat)
    requires Alone(env, limits, states, h, reply, now) && i < |states| - 1 && h in states[i].handlers
    requires !states[i].handlers[h].stage.Binding?
    ensures h in states[i + 1].handlers && states[i + 1].system.engine == states[i].system.engine
    ensures states[i + 1].handlers[h]
         == Handler(states[i].handlers[h].request,
                    NextStage(env.cfg, states[i], states[i].handlers[h].request,
                              states[i].handlers[h].stage, reply, now))
    ensures CacheTurn(limits, states[i].cache, states[i].handlers[h], now, states[i + 1].cache)
  {
    assert JointStep(env, limits, states[i], Turn(h, reply, now), states[i + 1]);
    SilentEngine(env, limits, states[i], Turn(h, reply, now), states[i + 1]);
    CacheOfTurn(env, limits, states[i], Turn(h, reply, now), states[i + 1]);
  }

  /** A request without an ID or with an incomplete key has the effect that the
      interceptor method has: its binding is dropped, and it gets nothing. */
  lemma DroppedAlone(env: Env, limits: C.Limits, s: Joint, h: nat, r: Request, reply: Option<Identity>, now: Time,
                     s': Joint)
    requires JointStep(env, limits, s, Turn(h, reply, now), s') && s.handlers[h] == Handler(r, FirstStage(r))
    requires Routed(r) && !Complete(r)
    ensures s'.system.engine == s.system.engine && h in s'.handlers && s'.handlers[h].stage == Answered(Nothing)
    ensures AfterAuth(limits, s.cache, s'.cache, r, false, None, now, Nothing)
  {
    SilentEngine(env, limits, s, Turn(h, reply, now), s');
    CacheOfTurn(env, limits, s, Turn(h, reply, now), s');
    TurnOf(env.cfg, s, Turn(h, reply, now), s'.handlers, h);
  }

  lemma PassedByTurns(limits: C.Limits, c: C.State, bound: C.State, c': C.State, r: Request, now: Time,
                      answer: Injection)
    requires Routed(r) && Complete(r) && C.BoundTo(limits, c, bound, r.id, r.key, now)
    requires c' == C.LookedUp(bound, r.key, now).0 && answer == Chosen(false, None, C.LookedUp(bound, r.key, now).1)
    ensures AfterAuth(limits, c, c', r, false, None, now, answer)
  {
    assert Passed(limits, c, c', r, C.LookedUp(bound, r.key, now).1, now);
  }

  lemma RememberAlone(env: Env, limits: C.Limits, states: seq<Joint>, h: nat, r: Request, reply: Option<Identity>,
                      now: Time)
    requires |states| == 4 && Alone(env, limits, states, h, reply, now)
    requires h in states[0].handlers && states[0].handlers[h] == Handler(r, CheckingKey)
    requires !Manages(env.cfg, states[0].system.engine, r.key)
    ensures h in states[2].handlers && states[2].handlers[h] == Handler(r, LookingUp)
    ensures C.BoundTo(limits, states[0].cache, states[2].cache, r.id, r.key, now)
  {
    TurnAlone(env, limits, states, h, reply, now, 0);
    TurnAlone(env, limits, states, h, reply, now, 1);
  }

  lemma LookUpAlone(env: Env, limits: C.Limits, states: seq<Joint>, h: nat, r: Request, reply: Option<Identity>,
                    now: Time)
    requires |states| == 4 && Alone(env, limits, states, h, reply, now)
    requires h in states[2].handlers && states[2].handlers[h] == Handler(r, LookingUp)
    ensures h in states[3].handlers && states[3].handlers[h].stage
                                    == Answered(Chosen(false, None, C.LookedUp(states[2].cache, r.key, now).1))
    ensures states[3].cache == C.LookedUp(states[2].cache, r.key, now).0
  {
    TurnAlone(env, limits, states, h, reply, now, 2);
  }

  /** Alone, a request whose key is not managed has the effect that the interceptor
      method has on the cache, and the same answer. */
  lemma PassedAlone(env: Env, limits: C.Limits, states: seq<Joint>, h: nat, r: Request, reply: Option<Identity>,
                    now: Time)
    requires |states| == 4 && Alone(env, limits, states, h, reply, now)
    requires h in states[0].handlers && states[0].handlers[h] == Handler(r, CheckingKey) && Routed(r) && Complete(r)
    requires !Manages(env.cfg, states[0].system.engine, r.key)
    ensures h in states[3].handlers && states[3].handlers[h].stage.Answered?
    ensures AfterAuth(limits, states[0].cache, states[3].cache, r, false, None, now, states[3].handlers[h].stage.answer)
  {
    RememberAlone(env, limits, states, h, r, reply, now);
    LookUpAlone(env, limits, states, h, r, reply, now);
    PassedByTurns(limits, states[0].cache, states[2].cache, states[3].cache, r, now,
                  states[3].handlers[h].stage.answer);
  }

  /** Alone, a request of a managed key with a plan reaches the locked section of
      Bind with its passive binding forgotten and the engine as it was. */
  lemma BindReachedAlone(env: Env, limits: C.Limits, states: seq<Joint>, h: nat, r: Request, reply: Option<Identity>,
                         now: Time)
    requires |states| == 7 && Alone(env, limits, states, h, reply, now)
    requires h in states[0].handlers && states[0].handlers[h] == Handler(r, CheckingKey)
    requires Manages(env.cfg, states[0].system.engine, r.key) && r.key in states[0].system.engine.plans
    ensures h in states[5].handlers && states[5].handlers[h] == Handler(r, Binding(reply))
    ensures states[5].system.engine == states[0].system.engine && states[5].cache == C.Forgotten(states[0].cache, r.id)
  {
    TurnAlone(env, limits, states, h, reply, now, 0);
    TurnAlone(env, limits, states, h, reply, now, 1);
    TurnAlone(env, limits, states, h, reply, now, 2);
    TurnAlone(env, limits, states, h, reply, now, 3);
    TurnAlone(env, limits, states, h, reply, now, 4);
  }

  lemma BindEvent(env: Env, s: System, id: string, k: Key, answer: Option<Identity>, callerState: bool, now: Time,
                  s': System)
    requires Occurs(env, s, Occurrence(BindRequest(id, k, answer, callerState), now), s')
    ensures s'.engine == Bind(env.cfg, s.engine, id, k, Described(answer), callerState, now).0
  {
  }

  lemma BindTurn(env: Env, limits: C.Limits, s: Joint, h: nat, r: Request, answer: Option<Identity>,
                 reply: Option<Identity>, now: Time, s': Joint)
    requires JointStep(env, limits, s, Turn(h, reply, now), s') && s.handlers[h] == Handler(r, Binding(answer))
    ensures var bound := Bind(env.cfg, s.system.engine, r.id, r.key, Described(answer), HasState(r.headers), now);
            && s'.system.engine == bound.0 && s'.cache == s.cache && h in s'.handlers
            && s'.handlers[h].stage == Answered(Chosen(true, bound.1, None))
  {
    BindEvent(env, s.system, r.id, r.key, answer, HasState(r.headers), now, s'.system);
    CacheOfTurn(env, limits, s, Turn(h, reply, now), s');
    TurnOf(env.cfg, s, Turn(h, reply, now), s'.handlers, h);
  }

  /** And it gets what the whole of Bind hands out. */
  lemma BoundAlone(env: Env, limits: C.Limits, states: seq<Joint>, h: nat, r: Request, reply: Option<Identity>,
                   now: Time)
    requires |states| == 7 && Alone(env, limits, states, h, reply, now)
    requires h in states[0].handlers && states[0].handlers[h] == Handler(r, CheckingKey) && Routed(r) && Complete(r)
    requires Manages(env.cfg, states[0].system.engine, r.key) && r.key in states[0].system.engine.plans
    ensures h in states[6].handlers && states[6].handlers[h].stage.Answered?
    ensures var bound := BindWhole(env.cfg, states[0].system.engine, r.id, r.key, reply, HasState(r.headers), now);
            && states[6].system.engine == bound.0
            && AfterAuth(limits, states[0].cache, states[6].cache, r, true, bound.1, now,
                         states[6].handlers[h].stage.answer)
  {
    BindReachedAlone(env, limits, states, h, r, reply, now);
    assert JointStep(env, limits, states[5], Turn(h, reply, now), states[6]);
    BindTurn(env, limits, states[5], h, r, reply, reply, now, states[6]);
  }
}
