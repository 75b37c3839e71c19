/** Verified and passive turn states, over joint runs of the engine and the cache
    (internal/turnstate/interceptor.go, InterceptRequestAfterAuth). */
module Exclusivity {
  import opened Base
  import opened PrewarmConfig
  import opened EngineState
  import opened EngineInvariants
  import opened Protocol
  import opened Evidence
  import opened Invariants
  import opened Runs
  import opened Theorems
  import opened Guarantees
  import opened Interceptor
  import opened Handling
  import opened Hits
  import C = PassiveCache
  import CacheLog

  // ---- When a key becomes managed ----------------------------------------

  /** The snapshot selects the key, or overflows the ownership set. */
  predicate TakesOver(cfg: Config, e: State, accounts: seq<Account>, k: Key) {
    k in SelectedKeys(cfg, accounts) || |e.owned + SelectedKeys(cfg, accounts)| > OWNERSHIP_LIMIT
  }

  /** An open engine applies a snapshot that takes the key over. */
  ghost predicate Takeover(env: Env, s: System, o: Occurrence, k: Key) {
    && o.event.Discovery? && ValidSnapshot(o.event.accounts) && !s.engine.closed
    && k.model in env.cfg.models && TakesOver(env.cfg, s.engine, o.event.accounts, k)
  }

  lemma TakenOverBySnapshot(cfg: Config, e: State, accounts: seq<Account>, e': State, k: Key)
    requires cfg.AutoAccounts() && Snapshot(cfg, e, accounts, e')
    requires !Manages(cfg, e, k) && Manages(cfg, e', k)
    ensures !e.closed && ValidSnapshot(accounts) && k.model in cfg.models && TakesOver(cfg, e, accounts, k)
  {
    if k in e'.plans {
      assert k in Desired(cfg, accounts);
    }
  }

  /** Only a takeover makes a key managed. */
  lemma ManagedByTakeover(env: Env, s: System, o: Occurrence, s': System, k: Key)
    requires WellFormed(env.cfg, s.engine) && Occurs(env, s, o, s')
    requires !Manages(env.cfg, s.engine, k) && Manages(env.cfg, s'.engine, k)
    ensures Takeover(env, s, o, k)
  {
    if o.event.Discovery? {
      TakenOverBySnapshot(env.cfg, s.engine, o.event.accounts, o.event.after, k);
    } else {
      ManagementMovesByDiscovery(env, s, o.event, o.now);
    }
  }

  lemma SnapshotTakesOver(cfg: Config, e: State, accounts: seq<Account>, e': State, k: Key)
    requires cfg.AutoAccounts() && Snapshot(cfg, e, accounts, e') && ValidSnapshot(accounts) && !e.closed
    requires k.model in cfg.models && TakesOver(cfg, e, accounts, k)
    ensures Claimed(cfg, e', k)
  {
  }

  /** And a takeover always does, for good. */
  lemma TakeoverClaims(env: Env, s: System, o: Occurrence, s': System, k: Key)
    requires Occurs(env, s, o, s') && Takeover(env, s, o, k)
    ensures Claimed(env.cfg, s'.engine, k) && env.cfg.AutoAccounts()
  {
    SnapshotTakesOver(env.cfg, s.engine, o.event.accounts, o.event.after, k);
  }

  /** The key is managed after the step only if it was before, or is taken over. */
  ghost predicate ManagedFrom(env: Env, s: System, o: Occurrence, s': System, k: Key) {
    Manages(env.cfg, s'.engine, k) ==> Manages(env.cfg, s.engine, k) || Takeover(env, s, o, k)
  }

  lemma ManagedAt(env: Env, states: seq<System>, occurrences: seq<Occurrence>, p: nat, k: Key)
    requires IsRun(env, states, occurrences) && p < |occurrences|
    ensures ManagedFrom(env, states[p], occurrences[p], states[p + 1], k)
  {
    RunWellFormed(env, states, occurrences, p);
    RunStep(env, states, occurrences, p);
    if Manages(env.cfg, states[p + 1].engine, k) && !Manages(env.cfg, states[p].engine, k) {
      ManagedByTakeover(env, states[p], occurrences[p], states[p + 1], k);
    }
  }

  lemma {:induction false} TakenOverBetween(env: Env, states: seq<System>, occurrences: seq<Occurrence>, i: nat,
                                            l: nat, k: Key)
    requires |states| == |occurrences| + 1 && i <= l < |states|
    requires forall p | 0 <= p < |occurrences| :: ManagedFrom(env, states[p], occurrences[p], states[p + 1], k)
    requires !Manages(env.cfg, states[i].engine, k) && Manages(env.cfg, states[l].engine, k)
    ensures exists p | i <= p < l :: Takeover(env, states[p], occurrences[p], k)
    decreases l
  {
    assert ManagedFrom(env, states[l - 1], occurrences[l - 1], states[l], k);
    if Manages(env.cfg, states[l - 1].engine, k) {
      TakenOverBetween(env, states, occurrences, i, l - 1, k);
    }
  }

  lemma TakeoverLasts(env: Env, states: seq<System>, occurrences: seq<Occurrence>, p: nat, l: nat, k: Key)
    requires IsRun(env, states, occurrences) && p < l < |states| && Takeover(env, states[p], occurrences[p], k)
    ensures Manages(env.cfg, states[l].engine, k)
  {
    RunStep(env, states, occurrences, p);
    TakeoverClaims(env, states[p], occurrences[p], states[p + 1], k);
    forall q | p + 1 <= q < l && Claimed(env.cfg, states[q].engine, k)
      ensures Claimed(env.cfg, states[q + 1].engine, k)
    {
      ClaimAt(env, states, occurrences, q, k);
    }
    ClaimsPersist(env.cfg, states, p + 1, l, k);
  }

  /** A key that is not managed becomes managed exactly by a takeover. */
  lemma ManagedIffTakenOver(env: Env, states: seq<System>, occurrences: seq<Occurrence>, i: nat, l: nat, k: Key)
    requires IsRun(env, states, occurrences) && i <= l < |states| && !Manages(env.cfg, states[i].engine, k)
    ensures Manages(env.cfg, states[l].engine, k)
       <==> exists p | i <= p < l :: Takeover(env, states[p], occurrences[p], k)
  {
    if Manages(env.cfg, states[l].engine, k) {
      forall p | 0 <= p < |occurrences|
        ensures ManagedFrom(env, states[p], occurrences[p], states[p + 1], k)
      {
        ManagedAt(env, states, occurrences, p, k);
      }
      TakenOverBetween(env, states, occurrences, i, l, k);
    }
    if exists p | i <= p < l :: Takeover(env, states[p], occurrences[p], k) {
      var p :| i <= p < l && Takeover(env, states[p], occurrences[p], k);
      TakeoverLasts(env, states, occurrences, p, l, k);
    }
  }

  /** With explicit accounts there are no snapshots, and so no takeovers. */
  lemma NoTakeoverOfExplicit(env: Env, s: System, o: Occurrence, s': System, k: Key)
    requires Occurs(env, s, o, s') && !env.cfg.AutoAccounts()
    ensures !Takeover(env, s, o, k)
  {
  }

  // ---- What a request is sent with ---------------------------------------

  /** The step of the joint run takes the key over. */
  ghost predicate TakenOverAt(env: Env, s: Joint, l: Label, k: Key) {
    Possible(s, l) && Takeover(env, s.system, EngineSide(s, l), k)
  }

  lemma ManagedIffTakenOverJointly(env: Env, limits: C.Limits, states: seq<Joint>, labels: seq<Label>, i: nat, l: nat,
                                   k: Key)
    requires IsJointRun(env, limits, states, labels) && i <= l < |states|
    requires !Manages(env.cfg, states[i].system.engine, k)
    ensures Manages(env.cfg, states[l].system.engine, k)
         <==> exists p | i <= p < l :: TakenOverAt(env, states[p], labels[p], k)
  {
    EngineRuns(env, limits, states, labels);
    var systems, occurrences := Systems(states), Occurrences(states, labels);
    ManagedIffTakenOver(env, systems, occurrences, i, l, k);
    forall p | i <= p < l
      ensures TakenOverAt(env, states[p], labels[p], k) <==> Takeover(env, systems[p], occurrences[p], k)
    {
    }
  }

  /** What a request gets that was checked at step i and answers at step l. */
  lemma AnswerByCheck(env: Env, limits: C.Limits, states: seq<Joint>, labels: seq<Label>, i: nat, l: nat, h: nat)
    requires IsJointRun(env, limits, states, labels) && i < l < |labels|
    requires TurnAt(states[i], labels[i], h, CheckingKey) && Answers(states[l], labels[l], h, states[l + 1])
    ensures var k := states[i].handlers[h].request.key;
            var answer := states[l + 1].handlers[h].stage.answer;
            if Manages(env.cfg, states[i].system.engine, k) then !answer.Passive?
            else answer == Chosen(false, None, C.LookedUp(states[l].cache, k, labels[l].now).1)
  {
    CheckDecides(env, limits, states, labels, i, l, h);
    assert JointStep(env, limits, states[l], labels[l], states[l + 1]);
    if Manages(env.cfg, states[i].system.engine, states[i].handlers[h].request.key) {
      StaysOnWay(env, limits, states[l], labels[l], states[l + 1], h);
    } else {
      PassiveAnswer(env, limits, states[l], labels[l], states[l + 1], h);
    }
  }

  predicate KeyManaged(env: Env, s: Joint, h: nat)
    requires h in s.handlers
  {
    Manages(env.cfg, s.system.engine, s.handlers[h].request.key)
  }

  /** The handler answers with a passive entry although its key is managed. */
  predicate PassiveWhileManaged(env: Env, s: Joint, s': Joint, h: nat) {
    && h in s.handlers && h in s'.handlers && s'.handlers[h].stage.Answered?
    && s'.handlers[h].stage.answer.Passive? && KeyManaged(env, s, h)
  }

  /** The exclusivity of verified tickets. A request whose key is managed when it
      is answered gets a passive entry exactly when the key was not managed when it
      was checked, a snapshot was applied in between that takes the key over, and
      the lookup hits. */
  lemma PassiveWhileManagedIff(env: Env, limits: C.Limits, states: seq<Joint>, labels: seq<Label>, i: nat, l: nat,
                               h: nat)
    requires IsJointRun(env, limits, states, labels) && i < l < |labels|
    requires TurnAt(states[i], labels[i], h, CheckingKey) && Answers(states[l], labels[l], h, states[l + 1])
    ensures PassiveWhileManaged(env, states[l], states[l + 1], h)
       <==> && !KeyManaged(env, states[i], h)
            && (exists p | i <= p < l :: TakenOverAt(env, states[p], labels[p], states[i].handlers[h].request.key))
            && C.LookedUp(states[l].cache, states[i].handlers[h].request.key, labels[l].now).1.Some?
  {
    var k := states[i].handlers[h].request.key;
    AnswerByCheck(env, limits, states, labels, i, l, h);
    CheckDecides(env, limits, states, labels, i, l, h);
    if !Manages(env.cfg, states[i].system.engine, k) {
      ManagedIffTakenOverJointly(env, limits, states, labels, i, l, k);
    }
  }

  /** With explicit accounts it never happens. */
  lemma ExplicitIsVerified(env: Env, limits: C.Limits, states: seq<Joint>, labels: seq<Label>, i: nat, l: nat, h: nat)
    requires IsJointRun(env, limits, states, labels) && i < l < |labels| && !env.cfg.AutoAccounts()
    requires TurnAt(states[i], labels[i], h, CheckingKey) && Answers(states[l], labels[l], h, states[l + 1])
    requires Manages(env.cfg, states[l].system.engine, states[i].handlers[h].request.key)
    ensures !states[l + 1].handlers[h].stage.answer.Passive?
  {
    var k := states[i].handlers[h].request.key;
    CheckDecides(env, limits, states, labels, i, l, h);
    PassiveWhileManagedIff(env, limits, states, labels, i, l, h);
    forall p | i <= p < l
      ensures !TakenOverAt(env, states[p], labels[p], k)
    {
      assert JointStep(env, limits, states[p], labels[p], states[p + 1]);
      NoTakeoverOfExplicit(env, states[p].system, EngineSide(states[p], labels[p]), states[p + 1].system, k);
    }
    assert !PassiveWhileManaged(env, states[l], states[l + 1], h);
  }

  /** Nor does it for a request that is checked after a snapshot selected its key. */
  lemma OwnedIsNeverPassive(env: Env, limits: C.Limits, states: seq<Joint>, labels: seq<Label>, d: nat, i: nat,
                            l: nat, h: nat)
    requires IsJointRun(env, limits, states, labels) && d < i < l < |labels|
    requires TurnAt(states[i], labels[i], h, CheckingKey) && Answers(states[l], labels[l], h, states[l + 1])
    requires TakenOverAt(env, states[d], labels[d], states[i].handlers[h].request.key)
    ensures !states[l + 1].handlers[h].stage.answer.Passive?
  {
    EngineRuns(env, limits, states, labels);
    TakeoverLasts(env, Systems(states), Occurrences(states, labels), d, i, states[i].handlers[h].request.key);
    AnswerByCheck(env, limits, states, labels, i, l, h);
  }

  /** A hit of the locked section of Bind, in whatever reachable state it is
      entered, is an unexpired ticket of the key that was published with a
      certificate, for a request without a state of its own. */
  lemma HitIsCertified(env: Env, states: seq<System>, occurrences: seq<Occurrence>, j: nat, id: string, k: Key,
                       reply: Option<Identity>, callerState: bool, now: Time)
    requires IsRun(env, states, occurrences) && j < |states|
    requires Bind(env.cfg, states[j].engine, id, k, reply, callerState, now).1.Some?
    ensures var t := Bind(env.cfg, states[j].engine, id, k, reply, callerState, now).1.value;
            && !states[j].engine.closed && !callerState && now < t.expires
            && k in states[j].engine.plans && ValidState(t.state, states[j].engine.plans[k])
            && Vouched(env, states[j].published, k, t)
  {
    RunInv(env, states, occurrences, j);
    HitsAreLive(env.cfg, states[j].engine, id, k, reply, callerState, now);
    HeldIsVouched(env, states[j].engine, states[j].published, k);
  }

  /** What a request is sent with as verified is such a ticket. */
  lemma InjectedIsCertified(env: Env, limits: C.Limits, states: seq<Joint>, labels: seq<Label>, l: nat, h: nat)
    requires IsJointRun(env, limits, states, labels) && l < |labels| && Answers(states[l], labels[l], h, states[l + 1])
    requires states[l + 1].handlers[h].stage.answer.Verified?
    ensures var s, t := states[l].system, states[l + 1].handlers[h].stage.answer.ticket;
            var r := states[l].handlers[h].request;
            && !s.engine.closed && !HasState(r.headers) && labels[l].now < t.expires
            && r.key in s.engine.plans && ValidState(t.state, s.engine.plans[r.key])
            && Vouched(env, s.published, r.key, t)
  {
    assert JointStep(env, limits, states[l], labels[l], states[l + 1]);
    VerifiedAnswer(env, limits, states[l], labels[l], states[l + 1], h);
    EngineRuns(env, limits, states, labels);
    var r := states[l].handlers[h].request;
    HitIsCertified(env, Systems(states), Occurrences(states, labels), l, r.id, r.key,
                   Described(states[l].handlers[h].stage.reply), HasState(r.headers), labels[l].now);
  }

  /** And conversely: a request that reaches the locked section of Bind is sent with
      a ticket exactly when its key holds it and it may be used. */
  lemma InjectedIff(env: Env, limits: C.Limits, states: seq<Joint>, labels: seq<Label>, l: nat, h: nat, t: Ticket)
    requires IsJointRun(env, limits, states, labels) && l < |labels| && Answers(states[l], labels[l], h, states[l + 1])
    requires states[l].handlers[h].stage.Binding?
    ensures var e, r := states[l].system.engine, states[l].handlers[h].request;
            states[l + 1].handlers[h].stage.answer == Verified(t)
            <==> && CanServe(env.cfg, e, r.key, t, Described(states[l].handlers[h].stage.reply), labels[l].now)
                 && !HasState(r.headers) && |e.requests| < env.cfg.maxPending
  {
    var r := states[l].handlers[h].request;
    assert JointStep(env, limits, states[l], labels[l], states[l + 1]);
    BindingAnswers(env, limits, states[l], labels[l], states[l + 1], h);
    JointWellFormed(env, limits, states, labels, l);
    HitIff(env.cfg, states[l].system.engine, r.id, r.key, Described(states[l].handlers[h].stage.reply),
           HasState(r.headers), labels[l].now, t);
  }

  lemma JointWellFormed(env: Env, limits: C.Limits, states: seq<Joint>, labels: seq<Label>, l: nat)
    requires IsJointRun(env, limits, states, labels) && l < |states|
    ensures WellFormed(env.cfg, states[l].system.engine)
  {
    EngineRuns(env, limits, states, labels);
    RunWellFormed(env, Systems(states), Occurrences(states, labels), l);
  }

  /** What a request is sent with as passive is the value of the last capture for
      its key in this run, and that is under an hour old. */
  lemma PassiveIsCaptured(env: Env, limits: C.Limits, states: seq<Joint>, labels: seq<Label>, i: nat, l: nat, h: nat)
    requires IsJointRun(env, limits, states, labels) && i < l < |labels|
    requires TurnAt(states[i], labels[i], h, CheckingKey) && Answers(states[l], labels[l], h, states[l + 1])
    requires states[l + 1].handlers[h].stage.answer.Passive?
    ensures Matched(states[..l + 1], labels[..l])
    ensures var log := CacheLog.Log(limits, Caches(states[..l + 1]), Moments(states[..l + 1], labels[..l]));
            var n := CacheLog.Latest(log, states[i].handlers[h].request.key);
            && n >= 0 && labels[l].now < log[n].at + C.STATE_TTL
            && states[l + 1].handlers[h].stage.answer.state == log[n].value
  {
    AnswerByCheck(env, limits, states, labels, i, l, h);
    RunPrefix(env, limits, states, labels, l);
    CacheRuns(env, limits, states[..l + 1], labels[..l]);
    CacheLog.HitIsLatestAndFresh(limits, Caches(states[..l + 1]), Moments(states[..l + 1], labels[..l]),
                                 states[i].handlers[h].request.key, labels[l].now);
  }
}
