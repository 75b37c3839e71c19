/** Which keys are managed and what plans they have, from the configuration and the
    history of discovery snapshots alone (internal/prewarm/engine.go, Manages;
    internal/prewarm/discovery.go, applyAccounts). */
module Management {
  import opened Base
  import opened PrewarmConfig
  import opened EngineState
  import opened EngineInvariants
  import opened Protocol
  import opened Invariants
  import opened Preservation
  import opened Runs
  import opened Guarantees
  import opened Plans
  import Text

  // ---- One snapshot ------------------------------------------------------

  /** A selector names the account by ID, or by mail address up to case and the white
      space around it. */
  predicate SelectorNames(selector: Account, a: Account) {
    || (selector.authID != "" && selector.authID == a.authID)
    || (selector.email != "" && Text.EqualFold(selector.email, Text.TrimSpace(a.email)))
  }

  /** The snapshot has an account with this ID that is selected, and the model is
      configured. */
  ghost predicate SelectedIn(cfg: Config, accounts: seq<Account>, k: Key) {
    && k.model in cfg.models
    && exists a <- accounts ::
         a.authID == k.authID && (cfg.accounts == [] || exists selector <- cfg.accounts :: SelectorNames(selector, a))
  }

  lemma SelectedMeans(cfg: Config, accounts: seq<Account>, k: Key)
    ensures k in SelectedKeys(cfg, accounts) <==> SelectedIn(cfg, accounts, k)
  {
    forall a | a in accounts
      ensures cfg.Selected(a) <==> cfg.accounts == [] || exists selector <- cfg.accounts :: SelectorNames(selector, a)
    {
      forall selector | selector in cfg.accounts
        ensures cfg.Selects(selector, a) <==> SelectorNames(selector, a)
      {
      }
    }
    if SelectedIn(cfg, accounts, k) {
      var a :| a in accounts && a.authID == k.authID && cfg.Selected(a);
      assert Key(a.authID, k.model) in SelectedKeys(cfg, accounts);
    }
  }

  /** A snapshot is sound when it has at most a thousand accounts, all with different
      IDs of at most 1024 bytes without white space at either end, and with a known
      plan or none. */
  lemma SnapshotMeans(accounts: seq<Account>)
    ensures ValidSnapshot(accounts)
       <==> && |accounts| <= 1000
            && (forall i | 0 <= i < |accounts| ::
                  && Solid(accounts[i].authID) && |accounts[i].authID| <= 1024
                  && accounts[i].plan in {"", "pro", "team"})
            && forall i, j | 0 <= i < j < |accounts| :: accounts[i].authID != accounts[j].authID
  {
    forall i | 0 <= i < |accounts|
      ensures ValidAuthID(accounts[i].authID) <==> Solid(accounts[i].authID) && |accounts[i].authID| <= 1024
    {
      IDMeans(accounts[i].authID);
      assert accounts[i] in accounts;
    }
  }

  lemma IDMeans(id: string)
    ensures ValidAuthID(id) <==> Solid(id) && |id| <= 1024
  {
    var i, j := TrimSplits(id);
    if Solid(id) {
      TrimOf("", id, "");
      assert "" + id + "" == id;
    }
  }

  // ---- The history of snapshots ------------------------------------------

  /** The occurrence applies a snapshot. */
  ghost predicate AppliedAt(s: System, o: Occurrence) {
    o.event.Discovery? && ValidSnapshot(o.event.accounts) && !s.engine.closed
  }

  ghost predicate NoneApplied(states: seq<System>, occurrences: seq<Occurrence>, i: nat)
    requires i <= |occurrences| <= |states|
  {
    forall p | 0 <= p < i :: !AppliedAt(states[p], occurrences[p])
  }

  /** The keys that the snapshots applied so far selected. */
  ghost function SelectedSoFar(cfg: Config, states: seq<System>, occurrences: seq<Occurrence>, i: nat): set<Key>
    requires i <= |occurrences| <= |states|
  {
    if i == 0 then {}
    else
      SelectedSoFar(cfg, states, occurrences, i - 1)
      + if AppliedAt(states[i - 1], occurrences[i - 1]) then SelectedKeys(cfg, occurrences[i - 1].event.accounts)
        else {}
  }

  /** They are the keys that some applied snapshot selected. */
  lemma {:induction false} SelectedSoFarMeans(cfg: Config, states: seq<System>, occurrences: seq<Occurrence>, i: nat,
                                              k: Key)
    requires i <= |occurrences| <= |states|
    ensures k in SelectedSoFar(cfg, states, occurrences, i)
       <==> exists p | 0 <= p < i ::
              AppliedAt(states[p], occurrences[p]) && SelectedIn(cfg, occurrences[p].event.accounts, k)
  {
    if i > 0 {
      SelectedSoFarMeans(cfg, states, occurrences, i - 1, k);
      if AppliedAt(states[i - 1], occurrences[i - 1]) {
        SelectedMeans(cfg, occurrences[i - 1].event.accounts, k);
      }
    }
  }

  /** What the engine remembers of that history. */
  ghost predicate Remembers(cfg: Config, e: State, selected: set<Key>, none: bool) {
    && (e.discoveryCount < 0 <==> none)
    && (cfg.accounts != [] ==>
          && (e.ownsAllModels <==> |selected| > 16_000)
          && (!e.ownsAllModels ==> e.owned == selected))
  }

  lemma InitRemembers(env: Env, s: System)
    requires Init(env, s)
    ensures Remembers(env.cfg, s.engine, {}, true)
  {
  }

  lemma AppliedRemembers(cfg: Config, e: State, accounts: seq<Account>, e': State, selected: set<Key>, none: bool)
    requires Remembers(cfg, e, selected, none) && Applied(cfg, e, accounts, e')
    ensures Remembers(cfg, e', selected + SelectedKeys(cfg, accounts), false)
  {
    SubsetSize(selected, selected + SelectedKeys(cfg, accounts));
  }

  ghost predicate RemembersOn(cfg: Config, s: System, o: Occurrence, s': System, selected: set<Key>, none: bool) {
    if AppliedAt(s, o) then Remembers(cfg, s'.engine, selected + SelectedKeys(cfg, o.event.accounts), false)
    else Remembers(cfg, s'.engine, selected, none)
  }

  lemma StepRemembers(env: Env, s: System, o: Occurrence, s': System, selected: set<Key>, none: bool)
    requires WellFormed(env.cfg, s.engine) && Occurs(env, s, o, s') && Remembers(env.cfg, s.engine, selected, none)
    ensures RemembersOn(env.cfg, s, o, s', selected, none)
  {
    if AppliedAt(s, o) {
      AppliedRemembers(env.cfg, s.engine, o.event.accounts, o.event.after, selected, none);
    } else if !o.event.Discovery? {
      ManagementMovesByDiscovery(env, s, o.event, o.now);
    }
  }

  ghost predicate RemembersAt(cfg: Config, states: seq<System>, occurrences: seq<Occurrence>, i: nat)
    requires i <= |occurrences| && |states| == |occurrences| + 1
  {
    Remembers(cfg, states[i].engine, SelectedSoFar(cfg, states, occurrences, i), NoneApplied(states, occurrences, i))
  }

  lemma RemembersNext(env: Env, states: seq<System>, occurrences: seq<Occurrence>, i: nat)
    requires IsRun(env, states, occurrences) && i < |occurrences| && RemembersAt(env.cfg, states, occurrences, i)
    ensures RemembersAt(env.cfg, states, occurrences, i + 1)
  {
    RunWellFormed(env, states, occurrences, i);
    RunStep(env, states, occurrences, i);
    StepRemembers(env, states[i], occurrences[i], states[i + 1], SelectedSoFar(env.cfg, states, occurrences, i),
                  NoneApplied(states, occurrences, i));
    HistoryNext(env.cfg, states, occurrences, i);
  }

  lemma HistoryNext(cfg: Config, states: seq<System>, occurrences: seq<Occurrence>, i: nat)
    requires i < |occurrences| && |states| == |occurrences| + 1
    requires RemembersOn(cfg, states[i], occurrences[i], states[i + 1], SelectedSoFar(cfg, states, occurrences, i),
                         NoneApplied(states, occurrences, i))
    ensures RemembersAt(cfg, states, occurrences, i + 1)
  {
    NoneStep(states, occurrences, i + 1);
    assert SelectedSoFar(cfg, states, occurrences, i) + {} == SelectedSoFar(cfg, states, occurrences, i);
  }

  lemma {:induction false} RemembersThroughout(cfg: Config, states: seq<System>, occurrences: seq<Occurrence>, i: nat)
    requires |states| == |occurrences| + 1 && i < |states| && RemembersAt(cfg, states, occurrences, 0)
    requires forall p | 0 <= p < |occurrences| ::
               RemembersAt(cfg, states, occurrences, p) ==> RemembersAt(cfg, states, occurrences, p + 1)
    ensures RemembersAt(cfg, states, occurrences, i)
  {
    if i > 0 {
      RemembersThroughout(cfg, states, occurrences, i - 1);
    }
  }

  lemma RunRemembers(env: Env, states: seq<System>, occurrences: seq<Occurrence>, i: nat)
    requires IsRun(env, states, occurrences) && i < |states|
    ensures RemembersAt(env.cfg, states, occurrences, i)
  {
    InitRemembers(env, states[0]);
    forall p | 0 <= p < |occurrences| && RemembersAt(env.cfg, states, occurrences, p)
      ensures RemembersAt(env.cfg, states, occurrences, p + 1)
    {
      RemembersNext(env, states, occurrences, p);
    }
    RemembersThroughout(env.cfg, states, occurrences, i);
  }

  lemma NoneStep(states: seq<System>, occurrences: seq<Occurrence>, i: nat)
    requires 0 < i <= |occurrences| <= |states|
    ensures NoneApplied(states, occurrences, i)
       <==> NoneApplied(states, occurrences, i - 1) && !AppliedAt(states[i - 1], occurrences[i - 1])
  {
  }

  /** Some selector names the account ID. */
  predicate NamedByID(cfg: Config, id: string) {
    exists selector <- cfg.accounts :: selector.authID != "" && selector.authID == id
  }

  lemma ManagesMeans(cfg: Config, e: State, k: Key, selected: set<Key>, none: bool)
    requires WellFormed(cfg, e) && cfg.AutoAccounts() && Remembers(cfg, e, selected, none)
    ensures Manages(cfg, e, k)
       <==> && k.model in cfg.models
            && (cfg.accounts == [] || NamedByID(cfg, k.authID) || none || k in selected || |selected| > 16_000)
  {
  }

  /** With discovered accounts a key is managed, in any state of any run, exactly when
      its model is configured and there are no selectors, or one names its account by
      ID, or nothing was discovered yet, or some snapshot so far selected it, or the
      snapshots so far selected more than 16000 keys. */
  lemma ManagedByHistory(env: Env, states: seq<System>, occurrences: seq<Occurrence>, i: nat, k: Key)
    requires IsRun(env, states, occurrences) && i < |states| && env.cfg.AutoAccounts()
    ensures Manages(env.cfg, states[i].engine, k)
       <==> && k.model in env.cfg.models
            && (|| env.cfg.accounts == [] || NamedByID(env.cfg, k.authID) || NoneApplied(states, occurrences, i)
                || k in SelectedSoFar(env.cfg, states, occurrences, i)
                || |SelectedSoFar(env.cfg, states, occurrences, i)| > 16_000)
  {
    RunRemembers(env, states, occurrences, i);
    RunWellFormed(env, states, occurrences, i);
    ManagesMeans(env.cfg, states[i].engine, k, SelectedSoFar(env.cfg, states, occurrences, i),
                 NoneApplied(states, occurrences, i));
  }

  /** An account of the configuration names the key. */
  predicate ConfiguredFor(a: Account, k: Key) {
    a.authID == k.authID && k.model in a.models
  }

  /** With explicit accounts a key is managed exactly when an account of the
      configuration names it, in every state. */
  lemma ManagedByConfiguration(env: Env, states: seq<System>, occurrences: seq<Occurrence>, i: nat, k: Key)
    requires IsRun(env, states, occurrences) && i < |states| && !env.cfg.AutoAccounts()
    ensures Manages(env.cfg, states[i].engine, k) <==> exists a <- env.cfg.accounts :: ConfiguredFor(a, k)
  {
    RunWellFormed(env, states, occurrences, i);
    ConfiguredMeans(env.cfg, k);
    assert k in states[i].engine.plans <==> k in states[i].engine.plans.Keys;
  }

  lemma ConfiguredMeans(cfg: Config, k: Key)
    ensures k in ConfiguredKeys(cfg) <==> exists a <- cfg.accounts :: ConfiguredFor(a, k)
  {
    if exists a <- cfg.accounts :: ConfiguredFor(a, k) {
      var a :| a in cfg.accounts && ConfiguredFor(a, k);
      assert Key(a.authID, k.model) in ConfiguredKeys(cfg);
    }
  }

  // ---- Plans -------------------------------------------------------------

  lemma PlansStep(env: Env, s: System, o: Occurrence, s': System)
    requires WellFormed(env.cfg, s.engine) && Occurs(env, s, o, s')
    ensures AppliedAt(s, o) ==> s'.engine.plans == Desired(env.cfg, o.event.accounts)
    ensures !AppliedAt(s, o) ==> s'.engine.plans == s.engine.plans
  {
    if !o.event.Discovery? {
      ManagementMovesByDiscovery(env, s, o.event, o.now);
    }
  }

  ghost predicate SamePlans(s: System, s': System) {
    s'.engine.plans == s.engine.plans
  }

  lemma PlansKept(env: Env, states: seq<System>, occurrences: seq<Occurrence>, p: nat)
    requires IsRun(env, states, occurrences) && p < |occurrences| && !AppliedAt(states[p], occurrences[p])
    ensures SamePlans(states[p], states[p + 1])
  {
    RunWellFormed(env, states, occurrences, p);
    RunStep(env, states, occurrences, p);
    PlansStep(env, states[p], occurrences[p], states[p + 1]);
  }

  lemma {:induction false} SameThroughout(states: seq<System>, d: nat, i: nat)
    requires d <= i < |states| && forall p | d <= p < i :: SamePlans(states[p], states[p + 1])
    ensures SamePlans(states[d], states[i])
  {
    if d < i {
      SameThroughout(states, d, i - 1);
      assert SamePlans(states[i - 1], states[i]);
    }
  }

  lemma PlansStay(env: Env, states: seq<System>, occurrences: seq<Occurrence>, d: nat, i: nat)
    requires IsRun(env, states, occurrences) && d <= i < |states|
    requires forall p | d <= p < i :: !AppliedAt(states[p], occurrences[p])
    ensures SamePlans(states[d], states[i])
  {
    forall p | d <= p < i
      ensures SamePlans(states[p], states[p + 1])
    {
      PlansKept(env, states, occurrences, p);
    }
    SameThroughout(states, d, i);
  }

  /** The plans are those of the last snapshot that was applied: of its selected
      accounts with a known plan, for every configured model. */
  lemma PlansAreLatest(env: Env, states: seq<System>, occurrences: seq<Occurrence>, d: nat, i: nat, k: Key,
                       plan: string)
    requires IsRun(env, states, occurrences) && d < i < |states| && AppliedAt(states[d], occurrences[d])
    requires forall p | d < p < i :: !AppliedAt(states[p], occurrences[p])
    ensures (k in states[i].engine.plans && states[i].engine.plans[k] == plan)
       <==> exists n | 0 <= n < |occurrences[d].event.accounts| ::
              var a := occurrences[d].event.accounts[n];
              && a.authID == k.authID && a.plan == plan && plan != ""
              && env.cfg.Selected(a) && k.model in env.cfg.models
  {
    RunWellFormed(env, states, occurrences, d);
    RunStep(env, states, occurrences, d);
    PlansStep(env, states[d], occurrences[d], states[d + 1]);
    PlansStay(env, states, occurrences, d + 1, i);
    DesiredIsSelected(env.cfg, occurrences[d].event.accounts, k, plan);
  }

  lemma {:induction false} ConfiguredPlanOf(accounts: seq<Account>, k: Key, i: nat)
    requires i < |accounts| && ConfiguredFor(accounts[i], k)
    requires forall x, y | 0 <= x < |accounts| && 0 <= y < |accounts| ::
               ConfiguredFor(accounts[x], k) && ConfiguredFor(accounts[y], k) ==> x == y
    ensures ConfiguredPlan(accounts, k) == accounts[i].plan
  {
    if i < |accounts| - 1 {
      ConfiguredPlanOf(accounts[..|accounts| - 1], k, i);
    }
  }

  lemma InitialPlan(cfg: Config, proxies: seq<string>, k: Key, i: nat)
    requires cfg.Valid() && !cfg.AutoAccounts() && i < |cfg.accounts| && ConfiguredFor(cfg.accounts[i], k)
    ensures k in Initial(cfg, proxies).plans && Initial(cfg, proxies).plans[k] == cfg.accounts[i].plan
  {
    ConfiguredMeans(cfg, k);
    assert cfg.accounts[i] in cfg.accounts;
    ConfiguredPlanOf(cfg.accounts, k, i);
  }

  lemma NeverApplied(env: Env, states: seq<System>, occurrences: seq<Occurrence>, p: nat)
    requires IsRun(env, states, occurrences) && p < |occurrences| && !env.cfg.AutoAccounts()
    ensures !AppliedAt(states[p], occurrences[p])
  {
    RunStep(env, states, occurrences, p);
  }

  lemma RunStarts(env: Env, states: seq<System>, occurrences: seq<Occurrence>)
    requires IsRun(env, states, occurrences)
    ensures env.cfg.Valid() && states[0].engine == Initial(env.cfg, env.proxies)
  {
  }

  /** With explicit accounts every configured key has the plan of its account, in
      every state. */
  lemma PlansAreConfigured(env: Env, states: seq<System>, occurrences: seq<Occurrence>, i: nat, k: Key, n: nat)
    requires IsRun(env, states, occurrences) && i < |states| && !env.cfg.AutoAccounts()
    requires n < |env.cfg.accounts| && ConfiguredFor(env.cfg.accounts[n], k)
    ensures k in states[i].engine.plans && states[i].engine.plans[k] == env.cfg.accounts[n].plan
  {
    RunStarts(env, states, occurrences);
    forall p | 0 <= p < i
      ensures !AppliedAt(states[p], occurrences[p])
    {
      NeverApplied(env, states, occurrences, p);
    }
    PlansStay(env, states, occurrences, 0, i);
    InitialPlan(env.cfg, env.proxies, k, n);
  }

  // ---- Room for every plan -----------------------------------------------

  lemma {:induction false} KeysOf(authID: string, models: seq<string>)
    ensures |set m | m in models :: Key(authID, m)| <= |models|
  {
    if models == [] {
      assert (set m | m in models :: Key(authID, m)) == {};
    } else {
      var n := |models| - 1;
      KeysOf(authID, models[..n]);
      assert models == models[..n] + [models[n]];
      assert (set m | m in models :: Key(authID, m))
          == (set m | m in models[..n] :: Key(authID, m)) + {Key(authID, models[n])};
    }
  }

  lemma SelectedSplit(cfg: Config, front: seq<Account>, last: Account)
    ensures SelectedKeys(cfg, front + [last])
         <= SelectedKeys(cfg, front) + set m | m in cfg.models :: Key(last.authID, m)
  {
    forall k | k in SelectedKeys(cfg, front + [last])
      ensures k in SelectedKeys(cfg, front) || (k.authID == last.authID && k.model in cfg.models)
    {
      var a, m :| a in front + [last] && cfg.Selected(a) && m in cfg.models && k == Key(a.authID, m);
    }
  }

  lemma OneMore(n: nat, m: nat)
    ensures (n + 1) * m == n * m + m
  {
  }

  lemma {:induction false} SelectedSize(cfg: Config, accounts: seq<Account>)
    ensures |SelectedKeys(cfg, accounts)| <= |accounts| * |cfg.models|
  {
    if accounts == [] {
      assert SelectedKeys(cfg, accounts) == {};
    } else {
      var n := |accounts| - 1;
      var front, last := accounts[..n], accounts[n];
      var own := set m | m in cfg.models :: Key(last.authID, m);
      SelectedSize(cfg, front);
      KeysOf(last.authID, cfg.models);
      SelectedSplit(cfg, front, last);
      assert accounts == front + [last];
      SubsetSize(SelectedKeys(cfg, accounts), SelectedKeys(cfg, front) + own);
      OneMore(n, |cfg.models|);
    }
  }

  lemma Product(a: nat, b: nat, n: nat)
    requires a <= b
    ensures a * n <= b * n
  {
  }

  lemma DesiredFits(cfg: Config, accounts: seq<Account>)
    requires |accounts| <= 1000
    ensures |Desired(cfg, accounts)| <= 1000 * |cfg.models|
  {
    SelectedSize(cfg, accounts);
    SubsetSize(Desired(cfg, accounts).Keys, SelectedKeys(cfg, accounts));
    Product(|accounts|, 1000, |cfg.models|);
  }

  lemma OrdinaryCapacity(env: Env, e: State, budget: seq<Time>, job: Job, phase: Phase, input: Input, now: Time)
    requires e.pool.Valid() && Ordinary(env, e, job, phase, now)
    ensures Advance(env, e, budget, job, phase, input, now).engine.capacity == e.capacity
  {
    if phase.Choosing? {
      ChoosingAdvance(env, e, budget, job, phase, input, now);
    } else if !(phase.Settling? && phase.chores != []) {
      OrdinaryElsewhere(env, e, budget, job, phase, input, now);
    }
  }

  lemma WorkCapacity(env: Env, s: System, w: nat, input: Input, now: Time)
    requires w < |s.workers| && s.workers[w].Busy? && s.engine.pool.Valid()
    ensures DoWork(env, s, w, input, now).engine.capacity == s.engine.capacity
  {
    var me := s.workers[w];
    if Ordinary(env, s.engine, me.job, me.phase, now) {
      OrdinaryCapacity(env, s.engine, s.budget, me.job, me.phase, input, now);
    } else if me.phase.Done? {
      EpilogueWork(env, s, w, input, now);
      EpilogueShape(env.cfg, s.engine, me.job, me.phase.reason, now);
    } else {
      PublishWork(env, s, w, input, now);
    }
  }

  /** No event changes the capacity of the queue. */
  lemma CapacityStep(env: Env, s: System, o: Occurrence, s': System)
    requires WellFormed(env.cfg, s.engine) && Occurs(env, s, o, s')
    ensures s'.engine.capacity == s.engine.capacity
  {
    if o.event.Work? {
      WorkCapacity(env, s.(clock := o.now), o.event.w, o.event.input, o.now);
    } else if !o.event.Take? && !o.event.Discovery? {
      OutsideCapacity(env, s, o.event, o.now);
    }
  }

  lemma OutsideCapacity(env: Env, s: System, ev: Event, now: Time)
    requires WellFormed(env.cfg, s.engine) && Enabled(env, s, ev, now)
    requires !ev.Work? && !ev.Take? && !ev.Discovery?
    ensures Next(env, s, ev, now).engine.capacity == s.engine.capacity
  {
    var e := s.engine;
    match ev
    case Scheduler(order) => ScheduleKeeps(env.cfg, e, order, now);
    case BindRequest(id, key, reply, callerState) =>
      BindRequests(env.cfg, e, id, key, Described(reply), callerState, now);
    case ResponseHeaders(id, h) => HeadersKeep(env.cfg, e, id, h, now);
    case ResponseChunk(id, bytes) => ChunkCalls(env.cfg, e, id, bytes, env.decode, now);
    case ResponseJSON(id, bytes) => ChunkCalls(env.cfg, e, id, bytes, env.decode, now);
    case RequestComplete(id) => CompleteKeeps(env.cfg, e, id, env.decode, now);
    case Shutdown =>
  }

  /** The queue was made for this many jobs, and the plans are no more than that. */
  ghost predicate Roomy(cfg: Config, e: State) {
    cfg.AutoAccounts() ==> e.capacity == 1000 * |cfg.models| && |e.plans| <= e.capacity
  }

  lemma RoomyNext(env: Env, states: seq<System>, occurrences: seq<Occurrence>, i: nat)
    requires IsRun(env, states, occurrences) && i < |occurrences| && Roomy(env.cfg, states[i].engine)
    ensures Roomy(env.cfg, states[i + 1].engine)
  {
    RunWellFormed(env, states, occurrences, i);
    RunStep(env, states, occurrences, i);
    CapacityStep(env, states[i], occurrences[i], states[i + 1]);
    PlansStep(env, states[i], occurrences[i], states[i + 1]);
    if AppliedAt(states[i], occurrences[i]) {
      DesiredFits(env.cfg, occurrences[i].event.accounts);
    }
  }

  lemma {:induction false} RoomyThroughout(cfg: Config, states: seq<System>, i: nat)
    requires i < |states| && Roomy(cfg, states[0].engine)
    requires forall p | 0 <= p < |states| - 1 :: Roomy(cfg, states[p].engine) ==> Roomy(cfg, states[p + 1].engine)
    ensures Roomy(cfg, states[i].engine)
  {
    if i > 0 {
      RoomyThroughout(cfg, states, i - 1);
    }
  }

  lemma InitRoomy(env: Env, s: System)
    requires Init(env, s)
    ensures Roomy(env.cfg, s.engine)
  {
    if env.cfg.AutoAccounts() {
      forall k
        ensures k !in ConfiguredKeys(env.cfg)
      {
        ConfiguredMeans(env.cfg, k);
      }
      assert s.engine.plans == map[];
    }
  }

  /** With discovered accounts the queue has room for a thousand accounts with every
      configured model, and in every state for all plans at once. */
  lemma QueueFitsPlans(env: Env, states: seq<System>, occurrences: seq<Occurrence>, i: nat)
    requires IsRun(env, states, occurrences) && i < |states| && env.cfg.AutoAccounts()
    ensures states[i].engine.capacity == 1000 * |env.cfg.models|
    ensures |states[i].engine.plans| <= states[i].engine.capacity
  {
    InitRoomy(env, states[0]);
    forall p | 0 <= p < |states| - 1 && Roomy(env.cfg, states[p].engine)
      ensures Roomy(env.cfg, states[p + 1].engine)
    {
      RoomyNext(env, states, occurrences, p);
    }
    RoomyThroughout(env.cfg, states, i);
  }
}
