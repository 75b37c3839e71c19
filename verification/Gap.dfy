/** A run in which a request gets a passive entry although its key is managed when
    it is answered: the snapshot that selects its account by email is applied
    between the check of the key and the two regions of the cache. */
module Gap {
  import opened Base
  import opened PrewarmConfig
  import opened Completions
  import opened EngineState
  import opened Protocol
  import opened Interceptor
  import opened Handling
  import opened Exclusivity
  import C = PassiveCache
  import CacheLog
  import Text

  const MODEL := "m"
  const EMAIL := "a@b"
  const ID := "id"
  const KEY := Key(ID, MODEL)

  // ---- The engine --------------------------------------------------------

  function Cfg(): Config {
    Config([MODEL], [Account(EMAIL, "", "", [])], 1, 1, 0, 2, 1, 1)
  }

  function Found(): seq<Account> {
    [Account(EMAIL, ID, "pro", [])]
  }

  function Unselected(proxies: seq<string>): State {
    Initial(Cfg(), proxies).(plans := map[], records := map[], discoveryCount := 0)
  }

  function Selected(proxies: seq<string>): State {
    Unselected(proxies).(plans := map[KEY := "pro"], records := map[KEY := Record(None, 1, false, 0)], epoch := 1,
                         discoveryCount := 1, owned := {KEY})
  }

  lemma FoundIsSelected()
    ensures Cfg().Valid() && Cfg().AutoAccounts()
    ensures ValidSnapshot([]) && SelectedKeys(Cfg(), []) == {}
    ensures ValidSnapshot(Found()) && SelectedKeys(Cfg(), Found()) == {KEY}
  {
    var cfg, accounts := Cfg(), Found();
    var a := accounts[0];
    assert Text.TrimSpace(EMAIL) == EMAIL && Text.TrimSpace(ID) == ID;
    assert cfg.Selects(cfg.accounts[0], a);
    assert cfg.Selected(a);
    assert a in accounts && MODEL in cfg.models;
  }

  lemma FirstSnapshot(proxies: seq<string>)
    requires proxies != []
    ensures Snapshot(Cfg(), Initial(Cfg(), proxies), [], Unselected(proxies))
    ensures !Manages(Cfg(), Unselected(proxies), KEY)
  {
    FoundIsSelected();
    var cfg, e, e' := Cfg(), Initial(Cfg(), proxies), Unselected(proxies);
    assert ConfiguredKeys(cfg) == {};
    assert e.plans == map[] && e.records == map[];
    assert Desired(cfg, []) == map[];
    assert e.owned + SelectedKeys(cfg, []) == {};
    assert Dropped(e, map[]) == {};
  }

  lemma SecondSnapshot(proxies: seq<string>)
    requires proxies != []
    ensures Snapshot(Cfg(), Unselected(proxies), Found(), Selected(proxies))
    ensures Manages(Cfg(), Selected(proxies), KEY)
  {
    FoundIsSelected();
    var cfg, e, e' := Cfg(), Unselected(proxies), Selected(proxies);
    var accounts := Found();
    assert accounts[..0] == [] && PlanFor(accounts, ID) == "pro";
    assert Desired(cfg, accounts) == map[KEY := "pro"];
    assert KEY in Desired(cfg, accounts) && KEY !in e.plans;
    assert e.owned + SelectedKeys(cfg, accounts) == {KEY};
    assert Dropped(e, Desired(cfg, accounts)) == {};
    assert cfg.Selected(accounts[0]);
    assert Eligible(cfg, accounts[..0]) == 0;
    forall k
      ensures RecordApplied(e, e', Desired(cfg, accounts), k)
    {
    }
  }

  // ---- The cache ---------------------------------------------------------

  const EARLIER := Request("r", "codex", KEY, map[])
  const LATER := Request("s", "codex", KEY, map[])

  function Limits(): C.Limits {
    C.Limits(1, 2, [C.STATE_LENGTH, C.STATE_LENGTH_TEAM])
  }

  const BINDING := C.Binding(KEY, "", 0, C.PENDING_TTL)
  const EMPTY := C.State(map[], map[])
  const BOUND := C.State(map[], map["r" := BINDING])

  function Filled(value: string): C.State {
    BOUND.(entries := map[KEY := C.Entry(value, 0, C.STATE_TTL)])
  }

  function BoundAgain(value: string): C.State {
    Filled(value).(pending := BOUND.pending["s" := BINDING])
  }

  lemma EarlierBinds()
    ensures C.BoundTo(Limits(), EMPTY, BOUND, "r", KEY, 0) && C.LookedUp(BOUND, KEY, 0) == (BOUND, None)
  {
    assert C.Purged(EMPTY, 0) == EMPTY && C.Purged(BOUND, 0) == BOUND;
    assert C.PendingEvictedTo(map[], map[], 2);
  }

  /** The response to the earlier request is captured. */
  lemma EarlierFills(value: string)
    requires |value| == C.STATE_LENGTH
    ensures C.StoredAs(Limits(), BOUND, Filled(value), "r", [value], "", 0)
  {
    assert C.Purged(BOUND, 0) == BOUND;
    assert C.EvictedTo(map[], map[], 1);
    assert Text.TrimSpace("") == "" && Text.ToLower("") == "";
    assert C.Accepted(Limits(), [value], "") == Some(value);
    assert C.Admitted(Limits(), BOUND, "r", [value], "", 0) == Some((KEY, value));
  }

  lemma LaterBinds(value: string)
    ensures C.BoundTo(Limits(), Filled(value), BoundAgain(value), "s", KEY, 0)
    ensures C.LookedUp(BoundAgain(value), KEY, 0) == (BoundAgain(value), Some(value))
  {
    assert C.Purged(Filled(value), 0) == Filled(value) && C.Purged(BoundAgain(value), 0) == BoundAgain(value);
    assert C.PendingEvictedTo(BOUND.pending, BOUND.pending, 2);
  }

  // ---- The joint run -----------------------------------------------------

  function At(proxies: seq<string>, e: State): System {
    System(e, [], [], 0, [], map[], [], 0)
  }

  function Env0(decode: Decoder, proxies: seq<string>): Env {
    Env(Cfg(), decode, proxies)
  }

  /** A step of a request or of the cache leaves the engine alone. */
  lemma SilentStep(env: Env, s: System)
    requires s.clock == 0 && s.engine.requests == map[]
    ensures Occurs(env, s, Silence(0), s)
  {
  }

  /** Arriving, and checking a key that is not managed. */
  lemma ArrivesUnmanaged(env: Env, s: Joint, h: nat, r: Request)
    requires s.system.clock == 0 && s.system.engine.requests == map[]
    requires h !in s.handlers && r.id != "" && r.toFormat == "codex" && r.key == KEY
             && !Manages(env.cfg, s.system.engine, KEY)
    ensures var s1 := s.(handlers := s.handlers[h := Handler(r, CheckingKey)]);
            var s2 := s.(handlers := s1.handlers[h := Handler(r, Remembering)]);
            && JointStep(env, Limits(), s, Arrival(h, r, 0), s1)
            && JointStep(env, Limits(), s1, Turn(h, None, 0), s2)
            && TurnAt(s1, Turn(h, None, 0), h, CheckingKey)
  {
    SilentStep(env, s.system);
    assert Routed(r) && Complete(r);
  }

  /** The two regions of the cache. */
  lemma BindsAndLooksUp(env: Env, s: Joint, h: nat, r: Request, bound: C.State)
    requires s.system.clock == 0 && s.system.engine.requests == map[]
    requires h in s.handlers && s.handlers[h] == Handler(r, Remembering)
    requires C.BoundTo(Limits(), s.cache, bound, r.id, r.key, 0)
    ensures var s1 := Joint(s.system, bound, s.handlers[h := Handler(r, LookingUp)]);
            var looked := C.LookedUp(bound, r.key, 0);
            var s2 := Joint(s.system, looked.0, s1.handlers[h := Handler(r, Answered(Chosen(false, None, looked.1)))]);
            && JointStep(env, Limits(), s, Turn(h, None, 0), s1)
            && JointStep(env, Limits(), s1, Turn(h, None, 0), s2)
            && Answers(s1, Turn(h, None, 0), h, s2)
            && Passed(Limits(), s.cache, looked.0, r, looked.1, 0)
  {
    SilentStep(env, s.system);
  }

  lemma Captures(env: Env, s: Joint, value: string)
    requires s.system.clock == 0 && s.system.engine.requests == map[] && s.cache == BOUND && |value| == C.STATE_LENGTH
    ensures JointStep(env, Limits(), s, OfCache(CacheLog.Moment(CacheLog.Store("r", [value], ""), 0)),
                      s.(cache := Filled(value)))
  {
    SilentStep(env, s.system);
    EarlierFills(value);
  }

  lemma Discovers(env: Env, s: Joint, accounts: seq<Account>, after: State)
    requires s.system.clock == 0 && env.cfg.AutoAccounts() && Snapshot(env.cfg, s.system.engine, accounts, after)
    ensures JointStep(env, Limits(), s, OfEngine(Occurrence(Discovery(accounts, after), 0)),
                      s.(system := s.system.(engine := after)))
  {
  }

  lemma Extend(env: Env, states: seq<Joint>, labels: seq<Label>, l: Label, s: Joint)
    requires IsJointRun(env, Limits(), states, labels) && JointStep(env, Limits(), states[|labels|], l, s)
    ensures IsJointRun(env, Limits(), states + [s], labels + [l])
  {
    forall i | 0 <= i < |labels| + 1
      ensures JointStep(env, Limits(), (states + [s])[i], (labels + [l])[i], (states + [s])[i + 1])
    {
      if i < |labels| {
        assert JointStep(env, Limits(), states[i], labels[i], states[i + 1]);
      }
    }
  }

  function Unmanaged(proxies: seq<string>, cache: C.State, handlers: map<nat, Handler>): Joint {
    Joint(At(proxies, Unselected(proxies)), cache, handlers)
  }

  const TURN0 := Turn(0, None, 0)
  const TURN1 := Turn(1, None, 0)
  const DONE0 := map[0 := Handler(EARLIER, Answered(Nothing))]

  /** A run that ends in a given state after n steps. */
  ghost predicate Leads(env: Env, states: seq<Joint>, labels: seq<Label>, n: nat, s: Joint) {
    IsJointRun(env, Limits(), states, labels) && |labels| == n && states[n] == s
  }

  lemma Then(env: Env, states: seq<Joint>, labels: seq<Label>, n: nat, s: Joint, l: Label, s': Joint)
    requires Leads(env, states, labels, n, s) && JointStep(env, Limits(), s, l, s')
    ensures Leads(env, states + [s'], labels + [l], n + 1, s')
  {
    Extend(env, states, labels, l, s');
  }

  /** The first snapshot finds no account. */
  lemma Starts(decode: Decoder, proxies: seq<string>) returns (states: seq<Joint>, labels: seq<Label>)
    requires proxies != []
    ensures Leads(Env0(decode, proxies), states, labels, 1, Unmanaged(proxies, EMPTY, map[]))
  {
    var env := Env0(decode, proxies);
    FoundIsSelected();
    FirstSnapshot(proxies);
    var s0 := Joint(At(proxies, Initial(Cfg(), proxies)), EMPTY, map[]);
    Discovers(env, s0, [], Unselected(proxies));
    var l0 := OfEngine(Occurrence(Discovery([], Unselected(proxies)), 0));
    Then(env, [s0], [], 0, s0, l0, Unmanaged(proxies, EMPTY, map[]));
    states, labels := [s0] + [Unmanaged(proxies, EMPTY, map[])], [] + [l0];
  }

  lemma EarlierArrives(decode: Decoder, proxies: seq<string>) returns (states: seq<Joint>, labels: seq<Label>)
    requires proxies != []
    ensures Leads(Env0(decode, proxies), states, labels, 3,
                  Unmanaged(proxies, EMPTY, map[0 := Handler(EARLIER, Remembering)]))
  {
    var env := Env0(decode, proxies);
    FirstSnapshot(proxies);
    states, labels := Starts(decode, proxies);
    var s1 := Unmanaged(proxies, EMPTY, map[]);
    ArrivesUnmanaged(env, s1, 0, EARLIER);
    var s2 := s1.(handlers := map[][0 := Handler(EARLIER, CheckingKey)]);
    var s3 := s1.(handlers := s2.handlers[0 := Handler(EARLIER, Remembering)]);
    assert s3.handlers == map[0 := Handler(EARLIER, Remembering)];
    Then(env, states, labels, 1, s1, Arrival(0, EARLIER, 0), s2);
    Then(env, states + [s2], labels + [Arrival(0, EARLIER, 0)], 2, s2, TURN0, s3);
    states, labels := states + [s2] + [s3], labels + [Arrival(0, EARLIER, 0)] + [TURN0];
  }

  lemma EarlierAnswered(decode: Decoder, proxies: seq<string>) returns (states: seq<Joint>, labels: seq<Label>)
    requires proxies != []
    ensures Leads(Env0(decode, proxies), states, labels, 5, Unmanaged(proxies, BOUND, DONE0))
  {
    var env := Env0(decode, proxies);
    EarlierBinds();
    states, labels := EarlierArrives(decode, proxies);
    var s3 := Unmanaged(proxies, EMPTY, map[0 := Handler(EARLIER, Remembering)]);
    BindsAndLooksUp(env, s3, 0, EARLIER, BOUND);
    var s4 := Joint(s3.system, BOUND, s3.handlers[0 := Handler(EARLIER, LookingUp)]);
    var s5 := Joint(s3.system, BOUND, s4.handlers[0 := Handler(EARLIER, Answered(Nothing))]);
    assert s5.handlers == DONE0;
    Then(env, states, labels, 3, s3, TURN0, s4);
    Then(env, states + [s4], labels + [TURN0], 4, s4, TURN0, s5);
    states, labels := states + [s4] + [s5], labels + [TURN0] + [TURN0];
  }

  lemma CacheFills(decode: Decoder, proxies: seq<string>, value: string)
    returns (states: seq<Joint>, labels: seq<Label>)
    requires proxies != [] && |value| == C.STATE_LENGTH
    ensures Leads(Env0(decode, proxies), states, labels, 6, Unmanaged(proxies, Filled(value), DONE0))
  {
    var env := Env0(decode, proxies);
    states, labels := EarlierAnswered(decode, proxies);
    var s5 := Unmanaged(proxies, BOUND, DONE0);
    var l5 := OfCache(CacheLog.Moment(CacheLog.Store("r", [value], ""), 0));
    Captures(env, s5, value);
    Then(env, states, labels, 5, s5, l5, s5.(cache := Filled(value)));
    states, labels := states + [s5.(cache := Filled(value))], labels + [l5];
  }

  /** The later request is checked while its key is not managed. */
  lemma LaterChecked(decode: Decoder, proxies: seq<string>, value: string)
    returns (states: seq<Joint>, labels: seq<Label>)
    requires proxies != [] && |value| == C.STATE_LENGTH
    ensures Leads(Env0(decode, proxies), states, labels, 8,
                  Unmanaged(proxies, Filled(value), DONE0[1 := Handler(LATER, Remembering)]))
    ensures TurnAt(states[7], labels[7], 1, CheckingKey)
  {
    var env := Env0(decode, proxies);
    FirstSnapshot(proxies);
    states, labels := CacheFills(decode, proxies, value);
    var s6 := Unmanaged(proxies, Filled(value), DONE0);
    ArrivesUnmanaged(env, s6, 1, LATER);
    var s7 := s6.(handlers := DONE0[1 := Handler(LATER, CheckingKey)]);
    var s8 := s6.(handlers := s7.handlers[1 := Handler(LATER, Remembering)]);
    assert s8.handlers == DONE0[1 := Handler(LATER, Remembering)];
    Then(env, states, labels, 6, s6, Arrival(1, LATER, 0), s7);
    Then(env, states + [s7], labels + [Arrival(1, LATER, 0)], 7, s7, TURN1, s8);
    states, labels := states + [s7] + [s8], labels + [Arrival(1, LATER, 0)] + [TURN1];
  }

  function Managed(proxies: seq<string>, value: string): Joint {
    Joint(At(proxies, Selected(proxies)), Filled(value), DONE0[1 := Handler(LATER, Remembering)])
  }

  /** Then a snapshot takes the key over. */
  lemma TakenOver(decode: Decoder, proxies: seq<string>, value: string) returns (states: seq<Joint>, labels: seq<Label>)
    requires proxies != [] && |value| == C.STATE_LENGTH
    ensures Leads(Env0(decode, proxies), states, labels, 9, Managed(proxies, value))
    ensures TurnAt(states[7], labels[7], 1, CheckingKey)
  {
    var env := Env0(decode, proxies);
    states, labels := LaterChecked(decode, proxies, value);
    FoundIsSelected();
    SecondSnapshot(proxies);
    var s8 := Unmanaged(proxies, Filled(value), DONE0[1 := Handler(LATER, Remembering)]);
    var l8 := OfEngine(Occurrence(Discovery(Found(), Selected(proxies)), 0));
    Discovers(env, s8, Found(), Selected(proxies));
    Then(env, states, labels, 8, s8, l8, Managed(proxies, value));
    states, labels := states + [Managed(proxies, value)], labels + [l8];
  }

  function Looking(proxies: seq<string>, value: string): Joint {
    var s := Managed(proxies, value);
    Joint(s.system, BoundAgain(value), s.handlers[1 := Handler(LATER, LookingUp)])
  }

  function Answering(proxies: seq<string>, value: string): Joint {
    var s := Looking(proxies, value);
    s.(handlers := s.handlers[1 := Handler(LATER, Answered(Passive(value)))])
  }

  lemma LaterAnswers(decode: Decoder, proxies: seq<string>, value: string)
    requires proxies != []
    ensures JointStep(Env0(decode, proxies), Limits(), Managed(proxies, value), TURN1, Looking(proxies, value))
    ensures JointStep(Env0(decode, proxies), Limits(), Looking(proxies, value), TURN1, Answering(proxies, value))
    ensures Passed(Limits(), Managed(proxies, value).cache, Answering(proxies, value).cache, LATER, Some(value), 0)
  {
    LaterBinds(value);
    BindsAndLooksUp(Env0(decode, proxies), Managed(proxies, value), 1, LATER, BoundAgain(value));
  }

  lemma AnswersManaged(decode: Decoder, proxies: seq<string>, value: string)
    requires proxies != []
    ensures Answers(Looking(proxies, value), TURN1, 1, Answering(proxies, value))
    ensures PassiveWhileManaged(Env0(decode, proxies), Looking(proxies, value), Answering(proxies, value), 1)
  {
    SecondSnapshot(proxies);
  }

  /** The promise that a managed key is answered with verified tickets only fails
      in this run: its last step answers a managed key with a passive entry. */
  lemma PassiveAlthoughManaged(decode: Decoder, proxies: seq<string>, value: string)
    returns (states: seq<Joint>, labels: seq<Label>)
    requires proxies != [] && |value| == C.STATE_LENGTH
    ensures IsJointRun(Env0(decode, proxies), Limits(), states, labels) && |labels| == 11
    ensures TurnAt(states[7], labels[7], 1, CheckingKey) && Answers(states[10], labels[10], 1, states[11])
    ensures Passed(Limits(), states[9].cache, states[11].cache, LATER, Some(value), 0)
    ensures PassiveWhileManaged(Env0(decode, proxies), states[10], states[11], 1)
    ensures states[11].handlers[1].stage.answer == Passive(value)
  {
    var env := Env0(decode, proxies);
    states, labels := TakenOver(decode, proxies, value);
    LaterAnswers(decode, proxies, value);
    AnswersManaged(decode, proxies, value);
    var s9, s10, s11 := Managed(proxies, value), Looking(proxies, value), Answering(proxies, value);
    Then(env, states, labels, 9, s9, TURN1, s10);
    Then(env, states + [s10], labels + [TURN1], 10, s10, TURN1, s11);
    states, labels := states + [s10] + [s11], labels + [TURN1] + [TURN1];
  }
}
