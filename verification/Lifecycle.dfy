/** The shutdown protocol (cmd/plugin/main.go): the lifecycle lock, the callback
    gate, the published plugin and the goroutines of the engines, interleaved.
    Acquiring a lock, each assignment under the gate, the join of the old engine
    and every callback are steps of their own. */
module Lifecycle {
  import opened Base

  /** A plugin, numbered; Start launches `size` goroutines, none without an engine. */
  datatype Plugin = Plugin(serial: nat, size: nat)

  /** What a configuration request amounts to once it is decoded and validated. */
  datatype Prepared = Failed | Fit(size: nat)

  /** What follows once the old plugin is closed. */
  datatype After = Launch | Rest | Drain

  /** Who holds the lifecycle lock, and how far. The phases from Store to Opened
      and from Shut to Cleared hold the callback gate for writing. */
  datatype Holder =
    | Free
    | AwaitGate(host: Option<nat>)
    | Store(host: Option<nat>)
    | Stored(host: Option<nat>)
    | Opened
    | Configuring(prepared: Prepared)
    | Resetting(after: After)
    | Retiring(prior: Plugin, after: After)
    | Joining(prior: Plugin, after: After)
    | AwaitDrain
    | Shut
    | ShutFlag
    | Cleared

  /** A Host callback in flight: the plugin whose goroutine makes it, if it is not
      a foreground request, and the Host it entered with. */
  datatype Callback = Callback(owner: Option<nat>, host: Option<nat>)

  datatype State = State(
    stopped: bool,
    stored: Option<nat>,
    open: bool,
    callbacks: map<nat, Callback>,
    published: Plugin,
    created: nat,
    live: map<nat, nat>,
    closed: set<nat>,
    holder: Holder)
  {
    predicate Writing() {
      holder.Store? || holder.Stored? || holder.Opened? || holder.Shut? || holder.ShutFlag? || holder.Cleared?
    }

    /** The goroutines of a plugin that have not returned. */
    function Live(p: nat): nat {
      if p in live then live[p] else 0
    }

    function OwnCallbacks(p: nat): set<nat> {
      set id | id in callbacks && callbacks[id].owner == Some(p)
    }

    /** The plugin whose goroutines may still run. */
    function Current(): Plugin {
      if holder.Retiring? || holder.Joining? then holder.prior else published
    }
  }

  datatype Event =
    | Init(host: Option<nat>)
    | Configure(prepared: Prepared)
    | Quiesce
    | Shutdown
    | Continue
    | Enter(id: nat, owner: Option<nat>)
    | Return(id: nat)
    | Exit(p: nat)

  const START := State(false, None, false, map[], Plugin(0, 0), 1, map[], {}, Free)

  predicate Enabled(s: State, ev: Event) {
    match ev
    case Init(_) => s.holder.Free?
    case Configure(_) => s.holder.Free?
    case Quiesce => s.holder.Free?
    case Shutdown => s.holder.Free?
    case Continue =>
      && !s.holder.Free?
      && (s.holder.AwaitGate? || s.holder.AwaitDrain? ==> s.callbacks == map[])
      && (s.holder.Joining? ==> s.Live(s.holder.prior.serial) == 0)
    case Enter(id, owner) =>
      && !s.Writing() && id !in s.callbacks
      && (owner.Some? ==> |s.OwnCallbacks(owner.value)| < s.Live(owner.value))
    case Return(id) => id in s.callbacks
    case Exit(p) => p in s.closed && |s.OwnCallbacks(p)| < s.Live(p)
  }

  /** The swap of the published plugin for a new one. */
  function Publish(s: State, size: nat, after: After): State {
    s.(published := Plugin(s.created, size), created := s.created + 1, holder := Retiring(s.published, after))
  }

  predicate Accepts(s: State) {
    s.holder.Configuring? && !s.stopped && s.holder.prepared.Fit?
  }

  /** The next thing that the holder of the lifecycle lock does. */
  function Proceed(s: State): State {
    match s.holder
    case Free => s
    case AwaitGate(host) => s.(holder := Store(host))
    case Store(host) => s.(stored := host, holder := Stored(host))
    case Stored(host) => s.(open := host.Some?, holder := Opened)
    case Opened => s.(holder := Free)
    case Configuring(prepared) =>
      if Accepts(s) then Publish(s, prepared.size, Launch) else s.(holder := Free)
    case Resetting(after) => Publish(s, 0, after)
    case Retiring(prior, after) => s.(closed := s.closed + {prior.serial}, holder := Joining(prior, after))
    case Joining(_, Launch) => s.(live := s.live[s.published.serial := s.published.size], holder := Free)
    case Joining(_, Rest) => s.(holder := Free)
    case Joining(_, Drain) => s.(holder := AwaitDrain)
    case AwaitDrain => s.(holder := Shut)
    case Shut => s.(open := false, holder := ShutFlag)
    case ShutFlag => s.(stored := None, holder := Cleared)
    case Cleared => s.(holder := Free)
  }

  /** A callback that finds the gate closed returns at once. */
  function Next(s: State, ev: Event): State {
    match ev
    case Init(host) => s.(stopped := false, holder := AwaitGate(host))
    case Configure(prepared) => s.(holder := Configuring(prepared))
    case Quiesce => s.(holder := Resetting(Rest))
    case Shutdown => s.(stopped := true, holder := Resetting(Drain))
    case Continue => Proceed(s)
    case Enter(id, owner) =>
      if s.open then s.(callbacks := s.callbacks[id := Callback(owner, s.stored)]) else s
    case Return(id) => s.(callbacks := s.callbacks - {id})
    case Exit(p) => if p in s.live && s.live[p] > 0 then s.(live := s.live[p := s.live[p] - 1]) else s
  }

  ghost predicate IsRun(states: seq<State>, events: seq<Event>) {
    && |states| == |events| + 1
    && states[0] == START
    && forall i | 0 <= i < |events| :: Enabled(states[i], events[i]) && states[i + 1] == Next(states[i], events[i])
  }

  // ---- Invariants --------------------------------------------------------

  /** Draining is under way. */
  predicate ShuttingDown(h: Holder) {
    || ((h.Resetting? || h.Retiring? || h.Joining?) && h.after.Drain?)
    || h.AwaitDrain? || h.Shut? || h.ShutFlag?
  }

  predicate GateOk(s: State) {
    && (s.Writing() ==> s.callbacks == map[])
    && (!s.Writing() || s.holder.Store? || s.holder.Opened? || s.holder.Shut? || s.holder.Cleared? ==>
          (s.open <==> s.stored.Some?))
    && (s.holder.Stored? ==> s.stored == s.holder.host)
    && (s.holder.ShutFlag? ==> !s.open)
    && (s.holder.Cleared? ==> !s.open)
  }

  ghost predicate CallbacksOk(s: State) {
    forall id | id in s.callbacks :: s.open && s.stored.Some? && s.callbacks[id].host == s.stored
  }

  ghost predicate LiveOk(s: State) {
    && (forall p | s.Live(p) > 0 :: p == s.Current().serial)
    && s.Live(s.Current().serial) <= s.Current().size
    && (forall p :: |s.OwnCallbacks(p)| <= s.Live(p))
  }

  ghost predicate SerialsOk(s: State) {
    && s.published.serial < s.created
    && (forall c <- s.closed :: c < s.published.serial)
    && (s.holder.Retiring? || s.holder.Joining? ==> s.holder.prior.serial < s.published.serial)
  }

  predicate StoppedOk(s: State) {
    && (s.stopped && !s.holder.Resetting? ==> s.published.size == 0)
    && (s.stopped && !ShuttingDown(s.holder) ==> !s.open && s.stored.None?)
    && (s.holder.AwaitGate? || s.holder.Store? || s.holder.Stored? || s.holder.Opened? ==> !s.stopped)
    && (ShuttingDown(s.holder) || s.holder.Cleared? ==> s.stopped)
    && ((s.holder.Retiring? || s.holder.Joining?) && s.holder.after.Launch? ==> !s.stopped)
    && (s.holder.Resetting? ==> !s.holder.after.Launch?)
  }

  ghost predicate Inv(s: State) {
    GateOk(s) && CallbacksOk(s) && LiveOk(s) && SerialsOk(s) && StoppedOk(s)
  }

  lemma StartInv()
    ensures Inv(START)
  {
    assert forall p :: START.OwnCallbacks(p) == {};
  }

  /** Steps that leave the callbacks and the goroutines as they are. */
  lemma LiveSame(s: State, s': State)
    requires LiveOk(s) && s'.callbacks == s.callbacks && s'.live == s.live && s'.Current() == s.Current()
    ensures LiveOk(s')
  {
    forall p
      ensures |s'.OwnCallbacks(p)| <= s'.Live(p)
      ensures s'.Live(p) > 0 ==> p == s'.Current().serial
    {
      assert s'.OwnCallbacks(p) == s.OwnCallbacks(p) && s'.Live(p) == s.Live(p);
    }
  }

  lemma LiveFewer(s: State, s': State)
    requires LiveOk(s) && s'.Current() == s.Current()
    requires forall p :: |s'.OwnCallbacks(p)| <= s'.Live(p) <= s.Live(p)
    ensures LiveOk(s')
  {
    forall p | s'.Live(p) > 0
      ensures p == s'.Current().serial
    {
      assert s.Live(p) > 0;
    }
    assert s'.Live(s'.Current().serial) <= s.Live(s'.Current().serial);
  }

  /** Once the old goroutines have returned, nobody runs. */
  lemma NobodyLeft(s: State)
    requires LiveOk(s) && s.Live(s.Current().serial) == 0
    ensures forall p :: s.Live(p) == 0 && s.OwnCallbacks(p) == {}
  {
    forall p
      ensures s.Live(p) == 0 && s.OwnCallbacks(p) == {}
    {
      assert |s.OwnCallbacks(p)| <= s.Live(p);
    }
  }

  lemma JoinedLive(s: State)
    requires Inv(s) && s.holder.Joining? && s.Live(s.holder.prior.serial) == 0
    ensures LiveOk(Proceed(s))
  {
    NobodyLeft(s);
    var s' := Proceed(s);
    assert s.Live(s.published.serial) == 0;
    forall p
      ensures |s'.OwnCallbacks(p)| <= s'.Live(p)
      ensures s'.Live(p) > 0 ==> p == s'.Current().serial
    {
      assert s'.OwnCallbacks(p) == s.OwnCallbacks(p) && s.Live(p) == 0;
    }
  }

  lemma ProceedLive(s: State)
    requires Inv(s) && Enabled(s, Continue)
    ensures LiveOk(Proceed(s))
  {
    if s.holder.Joining? {
      JoinedLive(s);
    } else {
      LiveSame(s, Proceed(s));
    }
  }

  lemma ProceedGate(s: State)
    requires GateOk(s) && Enabled(s, Continue)
    ensures GateOk(Proceed(s))
  {
  }

  lemma ProceedCallbacks(s: State)
    requires GateOk(s) && CallbacksOk(s) && Enabled(s, Continue)
    ensures CallbacksOk(Proceed(s))
  {
  }

  lemma ProceedStopped(s: State)
    requires GateOk(s) && StoppedOk(s) && Enabled(s, Continue)
    ensures StoppedOk(Proceed(s))
  {
  }

  lemma ProceedRest(s: State)
    requires Inv(s) && Enabled(s, Continue)
    ensures GateOk(Proceed(s)) && CallbacksOk(Proceed(s)) && SerialsOk(Proceed(s)) && StoppedOk(Proceed(s))
  {
    ProceedGate(s);
    ProceedCallbacks(s);
    ProceedStopped(s);
  }

  lemma EnterKeeps(s: State, id: nat, owner: Option<nat>)
    requires Inv(s) && Enabled(s, Enter(id, owner))
    ensures Inv(Next(s, Enter(id, owner)))
  {
    EnterLive(s, id, owner);
  }

  lemma EnterLive(s: State, id: nat, owner: Option<nat>)
    requires LiveOk(s) && Enabled(s, Enter(id, owner))
    ensures LiveOk(Next(s, Enter(id, owner)))
  {
    var s' := Next(s, Enter(id, owner));
    forall p: nat
      ensures |s'.OwnCallbacks(p)| <= s'.Live(p) <= s.Live(p)
    {
      if s.open && owner == Some(p) {
        assert s'.OwnCallbacks(p) == s.OwnCallbacks(p) + {id};
      } else {
        assert s'.OwnCallbacks(p) == s.OwnCallbacks(p);
      }
    }
    LiveFewer(s, s');
  }

  lemma ReturnKeeps(s: State, id: nat)
    requires Inv(s) && Enabled(s, Return(id))
    ensures Inv(Next(s, Return(id)))
  {
    var s' := Next(s, Return(id));
    forall p
      ensures |s'.OwnCallbacks(p)| <= s'.Live(p) <= s.Live(p)
    {
      assert s.OwnCallbacks(p) == s'.OwnCallbacks(p) + (s.OwnCallbacks(p) - s'.OwnCallbacks(p));
    }
    LiveFewer(s, s');
  }

  lemma ExitKeeps(s: State, p: nat)
    requires Inv(s) && Enabled(s, Exit(p))
    ensures Inv(Next(s, Exit(p)))
  {
    var s' := Next(s, Exit(p));
    forall q
      ensures |s'.OwnCallbacks(q)| <= s'.Live(q) <= s.Live(q)
    {
      assert s'.OwnCallbacks(q) == s.OwnCallbacks(q);
    }
    LiveFewer(s, s');
  }

  lemma AcquireKeeps(s: State, ev: Event)
    requires Inv(s) && s.holder.Free? && (ev.Init? || ev.Configure? || ev.Quiesce? || ev.Shutdown?)
    ensures Inv(Next(s, ev))
  {
    LiveSame(s, Next(s, ev));
  }

  lemma NextInv(s: State, ev: Event)
    requires Inv(s) && Enabled(s, ev)
    ensures Inv(Next(s, ev))
  {
    match ev
    case Continue =>
      ProceedLive(s);
      ProceedRest(s);
    case Enter(id, owner) => EnterKeeps(s, id, owner);
    case Return(id) => ReturnKeeps(s, id);
    case Exit(p) => ExitKeeps(s, p);
    case _ => AcquireKeeps(s, ev);
  }

  lemma {:induction false} RunInv(states: seq<State>, events: seq<Event>, i: nat)
    requires IsRun(states, events) && i < |states|
    ensures Inv(states[i])
  {
    if i == 0 {
      StartInv();
    } else {
      RunInv(states, events, i - 1);
      NextInv(states[i - 1], events[i - 1]);
    }
  }

  // ---- Theorems ----------------------------------------------------------

  /** Goroutines of two engines are never alive at once, and a callback that one
      of them has in flight keeps its engine alive. */
  lemma OneEngineAtATime(states: seq<State>, events: seq<Event>, i: nat, p: nat, q: nat)
    requires IsRun(states, events) && i < |states|
    requires states[i].Live(p) > 0 || states[i].OwnCallbacks(p) != {}
    requires states[i].Live(q) > 0 || states[i].OwnCallbacks(q) != {}
    ensures p == q && states[i].Live(p) > 0
  {
    RunInv(states, events, i);
    assert |states[i].OwnCallbacks(p)| <= states[i].Live(p);
    assert |states[i].OwnCallbacks(q)| <= states[i].Live(q);
  }

  /** The stored Host moves only while no callback is in flight, and a callback in
      flight has the Host that is stored. */
  lemma HostMovesQuietly(states: seq<State>, events: seq<Event>, i: nat)
    requires IsRun(states, events) && i < |events|
    ensures states[i + 1].stored != states[i].stored ==> states[i].callbacks == states[i + 1].callbacks == map[]
    ensures forall id | id in states[i].callbacks ::
              states[i].stored.Some? && states[i].callbacks[id].host == states[i].stored
  {
    RunInv(states, events, i);
  }

  /** Except while the gate is held for writing, callbacks are open exactly when a
      Host is stored. */
  lemma OpenIffHost(states: seq<State>, events: seq<Event>, i: nat)
    requires IsRun(states, events) && i < |states| && !states[i].Writing()
    ensures states[i].open <==> states[i].stored.Some?
  {
    RunInv(states, events, i);
  }

  /** No swap of the plugin is under way. */
  predicate Settled(h: Holder) {
    !h.Resetting? && !h.Retiring? && !h.Joining?
  }

  /** Whatever is configured at this step is refused, and nothing is shut down. */
  predicate Refuses(s: State, ev: Event) {
    !Accepts(s) && !ev.Quiesce? && !ev.Shutdown?
  }

  /** The plugin stays published, with as many goroutines. */
  predicate KeepsPlugin(s: State, s': State) {
    Settled(s.holder) ==>
      && Settled(s'.holder) && s'.published == s.published
      && s'.Live(s.published.serial) == s.Live(s.published.serial)
  }

  lemma RefusalKeeps(s: State, ev: Event)
    requires SerialsOk(s) && Enabled(s, ev) && Refuses(s, ev)
    ensures KeepsPlugin(s, Next(s, ev))
  {
  }

  lemma {:induction false} PluginKept(states: seq<State>, i: nat, j: nat)
    requires i <= j < |states| && Settled(states[i].holder)
    requires forall p | i <= p < j :: KeepsPlugin(states[p], states[p + 1])
    ensures Settled(states[j].holder) && states[j].published == states[i].published
    ensures states[j].Live(states[i].published.serial) == states[i].Live(states[i].published.serial)
    decreases j
  {
    if i < j {
      PluginKept(states, i, j - 1);
      assert KeepsPlugin(states[j - 1], states[j]);
    }
  }

  /** As long as every configuration is refused, for whatever reason, the published
      plugin stays, its engine is not closed, and no goroutine of it goes. */
  lemma RefusalsKeepThePlugin(states: seq<State>, events: seq<Event>, i: nat, j: nat)
    requires IsRun(states, events) && i <= j < |states| && Settled(states[i].holder)
    requires forall p | i <= p < j :: Refuses(states[p], events[p])
    ensures states[j].published == states[i].published && states[j].published.serial !in states[j].closed
    ensures states[j].Live(states[i].published.serial) == states[i].Live(states[i].published.serial)
  {
    forall p | i <= p < j
      ensures KeepsPlugin(states[p], states[p + 1])
    {
      RunInv(states, events, p);
      RefusalKeeps(states[p], events[p]);
    }
    PluginKept(states, i, j);
    RunInv(states, events, j);
  }

  /** From a shutdown to the next init no configuration succeeds. */
  lemma {:induction false} StoppedUntilInit(states: seq<State>, events: seq<Event>, i: nat, j: nat)
    requires IsRun(states, events) && i <= j < |states| && states[i].stopped
    requires forall p | i <= p < j :: !events[p].Init?
    ensures states[j].stopped && !Accepts(states[j])
    decreases j
  {
    if i < j {
      StoppedUntilInit(states, events, i, j - 1);
      assert states[j] == Next(states[j - 1], events[j - 1]);
    }
  }

  /** Once a shutdown has run its course, and until the next init, nothing is
      left: no goroutine, no callback, no Host, and an inert plugin. */
  lemma ShutdownLeavesNothing(states: seq<State>, events: seq<Event>, i: nat, p: nat)
    requires IsRun(states, events) && i < |states| && states[i].stopped && states[i].holder.Free?
    ensures states[i].Live(p) == 0 && states[i].callbacks == map[]
    ensures !states[i].open && states[i].stored.None? && states[i].published.size == 0
  {
    RunInv(states, events, i);
    NobodyLeft(states[i]);
  }

  /** A new engine is launched only when no goroutine and no worker callback of
      any earlier one is left. */
  lemma LaunchIsAlone(states: seq<State>, events: seq<Event>, i: nat, p: nat)
    requires IsRun(states, events) && i < |events| && states[i + 1].Live(p) > states[i].Live(p)
    ensures p == states[i + 1].published.serial && states[i + 1].holder.Free? && !states[i + 1].stopped
    ensures forall q :: states[i].Live(q) == 0 && states[i].OwnCallbacks(q) == {}
  {
    RunInv(states, events, i);
    NobodyLeft(states[i]);
  }
}
