/** The process-wide variables of the plugin and the entry points that change
    them (cmd/plugin/main.go), each as it runs when it holds the lifecycle lock
    and the goroutines it waits for return. Lifecycle has the interleavings. */
module PluginRuntime {
  import opened Base
  import opened PrewarmConfig
  import opened ProbeBudget
  import opened Completions
  import opened EngineState
  import opened TicketEngine
  import opened Interceptor
  import C = PassiveCache

  const DEFAULT_MAX_ENTRIES := 10_000
  const DEFAULT_MAX_PENDING_ENTRIES := 20_000

  /** The prewarm section of a configuration, validated, with its proxies loaded. */
  datatype Prewarm = Prewarm(cfg: Config, urls: seq<string>)

  datatype Settings = Settings(maxEntries: int, maxPendingEntries: int, acceptedLengths: seq<int>,
                               prewarm: Option<Prewarm>)

  ghost predicate Loadable(s: Settings) {
    s.prewarm.Some? ==> s.prewarm.value.cfg.Valid() && s.prewarm.value.urls != []
  }

  class Runtime {
    const budget: Budget
    const decode: Decoder
    var plugin: Plugin
    var stopped: bool
    var stored: Option<nat>
    var open: bool

    ghost predicate Valid()
      reads this, plugin, plugin.cache
    {
      plugin.Valid()
    }

    constructor (decode: Decoder)
      ensures Valid() && !stopped && stored.None? && !open
      ensures fresh(plugin) && plugin.warmer == null && fresh(budget) && budget.timestamps == []
    {
      this.decode, stopped, stored, open := decode, false, None, false;
      budget := new Budget();
      var cache := new C.Cache(DEFAULT_MAX_ENTRIES, DEFAULT_MAX_PENDING_ENTRIES, []);
      plugin := new Plugin(cache);
    }

    static method NewPlugin(maxEntries: int, maxPendingEntries: int, acceptedLengths: seq<int>) returns (p: Plugin)
      ensures fresh(p) && fresh(p.cache) && p.Valid() && p.warmer == null
      ensures p.cache.Now() == C.State(map[], map[])
      ensures maxEntries >= 1 ==> p.cache.limits.maxEntries == maxEntries
      ensures maxPendingEntries >= 1 ==> p.cache.limits.maxPending == maxPendingEntries
    {
      var cache := new C.Cache(maxEntries, maxPendingEntries, acceptedLengths);
      p := new Plugin(cache);
    }

    method Init(host: Option<nat>)
      modifies this`stopped, this`stored, this`open
      ensures !stopped && stored == host && (open <==> host.Some?)
    {
      stopped := false;
      stored := host;
      open := host.Some?;
    }

    /** The plugin has an engine if the settings say so, in its initial state and on
        the budget that all engines share. */
    ghost predicate Assembled(p: Plugin, s: Settings)
      requires Loadable(s)
      reads p, p.warmer
    {
      && (p.warmer != null <==> s.prewarm.Some?)
      && (p.warmer != null ==>
            p.warmer.budget == budget && p.warmer.Abs() == Initial(s.prewarm.value.cfg, s.prewarm.value.urls))
    }

    /** `request` is None when the request does not decode, is for an old schema or
        fails validation. */
    method Configure(request: Option<Settings>) returns (ok: bool)
      requires Valid() && (request.Some? ==> Loadable(request.value))
      modifies this`plugin, plugin.Warm()
      ensures Valid()
      ensures ok <==> !stopped && request.Some? && request.value.maxEntries >= 1 && request.value.maxPendingEntries >= 1
      ensures !ok ==>
                plugin == old(plugin) && (plugin.warmer != null ==> plugin.warmer.Abs() == old(plugin.warmer.Abs()))
      ensures ok ==> fresh(plugin) && plugin.cache.Now() == C.State(map[], map[])
      ensures ok && old(plugin.warmer) != null ==>
                old(plugin.warmer).Abs() == EngineState.Close(old(plugin.warmer.Abs()))
      ensures ok ==> Assembled(plugin, request.value)
      ensures budget.timestamps == old(budget.timestamps)
    {
      if stopped || request.None? {
        return false;
      }
      var settings := request.value;
      if settings.maxEntries < 1 || settings.maxPendingEntries < 1 {
        return false;
      }
      var next := Assemble(settings);
      Swap(next);
      return true;
    }

    method Assemble(settings: Settings) returns (next: Plugin)
      requires Loadable(settings)
      ensures fresh(next) && fresh(next.cache) && next.Valid() && next.cache.Now() == C.State(map[], map[])
      ensures Assembled(next, settings) && (next.warmer != null ==> fresh(next.warmer))
    {
      next := NewPlugin(settings.maxEntries, settings.maxPendingEntries, settings.acceptedLengths);
      if settings.prewarm.Some? {
        var warmer := new Engine.New(settings.prewarm.value.cfg, settings.prewarm.value.urls, decode);
        warmer.SetBudget(budget);
        next.SetPrewarm(warmer);
      }
    }

    /** Publishes a plugin and closes the one before it. */
    method Swap(next: Plugin)
      requires next != plugin && (next.warmer != null ==> next.warmer != plugin.warmer)
      modifies this`plugin, plugin.Warm()
      ensures plugin == next
      ensures old(plugin.warmer) != null ==> old(plugin.warmer).Abs() == EngineState.Close(old(plugin.warmer.Abs()))
    {
      var previous := plugin;
      plugin := next;
      previous.Close();
    }

    method Reset()
      requires Valid()
      modifies this`plugin, plugin.Warm()
      ensures Valid() && fresh(plugin) && plugin.warmer == null && plugin.cache.Now() == C.State(map[], map[])
      ensures old(plugin.warmer) != null ==> old(plugin.warmer).Abs() == EngineState.Close(old(plugin.warmer.Abs()))
    {
      var next := NewPlugin(DEFAULT_MAX_ENTRIES, DEFAULT_MAX_PENDING_ENTRIES, []);
      Swap(next);
    }

    method Shutdown()
      requires Valid()
      modifies this`plugin, this`stopped, this`stored, this`open, plugin.Warm()
      ensures Valid() && fresh(plugin) && plugin.warmer == null
      ensures stopped && !open && stored.None?
      ensures old(plugin.warmer) != null ==> old(plugin.warmer).Abs() == EngineState.Close(old(plugin.warmer.Abs()))
    {
      stopped := true;
      Reset();
      open := false;
      stored := None;
    }
  }
}
