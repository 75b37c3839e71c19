/** The engine object (internal/prewarm/engine.go and discovery.go): its fields,
    and the regions it executes under its lock, each proved to have the effect
    that EngineState gives it. A method takes the clock reading of its region as
    `now`, and a Host reply that was read before the region as a parameter. */
module TicketEngine {
  import opened Base
  import opened PrewarmConfig
  import opened ProbeBudget
  import opened ProxyPool
  import opened Completions
  import opened EngineState
  import opened EngineInvariants
  import opened Discovering
  import Text

  /** One record's turn in the scheduler's pass. */
  function DueNext(cfg: Config, e: State, k: Key, now: Time): State {
    if k in e.records && Due(cfg, e.records[k], now) then EngineState.Enqueue(e, k, now) else e
  }

  lemma {:induction false} DueStep(cfg: Config, e: State, order: seq<Key>, k: Key, now: Time)
    ensures EnqueueDue(cfg, e, order + [k], now) == DueNext(cfg, EnqueueDue(cfg, e, order, now), k, now)
    decreases |order|
  {
    if order == [] {
      assert order + [k] == [k] && [k][1..] == [];
    } else {
      var x := order[0];
      assert (order + [k])[0] == x && (order + [k])[1..] == order[1..] + [k];
      DueStep(cfg, DueNext(cfg, e, x, now), order[1..], k, now);
    }
  }

  lemma {:induction false} DueKeepsKeys(cfg: Config, e: State, order: seq<Key>, now: Time)
    ensures EnqueueDue(cfg, e, order, now).records.Keys == e.records.Keys
    decreases |order|
  {
    if order != [] {
      EnqueueShape(e, order[0], now);
      DueKeepsKeys(cfg, DueNext(cfg, e, order[0], now), order[1..], now);
    }
  }

  /** A second verdict against the same observation changes nothing more. */
  lemma InvalidateTwice(e: State, o: Observation, now: Time)
    ensures Invalidate(Invalidate(e, o, now), o, now) == Invalidate(e, o, now)
    ensures Invalidate(e, o, now).plans == e.plans && Invalidate(e, o, now).requests == e.requests
  {
    if Invalidate(e, o, now) != e {
      var e1 := Withdraw(e, o.key);
      var e2 := e1.(records := e1.records[o.key := e1.records[o.key].(cooldown := 0)]);
      EnqueueShape(e2, o.key, now);
    }
  }

  lemma AvailableIsFirst(p: Pool, d: nat, now: Time)
    requires p.nodes != [] && d <= |p.nodes|
    requires forall k | 0 <= k < d :: p.Cooling(Slot(p, k), now)
    requires d < |p.nodes| ==> !p.Cooling(Slot(p, d), now)
    ensures FirstAvailable(p, 0, now) == d
  {
  }

  /** The record is running, and its notes are cleared. */
  function Started(e: State, k: Key): State
    requires k in e.records
  {
    e.(records := e.records[k := e.records[k].(running := true)], lastProxy := e.lastProxy[k := -1],
       lastFailure := e.lastFailure[k := ""])
  }

  function Stopped(e: State, k: Key): State
    requires k in e.records
  {
    e.(records := e.records[k := e.records[k].(running := false)])
  }

  function Sent(e: State, j: Job): State {
    e.(queue := e.queue + [j], enqueued := e.enqueued + 1)
  }

  /** Starting, sending, and taking the start back when the queue is full. */
  lemma EnqueueIs(e: State, k: Key, now: Time)
    requires CanEnqueue(e, k, now)
    ensures EngineState.Enqueue(e, k, now)
         == if |e.queue| < e.capacity then Sent(Started(e, k), Job(k, e.records[k].epoch, e.enqueued))
            else Stopped(Started(e, k), k)
  {
    assert Stopped(Started(e, k), k).records == e.records;
  }

  ghost predicate Blank(rows: map<Key, Record>, plans: map<Key, string>) {
    rows.Keys == plans.Keys && forall k | k in rows :: rows[k] == Record(None, 0, false, 0)
  }

  predicate NamedBy(accounts: seq<Account>, k: Key) {
    exists a <- accounts :: a.authID == k.authID && k.model in a.models
  }

  ghost predicate Planned(plans: map<Key, string>, accounts: seq<Account>) {
    && (forall k :: k in plans <==> NamedBy(accounts, k))
    && (forall k | k in plans :: plans[k] == ConfiguredPlan(accounts, k))
  }

  lemma PlannedStep(accounts: seq<Account>, i: nat, before: map<Key, string>, after: map<Key, string>)
    requires i < |accounts| && Planned(before, accounts[..i]) && Adds(before, after, accounts[i], accounts[i].models)
    ensures Planned(after, accounts[..i + 1])
  {
    var front, all := accounts[..i], accounts[..i + 1];
    assert all == front + [accounts[i]] && all[..|all| - 1] == front;
    forall k
      ensures k in after <==> NamedBy(all, k)
      ensures k in after ==> after[k] == ConfiguredPlan(all, k)
    {
      assert NamedBy(front, k) ==> NamedBy(all, k);
    }
  }

  lemma InitialFrom(cfg: Config, urls: seq<string>, plans: map<Key, string>, records: map<Key, Record>)
    requires Planned(plans, cfg.accounts) && Blank(records, plans)
    ensures Initial(cfg, urls).plans == plans && Initial(cfg, urls).records == records
  {
    assert plans.Keys == ConfiguredKeys(cfg);
  }

  class Engine {
    const cfg: Config
    const decode: Decoder
    const capacity: nat
    var budget: Budget
    var closed: bool
    var discoveryCount: int
    var owned: set<Key>
    var ownsAllModels: bool
    var epoch: nat
    var plans: map<Key, string>
    var records: map<Key, Record>
    var requests: map<string, Observation>
    var queue: seq<Job>
    var version: nat
    var enqueued: nat
    var proxies: seq<Node>
    var nextProxy: nat
    var goodProxy: int
    var lastProxy: map<Key, int>
    var lastFailure: map<Key, string>

    ghost function Abs(): State
      reads this
    {
      State.State(closed, discoveryCount, owned, ownsAllModels, epoch, plans, records, requests, queue, capacity,
                  version, enqueued, Pool(proxies, nextProxy, goodProxy), lastProxy, lastFailure)
    }

    constructor New(cfg: Config, urls: seq<string>, decode: Decoder)
      requires cfg.Valid() && urls != []
      ensures Abs() == Initial(cfg, urls) && this.cfg == cfg && this.decode == decode
      ensures WellFormed(cfg, Abs())
      ensures fresh(budget) && budget.timestamps == []
    {
      this.cfg, this.decode := cfg, decode;
      closed, discoveryCount, owned, ownsAllModels, epoch := false, -1, {}, false, 0;
      requests, queue, version, enqueued := map[], [], 0, 0;
      proxies := seq(|urls|, i requires 0 <= i < |urls| => Node(urls[i], 0, 0, 0));
      nextProxy, goodProxy, lastProxy, lastFailure := 0, -1, map[], map[];
      var configured, rows := Configure(cfg);
      plans, records := configured, rows;
      capacity := if cfg.AutoAccounts() then MAX_ACCOUNTS * |cfg.models| else |configured|;
      budget := new Budget();
      new;
      InitialFrom(cfg, urls, plans, records);
      InitialWellFormed(cfg, urls);
    }

    static method Configure(cfg: Config) returns (configured: map<Key, string>, rows: map<Key, Record>)
      requires cfg.Valid()
      ensures Planned(configured, cfg.accounts) && Blank(rows, configured)
    {
      configured, rows := map[], map[];
      for i := 0 to |cfg.accounts|
        invariant Planned(configured, cfg.accounts[..i]) && Blank(rows, configured)
      {
        ghost var before := configured;
        configured, rows := AddModels(cfg.accounts[i], configured, rows);
        PlannedStep(cfg.accounts, i, before, configured);
      }
      assert cfg.accounts[..|cfg.accounts|] == cfg.accounts;
    }

    static method AddModels(a: Account, planned: map<Key, string>, blank: map<Key, Record>)
      returns (configured: map<Key, string>, rows: map<Key, Record>)
      requires Blank(blank, planned)
      ensures Adds(planned, configured, a, a.models) && Blank(rows, configured)
    {
      configured, rows := planned, blank;
      for j := 0 to |a.models|
        invariant Adds(planned, configured, a, a.models[..j]) && Blank(rows, configured)
      {
        var k := Key(a.authID, a.models[j]);
        AddsStep(planned, configured, a, a.models, j);
        configured := configured[k := a.plan];
        rows := rows[k := Record(None, 0, false, 0)];
      }
      assert a.models[..|a.models|] == a.models;
    }

    method SetBudget(b: Budget)
      modifies this`budget
      ensures budget == b
    {
      budget := b;
    }

    method Close()
      modifies this`closed
      ensures Abs() == EngineState.Close(old(Abs()))
    {
      closed := true;
    }

    method Manages(k: Key) returns (managed: bool)
      ensures managed == EngineState.Manages(cfg, Abs(), k)
    {
      if cfg.AutoAccounts() {
        var matches := false;
        for i := 0 to |cfg.models|
          invariant matches <==> k.model in cfg.models[..i]
        {
          if cfg.models[i] == k.model {
            matches := true;
            assert cfg.models[..|cfg.models|] == cfg.models;
            break;
          }
        }
        assert cfg.models[..|cfg.models|] == cfg.models;
        if !matches {
          return false;
        }
        if |cfg.accounts| == 0 {
          return true;
        }
        for i := 0 to |cfg.accounts|
          invariant forall j | 0 <= j < i :: !(cfg.accounts[j].authID != "" && cfg.accounts[j].authID == k.authID)
        {
          if cfg.accounts[i].authID != "" && cfg.accounts[i].authID == k.authID {
            return true;
          }
        }
        return discoveryCount < 0 || ownsAllModels || k in owned || (k in plans && plans[k] != "");
      }
      return k in plans;
    }

    // ---- Scheduling ------------------------------------------------------

    method EnqueueLocked(k: Key, now: Time)
      modifies this`records, this`queue, this`enqueued, this`lastProxy, this`lastFailure
      ensures Abs() == EngineState.Enqueue(old(Abs()), k, now)
    {
      if closed || k !in plans || k !in records || records[k].running || now < records[k].cooldown {
        return;
      }
      EnqueueIs(Abs(), k, now);
      var r := records[k];
      StartLocked(k);
      var sent := Send(Job(k, r.epoch, enqueued));
      if !sent {
        records := records[k := records[k].(running := false)];
      }
    }

    method StartLocked(k: Key)
      requires k in records
      modifies this`records, this`lastProxy, this`lastFailure
      ensures Abs() == Started(old(Abs()), k)
    {
      records := records[k := records[k].(running := true)];
      lastProxy := lastProxy[k := -1];
      lastFailure := lastFailure[k := ""];
    }

    /** The queue takes a job if it has room, and nobody waits. */
    method Send(j: Job) returns (sent: bool)
      modifies this`queue, this`enqueued
      ensures sent == (|old(queue)| < capacity)
      ensures Abs() == if sent then Sent(old(Abs()), j) else old(Abs())
    {
      if |queue| >= capacity {
        return false;
      }
      queue := queue + [j];
      enqueued := enqueued + 1;
      return true;
    }

    method PurgeRequests(now: Time)
      modifies this`requests
      ensures Abs() == EngineState.PurgeRequests(old(Abs()), now)
    {
      var ids := requests.Keys;
      while ids != {}
        invariant ids <= requests.Keys <= old(requests).Keys
        invariant forall id | id in old(requests) ::
                  id in requests <==> id in ids || now <= old(requests)[id].created + 2 * HOUR
        invariant forall id | id in requests :: requests[id] == old(requests)[id]
        decreases |ids|
      {
        var id :| id in ids;
        if now > requests[id].created + 2 * HOUR {
          requests := requests - {id};
        }
        ids := ids - {id};
      }
      assert requests == EngineState.PurgeRequests(old(Abs()), now).requests;
    }

    /** The records are visited in an order that the language leaves open; `order`
        is the one that was taken. */
    method Schedule(now: Time) returns (ghost order: seq<Key>)
      modifies this`requests, this`records, this`queue, this`enqueued, this`lastProxy, this`lastFailure
      ensures Visits(order, old(records).Keys)
      ensures Abs() == EngineState.Schedule(cfg, old(Abs()), order, now)
    {
      PurgeRequests(now);
      ghost var purged := Abs();
      order := [];
      var keys := records.Keys;
      while keys != {}
        invariant keys <= old(records).Keys && records.Keys == old(records).Keys
        invariant forall k :: k in old(records).Keys - keys <==> k in order
        invariant forall i, j | 0 <= i < j < |order| :: order[i] != order[j]
        invariant Abs() == EnqueueDue(cfg, purged, order, now)
        decreases |keys|
      {
        var k :| k in keys;
        DueStep(cfg, purged, order, k, now);
        DueKeepsKeys(cfg, purged, order + [k], now);
        var r := records[k];
        if r.value.None? || r.value.value.expires <= now + cfg.refreshBefore {
          EnqueueLocked(k, now);
        }
        assert k !in order;
        order := order + [k];
        keys := keys - {k};
      }
    }

    // ---- Workers ---------------------------------------------------------

    method Finish(j: Job, reason: string, now: Time) returns (proxyIndex: int, failure: string)
      modifies this`records, this`lastProxy, this`lastFailure
      ensures Abs() == Epilogue(cfg, old(Abs()), j, reason, now)
      ensures proxyIndex == (if j.key in old(lastProxy) then old(lastProxy)[j.key] else -1)
      ensures failure == (if j.key in old(lastFailure) then old(lastFailure)[j.key] else "")
    {
      Rest(j, reason, now);
      proxyIndex, failure := -1, "";
      if j.key in lastProxy {
        proxyIndex := lastProxy[j.key];
      }
      if j.key in lastFailure {
        failure := lastFailure[j.key];
      }
      if j.key !in plans {
        records := records - {j.key};
        lastProxy := lastProxy - {j.key};
        lastFailure := lastFailure - {j.key};
      }
    }

    method Rest(j: Job, reason: string, now: Time)
      modifies this`records
      ensures records == Rested(cfg, old(Abs()), j, reason, now)
    {
      if j.key in records {
        var r := records[j.key].(running := false);
        if reason != "ready" && !closed && r.epoch == j.epoch {
          r := r.(cooldown := now + cfg.cooldown);
        }
        records := records[j.key := r];
      }
    }

    method Active(j: Job) returns (active: bool)
      ensures active == EngineState.Active(Abs(), j)
    {
      active := !closed && j.key in plans && j.key in records && records[j.key].epoch == j.epoch;
    }

    /** A closed engine does not ask the budget. */
    method ReserveProbe(now: Time) returns (granted: bool)
      modifies budget
      ensures granted == (!closed && Grants(old(budget.timestamps), Call(now, cfg.maxProbesPerHour)))
      ensures budget.timestamps
           == if closed then old(budget.timestamps) else Charge(old(budget.timestamps), Call(now, cfg.maxProbesPerHour))
    {
      if closed {
        return false;
      }
      granted := budget.Allow(now, cfg.maxProbesPerHour);
    }

    method NoteFailure(k: Key, reason: string)
      modifies this`lastFailure
      ensures Abs() == EngineState.NoteFailure(old(Abs()), k, reason)
    {
      lastFailure := lastFailure[k := reason];
    }

    method ChooseProxyLocked(now: Time) returns (index: int, url: string)
      requires Abs().pool.Indexed()
      modifies this`nextProxy, this`goodProxy
      ensures (Abs().pool, index) == Choose(old(Abs()).pool, now)
      ensures Abs() == old(Abs()).(pool := Abs().pool)
      ensures url == if index < 0 then "" else proxies[index].url
    {
      if goodProxy >= 0 && now < proxies[goodProxy].cooldown {
        goodProxy := -1;
      }
      if goodProxy >= 0 {
        return goodProxy, proxies[goodProxy].url;
      }
      ghost var p := Abs().pool;
      var i := 0;
      while i < |proxies|
        invariant 0 <= i <= |proxies| && Abs() == old(Abs()).(pool := p)
        invariant forall k: nat | k < i :: p.Cooling(Slot(p, k), now)
      {
        var idx := (nextProxy + i) % |proxies|;
        if now < proxies[idx].cooldown {
          i := i + 1;
          continue;
        }
        AvailableIsFirst(p, i, now);
        nextProxy := (idx + 1) % |proxies|;
        return idx, proxies[idx].url;
      }
      AvailableIsFirst(p, |proxies|, now);
      return -1, "";
    }

    /** The region of collect that chooses a proxy and notes it for the key. */
    method ChooseFor(k: Key, now: Time) returns (index: int, url: string)
      requires Abs().pool.Indexed()
      modifies this`nextProxy, this`goodProxy, this`lastProxy
      ensures (Abs(), index) == ChooseProxy(old(Abs()), k, now)
      ensures url == if index < 0 then "" else old(proxies)[index].url
    {
      index, url := ChooseProxyLocked(now);
      if index >= 0 {
        lastProxy := lastProxy[k := index];
      }
    }

    method MarkProxy(index: int, ok: bool, now: Time)
      modifies this`proxies, this`goodProxy
      ensures Abs() == EngineState.MarkProxy(cfg, old(Abs()), index, ok, now)
    {
      if index < 0 || index >= |proxies| {
        return;
      }
      var n := proxies[index];
      if ok {
        proxies := proxies[index := Node(n.url, n.successes + 1, 0, 0)];
        goodProxy := index;
        return;
      }
      var failures := n.failures + 1;
      var backoff := failures * MINUTE;
      if backoff > cfg.cooldown {
        backoff := cfg.cooldown;
      }
      proxies := proxies[index := Node(n.url, n.successes, failures, now + backoff)];
      if goodProxy == index {
        goodProxy := -1;
      }
    }

    /** The region of collect that publishes a verified candidate. */
    method PublishLocked(j: Job, plan: string, state: string, scope: string, captured: Time, now: Time)
      returns (ready: bool)
      modifies this`version, this`records, this`lastFailure
      ensures ready == CanPublish(cfg, old(Abs()), j, plan, captured, now)
      ensures Abs() == if ready then Publish(cfg, old(Abs()), j, state, scope, captured) else old(Abs())
    {
      var current := if j.key in plans then plans[j.key] else "";
      if closed || j.key !in records || records[j.key].epoch != j.epoch || current != plan
         || captured + cfg.ttl <= now {
        return false;
      }
      version := version + 1;
      var r := records[j.key];
      r := r.(value := Some(Ticket(state, scope, version, captured + cfg.ttl)), cooldown := 0);
      records := records[j.key := r];
      lastFailure := lastFailure[j.key := ""];
      return true;
    }

    // ---- Requests --------------------------------------------------------

    method BumpEpochLocked(k: Key)
      requires k in records
      modifies this`epoch, this`records
      ensures epoch == NextEpoch(old(Abs()), old(records)[k])
      ensures records == old(records)[k := old(records)[k].(epoch := epoch)]
    {
      if epoch < records[k].epoch {
        epoch := records[k].epoch;
      }
      epoch := epoch + 1;
      records := records[k := records[k].(epoch := epoch)];
    }

    method WithdrawLocked(k: Key)
      requires k in records
      modifies this`epoch, this`records
      ensures Abs() == Withdraw(old(Abs()), k)
    {
      records := records[k := records[k].(value := None)];
      BumpEpochLocked(k);
    }

    method TombstoneLocked(id: string, now: Time) returns (rebound: bool)
      modifies this`requests
      ensures rebound == (id in old(requests)) && Abs() == Tombstone(old(Abs()), id, now)
    {
      rebound := id in requests;
      if rebound {
        requests := requests[id := requests[id].(observer := None, created := now)];
      }
    }

    method DropStaleLocked(k: Key, reply: Option<Identity>, now: Time)
      requires k in plans && k in records
      modifies this`epoch, this`records
      ensures Abs() == DropStale(cfg, old(Abs()), k, reply, now)
    {
      var value := records[k].value;
      if value.None? {
        return;
      }
      var t := value.value;
      if reply.None? || t.scope != reply.value.scope
         || !IdentityPlanMatches(cfg, reply.value.plan, plans[k]) || t.expires <= now {
        WithdrawLocked(k);
      }
    }

    method OfferLocked(id: string, k: Key, rebound: bool, callerState: bool, now: Time) returns (ticket: Option<Ticket>)
      requires k in records
      modifies this`requests, this`records, this`queue, this`enqueued, this`lastProxy, this`lastFailure
      ensures (Abs(), ticket)
           == Offer(cfg, old(Abs()), id, k, if rebound then None else Some(NewParser(k.model)), callerState, now)
    {
      if records[k].value.None? {
        EnqueueLocked(k, now);
        return None;
      }
      if callerState {
        return None;
      }
      if |requests| >= cfg.maxPending {
        return None;
      }
      var t := records[k].value.value;
      var observer := NewParser(k.model);
      requests := requests[id := Observation(k, t.version, if rebound then None else Some(observer), now)];
      return Some(t);
    }

    /** The locked section of Bind; the source returns the ticket's state. */
    method BindLocked(id: string, k: Key, reply: Option<Identity>, callerState: bool, now: Time)
      returns (ticket: Option<Ticket>)
      modifies this`requests, this`epoch, this`records, this`queue, this`enqueued, this`lastProxy, this`lastFailure
      ensures (Abs(), ticket) == EngineState.Bind(cfg, old(Abs()), id, k, reply, callerState, now)
    {
      var rebound := TombstoneLocked(id, now);
      if closed {
        return None;
      }
      if k !in plans || k !in records {
        return None;
      }
      DropStaleLocked(k, reply, now);
      ticket := OfferLocked(id, k, rebound, callerState, now);
    }

    method Bind(id: string, k: Key, reply: Option<Identity>, callerState: bool, now: Time)
      returns (ticket: Option<Ticket>)
      modifies this`requests, this`epoch, this`records, this`queue, this`enqueued, this`lastProxy, this`lastFailure
      ensures (Abs(), ticket) == BindWhole(cfg, old(Abs()), id, k, reply, callerState, now)
    {
      var managed := Manages(k);
      if id == "" || !managed {
        return None;
      }
      if k !in plans {
        return None;
      }
      ticket := BindLocked(id, k, Described(reply), callerState, now);
    }

    method InvalidateLocked(o: Observation, now: Time)
      modifies this`epoch, this`records, this`queue, this`enqueued, this`lastProxy, this`lastFailure
      ensures Abs() == Invalidate(old(Abs()), o, now)
    {
      if o.observer.None? {
        return;
      }
      if o.key !in records || records[o.key].value.None? || records[o.key].value.value.version != o.version {
        return;
      }
      WithdrawLocked(o.key);
      records := records[o.key := records[o.key].(cooldown := 0)];
      EnqueueLocked(o.key, now);
    }

    method Headers(id: string, h: Headers, now: Time)
      modifies this`epoch, this`records, this`queue, this`enqueued, this`lastProxy, this`lastFailure
      ensures Abs() == OnHeaders(old(Abs()), id, h, now)
    {
      if id !in requests {
        return;
      }
      var o := requests[id];
      var plan := if o.key in plans then plans[o.key] else "";
      ghost var e := Abs();
      InvalidateTwice(e, o, now);
      ghost var revoking := false;
      var names := h.Keys;
      while names != {}
        invariant names <= h.Keys && plans == old(plans) && requests == old(requests)
        invariant Abs() == if revoking then Invalidate(e, o, now) else e
        invariant revoking <==> exists name | name in h && name !in names :: RevokingValues(name, h[name], plan)
        decreases |names|
      {
        var name :| name in names;
        var found := OneHeader(o, name, h[name], plan, now);
        assert RevokingValues(name, h[name], plan) <==> found;
        revoking := revoking || found;
        names := names - {name};
      }
    }

    /** The verdicts of one header, as many as its values call for. */
    method OneHeader(o: Observation, name: string, values: seq<string>, plan: string, now: Time) returns (found: bool)
      modifies this`epoch, this`records, this`queue, this`enqueued, this`lastProxy, this`lastFailure
      ensures found == RevokingValues(name, values, plan)
      ensures Abs() == if found then Invalidate(old(Abs()), o, now) else old(Abs())
    {
      InvalidateTwice(Abs(), o, now);
      found := false;
      if Text.EqualFold(name, PLAN_HEADER) {
        for i := 0 to |values|
          invariant found <==> exists j | 0 <= j < i :: !PlanMatches(values[j], plan)
          invariant Abs() == if found then Invalidate(old(Abs()), o, now) else old(Abs())
        {
          if !PlanMatches(values[i], plan) {
            InvalidateLocked(o, now);
            found := true;
          }
        }
      }
      ghost var byPlan := found;
      if Text.EqualFold(name, STATE_HEADER) {
        if |values| > 1 {
          InvalidateLocked(o, now);
          found := true;
        }
        for i := 0 to |values|
          invariant found <==> byPlan || |values| > 1 || exists j | 0 <= j < i :: |values[j]| == 312
          invariant Abs() == if found then Invalidate(old(Abs()), o, now) else old(Abs())
        {
          if |values[i]| == 312 {
            InvalidateLocked(o, now);
            found := true;
          }
        }
      }
    }

    /** Stores the observer's new state and acts on its verdict. */
    method ObserveLocked(id: string, p: Parser, now: Time)
      requires id in requests
      modifies this`requests, this`epoch, this`records, this`queue, this`enqueued, this`lastProxy, this`lastFailure
      ensures Abs() == Observed(old(Abs()), id, p, now)
    {
      var o := requests[id].(observer := Some(p));
      requests := requests[id := o];
      if p.Mismatch() {
        InvalidateLocked(o, now);
      }
    }

    method Chunk(id: string, bytes: Bytes, now: Time)
      modifies this`requests, this`epoch, this`records, this`queue, this`enqueued, this`lastProxy, this`lastFailure
      ensures Abs() == OnChunk(old(Abs()), id, bytes, decode, now)
    {
      if id !in requests || requests[id].observer.None? {
        return;
      }
      ObserveLocked(id, AfterFeed(requests[id].observer.value, decode, bytes), now);
    }

    method JSON(id: string, bytes: Bytes, now: Time)
      modifies this`requests, this`epoch, this`records, this`queue, this`enqueued, this`lastProxy, this`lastFailure
      ensures Abs() == OnJSON(old(Abs()), id, bytes, decode, now)
    {
      if id !in requests || requests[id].observer.None? {
        return;
      }
      ObserveLocked(id, AfterJSON(requests[id].observer.value, decode, bytes), now);
    }

    method Complete(id: string, now: Time)
      modifies this`requests, this`epoch, this`records, this`queue, this`enqueued, this`lastProxy, this`lastFailure
      ensures Abs() == OnComplete(old(Abs()), id, decode, now)
    {
      if id !in requests || requests[id].observer.None? {
        return;
      }
      ObserveLocked(id, AfterFinish(requests[id].observer.value, decode), now);
      requests := requests - {id};
    }

    // ---- Discovery -------------------------------------------------------

    /** Checks a snapshot and gathers what it selects, without the lock. */
    method ReadSnapshot(accounts: seq<Account>)
      returns (ok: bool, selected: set<Key>, desired: map<Key, string>, eligible: nat)
      ensures ok <==> ValidSnapshot(accounts)
      ensures ok ==> selected == SelectedKeys(cfg, accounts) && desired == Desired(cfg, accounts)
      ensures ok ==> eligible == Eligible(cfg, accounts)
    {
      selected, desired, eligible := {}, map[], 0;
      if |accounts| > MAX_ACCOUNTS {
        return false, selected, desired, eligible;
      }
      var ids := {};
      for i := 0 to |accounts|
        invariant Gathered(cfg, accounts[..i], ids, selected, desired, eligible)
      {
        var a := accounts[i];
        if !ValidAuthID(a.authID) || a.authID in ids || (a.plan != "" && a.plan != "pro" && a.plan != "team") {
          Unsound(accounts, i);
          return false, selected, desired, eligible;
        }
        ids, selected, desired, eligible := ReadAccount(a, accounts[..i], ids, selected, desired, eligible);
        assert accounts[..i + 1] == accounts[..i] + [a];
      }
      assert accounts[..|accounts|] == accounts;
      return true, selected, desired, eligible;
    }

    method ReadAccount(a: Account, ghost seen: seq<Account>, ids0: set<string>, selected0: set<Key>,
                       desired0: map<Key, string>, eligible0: nat)
      returns (ids: set<string>, selected: set<Key>, desired: map<Key, string>, eligible: nat)
      requires Gathered(cfg, seen, ids0, selected0, desired0, eligible0)
      requires ValidAuthID(a.authID) && a.authID !in ids0 && (a.plan == "" || KnownPlan(a.plan))
      ensures Gathered(cfg, seen + [a], ids, selected, desired, eligible)
    {
      ids, selected, desired, eligible := ids0 + {a.authID}, selected0, desired0, eligible0;
      if cfg.Selected(a) {
        selected := SelectModels(a.authID, selected0);
        if a.plan != "" {
          eligible := eligible + 1;
          desired := PlanModels(a, desired0);
        }
      }
      GatheredStep(cfg, seen, a, ids, selected, desired, eligible);
    }

    method SelectModels(id: string, selected0: set<Key>) returns (selected: set<Key>)
      ensures AddsKeys(selected0, selected, id, cfg.models)
    {
      selected := selected0;
      for j := 0 to |cfg.models|
        invariant AddsKeys(selected0, selected, id, cfg.models[..j])
      {
        AddsKeysStep(selected0, selected, id, cfg.models, j);
        selected := selected + {Key(id, cfg.models[j])};
      }
      assert cfg.models[..|cfg.models|] == cfg.models;
    }

    method PlanModels(a: Account, desired0: map<Key, string>) returns (desired: map<Key, string>)
      ensures Adds(desired0, desired, a, cfg.models)
    {
      desired := desired0;
      for j := 0 to |cfg.models|
        invariant Adds(desired0, desired, a, cfg.models[..j])
      {
        AddsStep(desired0, desired, a, cfg.models, j);
        desired := desired[Key(a.authID, cfg.models[j]) := a.plan];
      }
      assert cfg.models[..|cfg.models|] == cfg.models;
    }

    method ClaimSelected(selected: set<Key>)
      requires |owned| <= OWNERSHIP_LIMIT
      modifies this`owned, this`ownsAllModels
      ensures (owned, ownsAllModels) == OwnedWith(cfg, old(Abs()), selected)
    {
      if |cfg.accounts| == 0 || ownsAllModels {
        return;
      }
      var todo := selected;
      while todo != {}
        invariant todo <= selected && !ownsAllModels && |owned| <= OWNERSHIP_LIMIT
        invariant owned == old(owned) + (selected - todo)
        decreases |todo|
      {
        var k :| k in todo;
        if |owned| >= OWNERSHIP_LIMIT && k !in owned {
          Overflows(owned, k, old(owned) + selected);
          ownsAllModels, owned := true, {};
          return;
        }
        owned := owned + {k};
        todo := todo - {k};
      }
    }

    /** Clears a record whose plan goes away or changes; `known` says whether the
        key gets another plan. */
    method RetireLocked(k: Key, known: bool)
      requires k in records
      modifies this`records, this`epoch, this`lastProxy, this`lastFailure
      ensures Abs() == Retired(old(Abs()), k, known)
    {
      WithdrawLocked(k);
      records := records[k := records[k].(cooldown := 0)];
      if !known && !records[k].running {
        records := records - {k};
        lastProxy := lastProxy - {k};
        lastFailure := lastFailure - {k};
      }
    }

    /** One plan's turn in the loop that withdraws plans. */
    method WithdrawPlan(k: Key, desired: map<Key, string>)
      requires k in plans
      modifies this`plans, this`records, this`epoch, this`lastProxy, this`lastFailure
      ensures Abs() == VisitedPlan(old(Abs()), desired, k)
    {
      if k in desired && desired[k] == plans[k] {
        return;
      }
      if k in records {
        RetireLocked(k, k in desired);
      }
      plans := plans - {k};
    }

    method WithdrawPlans(desired: map<Key, string>)
      modifies this`plans, this`records, this`epoch, this`lastProxy, this`lastFailure
      ensures Withdrawing(old(Abs()), Abs(), desired, {})
    {
      var todo := plans.Keys;
      ghost var e := Abs();
      WithdrawingStart(e, desired);
      while todo != {}
        invariant Withdrawing(e, Abs(), desired, todo) && todo <= plans.Keys
        decreases |todo|
      {
        var k :| k in todo;
        ghost var mid := Abs();
        WithdrawPlan(k, desired);
        VisitedPlanVisits(mid, desired, k);
        WithdrawingStep(e, mid, Abs(), desired, todo, k);
        StillPlanned(mid, Abs(), todo, k);
        todo := todo - {k};
      }
    }

    /** One plan's turn in the loop that admits plans. */
    method AdmitPlan(k: Key, plan: string)
      requires plan != ""
      modifies this`plans, this`records, this`epoch
      ensures Abs() == AdmittedPlan(old(Abs()), k, plan)
    {
      if k in plans && plans[k] == plan {
        return;
      }
      if k !in records {
        records := records[k := Record(None, 0, false, 0)];
      }
      RenewLocked(k);
      plans := plans[k := plan];
    }

    method RenewLocked(k: Key)
      requires k in records
      modifies this`records, this`epoch
      ensures Abs() == Renewal(old(Abs()), k)
    {
      records := records[k := records[k].(value := None, cooldown := 0)];
      BumpEpochLocked(k);
    }

    method AdmitPlans(desired: map<Key, string>)
      requires forall k | k in desired :: desired[k] != ""
      modifies this`plans, this`records, this`epoch
      ensures Admitting(old(Abs()), Abs(), desired, {})
    {
      var todo := desired.Keys;
      ghost var e := Abs();
      AdmittingStart(e, desired);
      while todo != {}
        invariant Admitting(e, Abs(), desired, todo) && todo <= desired.Keys
        decreases |todo|
      {
        var k :| k in todo;
        ghost var mid := Abs();
        AdmitPlan(k, desired[k]);
        AdmittedPlanAdmits(mid, desired, k);
        AdmittingStep(e, mid, Abs(), desired, todo, k);
        todo := todo - {k};
      }
    }

    /** Applies a discovery snapshot, or rejects it as a whole. */
    method ApplyAccounts(accounts: seq<Account>) returns (ok: bool)
      requires |owned| <= OWNERSHIP_LIMIT
      modifies this`owned, this`ownsAllModels, this`plans, this`records, this`epoch, this`lastProxy, this`lastFailure,
               this`discoveryCount
      ensures ok <==> ValidSnapshot(accounts)
      ensures Snapshot(cfg, old(Abs()), accounts, Abs())
      ensures !ok || old(closed) ==> Abs() == old(Abs())
    {
      var selected, desired, eligible;
      ok, selected, desired, eligible := ReadSnapshot(accounts);
      if !ok || closed {
        return;
      }
      ClaimSelected(selected);
      ghost var claimed := Abs();
      WithdrawPlans(desired);
      ghost var mid := Abs();
      AdmitPlans(desired);
      ghost var admitted := Abs();
      discoveryCount := eligible;
      LoopsApply(cfg, old(Abs()), claimed, mid, admitted, Abs(), accounts);
    }
  }
}
