/** The state of the verified-ticket engine and the effect of each region that
    internal/prewarm/engine.go and discovery.go execute under the engine lock.
    `now` is the clock reading of the region. */
module EngineState {
  import opened Base
  import opened PrewarmConfig
  import opened ProxyPool
  import opened Completions
  import Text

  const STATE_HEADER := "X-Codex-Turn-State"
  const PLAN_HEADER := "X-Codex-Plan-Type"

  datatype Identity = Identity(scope: string, plan: string)

  datatype Ticket = Ticket(state: string, scope: string, version: nat, expires: Time)

  /** `serial` numbers the jobs in the order they were enqueued. It has no
      counterpart in the source and no step reads it. */
  datatype Job = Job(key: Key, epoch: nat, serial: nat)

  /** An observation without an observer is a tombstone. */
  datatype Observation = Observation(key: Key, version: nat, observer: Option<Parser>, created: Time)

  datatype Record = Record(value: Option<Ticket>, epoch: nat, running: bool, cooldown: Time)

  datatype State = State(
    closed: bool,
    discoveryCount: int,
    owned: set<Key>,
    ownsAllModels: bool,
    epoch: nat,
    plans: map<Key, string>,
    records: map<Key, Record>,
    requests: map<string, Observation>,
    queue: seq<Job>,
    capacity: nat,
    version: nat,
    enqueued: nat,
    pool: Pool,
    lastProxy: map<Key, int>,
    lastFailure: map<Key, string>)
  {
    function PlanOf(k: Key): string {
      if k in plans then plans[k] else ""
    }

    predicate HasTicket(k: Key) {
      k in records && records[k].value.Some?
    }

    predicate Running(k: Key) {
      k in records && records[k].running
    }
  }

  /** The keys that the configuration names account by account. */
  function ConfiguredKeys(cfg: Config): set<Key> {
    set a, m | a in cfg.accounts && m in a.models :: Key(a.authID, m)
  }

  function ConfiguredPlan(accounts: seq<Account>, k: Key): string {
    if accounts == [] then ""
    else if accounts[|accounts| - 1].authID == k.authID && k.model in accounts[|accounts| - 1].models
    then accounts[|accounts| - 1].plan
    else ConfiguredPlan(accounts[..|accounts| - 1], k)
  }

  /** A new engine over a non-empty proxy list. */
  function Initial(cfg: Config, proxies: seq<string>): State {
    var plans := map k | k in ConfiguredKeys(cfg) :: ConfiguredPlan(cfg.accounts, k);
    State(false, -1, {}, false, 0, plans, map k | k in plans :: Record(None, 0, false, 0), map[], [],
          if cfg.AutoAccounts() then MAX_ACCOUNTS * |cfg.models| else |plans|, 0, 0, NewPool(proxies), map[], map[])
  }

  predicate Manages(cfg: Config, e: State, k: Key) {
    if cfg.AutoAccounts() then
      && k.model in cfg.models
      && (|| cfg.accounts == []
          || (exists selector <- cfg.accounts :: selector.authID != "" && selector.authID == k.authID)
          || e.discoveryCount < 0 || e.ownsAllModels || k in e.owned || e.PlanOf(k) != "")
    else k in e.plans
  }

  predicate IdentityPlanMatches(cfg: Config, raw: string, expected: string) {
    if cfg.AutoAccounts() then CanonicalPlan(raw) == expected else PlanMatches(raw, expected)
  }

  // ---- Scheduling --------------------------------------------------------

  function NextEpoch(e: State, r: Record): nat {
    (if e.epoch < r.epoch then r.epoch else e.epoch) + 1
  }

  predicate CanEnqueue(e: State, k: Key, now: Time) {
    !e.closed && k in e.plans && k in e.records && !e.records[k].running && e.records[k].cooldown <= now
  }

  function Enqueue(e: State, k: Key, now: Time): State {
    if !CanEnqueue(e, k, now) then e
    else
      var noted := e.(lastProxy := e.lastProxy[k := -1], lastFailure := e.lastFailure[k := ""]);
      if |e.queue| < e.capacity then
        noted.(records := e.records[k := e.records[k].(running := true)],
               queue := e.queue + [Job(k, e.records[k].epoch, e.enqueued)],
               enqueued := e.enqueued + 1)
      else noted
  }

  function PurgeRequests(e: State, now: Time): State {
    e.(requests := map id | id in e.requests && now <= e.requests[id].created + 2 * HOUR :: e.requests[id])
  }

  predicate Due(cfg: Config, r: Record, now: Time) {
    r.value.None? || r.value.value.expires <= now + cfg.refreshBefore
  }

  function EnqueueDue(cfg: Config, e: State, order: seq<Key>, now: Time): State
    decreases |order|
  {
    if order == [] then e
    else
      var k := order[0];
      EnqueueDue(cfg, if k in e.records && Due(cfg, e.records[k], now) then Enqueue(e, k, now) else e, order[1..], now)
  }

  /** One pass of the scheduler over the records, in some order. */
  function Schedule(cfg: Config, e: State, order: seq<Key>, now: Time): State {
    EnqueueDue(cfg, PurgeRequests(e, now), order, now)
  }

  /** An order in which the records can be visited. */
  ghost predicate Visits(order: seq<Key>, keys: set<Key>) {
    && (forall k :: k in keys <==> k in order)
    && (forall i, j | 0 <= i < j < |order| :: order[i] != order[j])
  }

  /** The records once the job is over: its record rests, and cools down after a
      failure. */
  function Rested(cfg: Config, e: State, j: Job, reason: string, now: Time): map<Key, Record> {
    if j.key !in e.records then e.records
    else
      var r := e.records[j.key].(running := false);
      e.records[j.key := if reason != "ready" && !e.closed && r.epoch == j.epoch then r.(cooldown := now + cfg.cooldown)
                         else r]
  }

  /** What a worker does after a job: the record rests, and goes away if the
      account is no longer managed. */
  function Epilogue(cfg: Config, e: State, j: Job, reason: string, now: Time): State {
    var k, rested := j.key, Rested(cfg, e, j, reason, now);
    if k in e.plans then e.(records := rested)
    else e.(records := rested - {k}, lastProxy := e.lastProxy - {k}, lastFailure := e.lastFailure - {k})
  }

  predicate Active(e: State, j: Job) {
    !e.closed && j.key in e.plans && j.key in e.records && e.records[j.key].epoch == j.epoch
  }

  function NoteFailure(e: State, k: Key, reason: string): State {
    e.(lastFailure := e.lastFailure[k := reason])
  }

  function ChooseProxy(e: State, k: Key, now: Time): (State, int)
    requires e.pool.Indexed()
  {
    var (pool, index) := Choose(e.pool, now);
    (if index >= 0 then e.(pool := pool, lastProxy := e.lastProxy[k := index]) else e.(pool := pool), index)
  }

  function MarkProxy(cfg: Config, e: State, index: int, ok: bool, now: Time): State {
    e.(pool := Mark(e.pool, index, ok, now, cfg.cooldown))
  }

  // ---- Publication -------------------------------------------------------

  predicate CanPublish(cfg: Config, e: State, j: Job, plan: string, captured: Time, now: Time) {
    && !e.closed
    && j.key in e.records
    && e.records[j.key].epoch == j.epoch
    && e.PlanOf(j.key) == plan
    && now < captured + cfg.ttl
  }

  function NewTicket(cfg: Config, e: State, state: string, scope: string, captured: Time): Ticket {
    Ticket(state, scope, e.version + 1, captured + cfg.ttl)
  }

  function Publish(cfg: Config, e: State, j: Job, state: string, scope: string, captured: Time): State
    requires j.key in e.records
  {
    var r := e.records[j.key];
    e.(version := e.version + 1,
       records := e.records[j.key := r.(value := Some(NewTicket(cfg, e, state, scope, captured)), cooldown := 0)],
       lastFailure := e.lastFailure[j.key := ""])
  }

  // ---- Requests ----------------------------------------------------------

  /** Clears a ticket and makes every outstanding job for it stale. */
  function Withdraw(e: State, k: Key): State
    requires k in e.records
  {
    var r := e.records[k];
    e.(epoch := NextEpoch(e, r), records := e.records[k := r.(value := None, epoch := NextEpoch(e, r))])
  }

  /** A described identity that no longer supports the ticket. */
  predicate Stale(cfg: Config, e: State, k: Key, t: Ticket, reply: Option<Identity>, now: Time) {
    || reply.None?
    || t.scope != reply.value.scope
    || !IdentityPlanMatches(cfg, reply.value.plan, e.PlanOf(k))
    || t.expires <= now
  }

  function Tombstone(e: State, id: string, now: Time): State {
    if id in e.requests then e.(requests := e.requests[id := e.requests[id].(observer := None, created := now)]) else e
  }

  function DropStale(cfg: Config, e: State, k: Key, reply: Option<Identity>, now: Time): State
    requires k in e.records
  {
    var value := e.records[k].value;
    if value.Some? && Stale(cfg, e, k, value.value, reply, now) then Withdraw(e, k) else e
  }

  /** Hands out the ticket that is there, or asks for one. */
  function Offer(cfg: Config, e: State, id: string, k: Key, observer: Option<Parser>, callerState: bool, now: Time)
    : (State, Option<Ticket>)
    requires k in e.records
  {
    var value := e.records[k].value;
    if value.None? then (Enqueue(e, k, now), None)
    else if callerState || |e.requests| >= cfg.maxPending then (e, None)
    else (e.(requests := e.requests[id := Observation(k, value.value.version, observer, now)]), value)
  }

  /** The locked section of Bind, after the identity was described. A request
      that was bound before is observed no more. */
  function Bind(cfg: Config, e: State, id: string, k: Key, reply: Option<Identity>, callerState: bool, now: Time)
    : (State, Option<Ticket>)
  {
    var e1 := Tombstone(e, id, now);
    if e1.closed || k !in e1.plans || k !in e1.records then (e1, None)
    else
      Offer(cfg, DropStale(cfg, e1, k, reply, now), id, k,
            if id in e.requests then None else Some(NewParser(k.model)), callerState, now)
  }

  /** describe treats an empty scope as an error. */
  function Described(raw: Option<Identity>): Option<Identity> {
    if raw.Some? && raw.value.scope == "" then None else raw
  }

  /** The whole of Bind when nothing interferes: keys that are not managed or have
      no plan get nothing and are not even tombstoned. */
  function BindWhole(cfg: Config, e: State, id: string, k: Key, reply: Option<Identity>, callerState: bool, now: Time)
    : (State, Option<Ticket>)
  {
    if id == "" || !Manages(cfg, e, k) || k !in e.plans then (e, None)
    else Bind(cfg, e, id, k, Described(reply), callerState, now)
  }

  /** A watchdog verdict against the ticket of an observation. */
  function Invalidate(e: State, o: Observation, now: Time): State {
    if o.observer.None? || o.key !in e.records || e.records[o.key].value.None?
       || e.records[o.key].value.value.version != o.version
    then e
    else
      var e1 := Withdraw(e, o.key);
      var e2 := e1.(records := e1.records[o.key := e1.records[o.key].(cooldown := 0)]);
      Enqueue(e2, o.key, now)
  }

  type Headers = map<string, seq<string>>

  predicate RevokingValues(name: string, values: seq<string>, plan: string) {
    || (Text.EqualFold(name, PLAN_HEADER) && exists v <- values :: !PlanMatches(v, plan))
    || (Text.EqualFold(name, STATE_HEADER) && (|values| > 1 || exists v <- values :: |v| == 312))
  }

  /** Some header contradicts the plan or the injected state. */
  predicate Revoking(h: Headers, plan: string) {
    exists name | name in h :: RevokingValues(name, h[name], plan)
  }

  function OnHeaders(e: State, id: string, h: Headers, now: Time): State {
    if id !in e.requests then e
    else
      var o := e.requests[id];
      if Revoking(h, e.PlanOf(o.key)) then Invalidate(e, o, now) else e
  }

  /** The observation of a request after its observer moved on, and the verdict. */
  function Observed(e: State, id: string, p: Parser, now: Time): State
    requires id in e.requests
  {
    var o := e.requests[id].(observer := Some(p));
    var e1 := e.(requests := e.requests[id := o]);
    if p.Mismatch() then Invalidate(e1, o, now) else e1
  }

  function OnChunk(e: State, id: string, bytes: Bytes, decode: Decoder, now: Time): State {
    if id !in e.requests || e.requests[id].observer.None? then e
    else Observed(e, id, AfterFeed(e.requests[id].observer.value, decode, bytes), now)
  }

  function OnJSON(e: State, id: string, bytes: Bytes, decode: Decoder, now: Time): State {
    if id !in e.requests || e.requests[id].observer.None? then e
    else Observed(e, id, AfterJSON(e.requests[id].observer.value, decode, bytes), now)
  }

  function OnComplete(e: State, id: string, decode: Decoder, now: Time): State {
    if id !in e.requests || e.requests[id].observer.None? then e
    else
      var e1 := Observed(e, id, AfterFinish(e.requests[id].observer.value, decode), now);
      e1.(requests := e1.requests - {id})
  }

  function Close(e: State): State {
    e.(closed := true)
  }

  // ---- Discovery ---------------------------------------------------------

  const OWNERSHIP_LIMIT: nat := MAX_ACCOUNTS * MAX_MODELS

  ghost predicate ValidSnapshot(accounts: seq<Account>) {
    && |accounts| <= MAX_ACCOUNTS
    && (forall a <- accounts :: ValidAuthID(a.authID) && (a.plan == "" || KnownPlan(a.plan)))
    && (forall i, j | 0 <= i < j < |accounts| :: accounts[i].authID != accounts[j].authID)
  }

  function SelectedKeys(cfg: Config, accounts: seq<Account>): set<Key> {
    set a, m | a in accounts && cfg.Selected(a) && m in cfg.models :: Key(a.authID, m)
  }

  function PlanFor(accounts: seq<Account>, id: string): string {
    if accounts == [] then ""
    else if accounts[|accounts| - 1].authID == id then accounts[|accounts| - 1].plan
    else PlanFor(accounts[..|accounts| - 1], id)
  }

  /** The plans of the selected accounts whose plan is known. */
  function Desired(cfg: Config, accounts: seq<Account>): map<Key, string> {
    map k | k in SelectedKeys(cfg, accounts) && PlanFor(accounts, k.authID) != "" :: PlanFor(accounts, k.authID)
  }

  function Eligible(cfg: Config, accounts: seq<Account>): nat {
    if accounts == [] then 0
    else
      var a := accounts[|accounts| - 1];
      Eligible(cfg, accounts[..|accounts| - 1]) + (if cfg.Selected(a) && a.plan != "" then 1 else 0)
  }

  predicate Keeps(e: State, desired: map<Key, string>, k: Key) {
    k in e.plans && k in desired && e.plans[k] == desired[k]
  }

  /** A record that was withdrawn or admitted: no ticket, no cooldown, and an
      epoch that nothing had before. */
  predicate Renewed(e: State, e': State, k: Key) {
    && k in e'.records
    && e'.records[k].value.None?
    && e'.records[k].cooldown == 0
    && e'.records[k].running == e.Running(k)
    && e.epoch < e'.records[k].epoch <= e'.epoch
  }

  predicate RecordApplied(e: State, e': State, desired: map<Key, string>, k: Key) {
    if Keeps(e, desired, k) then
      (k in e'.records <==> k in e.records) && (k in e.records ==> e'.records[k] == e.records[k])
    else if k in desired then Renewed(e, e', k)
    else if k in e.plans && e.Running(k) then Renewed(e, e', k)
    else if k in e.plans then k !in e'.records
    else (k in e'.records <==> k in e.records) && (k in e.records ==> e'.records[k] == e.records[k])
  }

  /** The keys whose records a snapshot drops. */
  function Dropped(e: State, desired: map<Key, string>): set<Key> {
    set k | k in e.plans && k !in desired && k in e.records && !e.records[k].running
  }

  /** With selectors, the selected keys are owned for good; once they do not fit
      any more, all keys of the models are. */
  function OwnedWith(cfg: Config, e: State, selected: set<Key>): (set<Key>, bool) {
    if cfg.accounts == [] || e.ownsAllModels then (e.owned, e.ownsAllModels)
    else if |e.owned + selected| > OWNERSHIP_LIMIT then ({}, true)
    else (e.owned + selected, false)
  }

  function OwnedAfter(cfg: Config, e: State, accounts: seq<Account>): (set<Key>, bool) {
    OwnedWith(cfg, e, SelectedKeys(cfg, accounts))
  }

  /** An accepted snapshot. The order in which the maps are visited decides which
      fresh epoch each renewed record gets, so this is a relation. */
  ghost predicate Applied(cfg: Config, e: State, accounts: seq<Account>, e': State) {
    var desired := Desired(cfg, accounts);
    && e'.plans == desired
    && (forall k :: RecordApplied(e, e', desired, k))
    && e.epoch <= e'.epoch
    && (e.plans == desired ==> e'.epoch == e.epoch)
    && e' == e.(plans := desired, records := e'.records, epoch := e'.epoch,
                lastProxy := e.lastProxy - Dropped(e, desired), lastFailure := e.lastFailure - Dropped(e, desired),
                discoveryCount := Eligible(cfg, accounts),
                owned := OwnedAfter(cfg, e, accounts).0, ownsAllModels := OwnedAfter(cfg, e, accounts).1)
  }

  /** A rejected snapshot, or one that arrives after closing, changes nothing. */
  ghost predicate Snapshot(cfg: Config, e: State, accounts: seq<Account>, e': State) {
    if ValidSnapshot(accounts) && !e.closed then Applied(cfg, e, accounts, e') else e' == e
  }
}
