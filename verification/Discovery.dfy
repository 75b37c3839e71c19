/** Applying a discovery snapshot (internal/prewarm/discovery.go, applyAccounts):
    what its loops have done to each key so far, and that in the end the whole
    is an applied snapshot. */
module Discovering {
  import opened Base
  import opened PrewarmConfig
  import opened EngineState
  import opened EngineInvariants

  // ---- Reading the snapshot ----------------------------------------------

  /** The account's plan is entered under the given models of the account. */
  ghost predicate Adds(before: map<Key, string>, after: map<Key, string>, a: Account, models: seq<string>) {
    && (forall k :: k in after <==> k in before || (k.authID == a.authID && k.model in models))
    && (forall k | k in after :: after[k] == if k.authID == a.authID && k.model in models then a.plan else before[k])
  }

  ghost predicate AddsKeys(before: set<Key>, after: set<Key>, id: string, models: seq<string>) {
    forall k :: k in after <==> k in before || (k.authID == id && k.model in models)
  }

  lemma AddsStep(before: map<Key, string>, after: map<Key, string>, a: Account, models: seq<string>, j: nat)
    requires j < |models| && Adds(before, after, a, models[..j])
    ensures Adds(before, after[Key(a.authID, models[j]) := a.plan], a, models[..j + 1])
  {
    assert models[..j + 1] == models[..j] + [models[j]];
  }

  lemma AddsKeysStep(before: set<Key>, after: set<Key>, id: string, models: seq<string>, j: nat)
    requires j < |models| && AddsKeys(before, after, id, models[..j])
    ensures AddsKeys(before, after + {Key(id, models[j])}, id, models[..j + 1])
  {
    assert models[..j + 1] == models[..j] + [models[j]];
  }

  ghost predicate Distinct(accounts: seq<Account>) {
    forall i, j | 0 <= i < j < |accounts| :: accounts[i].authID != accounts[j].authID
  }

  ghost predicate AllSound(accounts: seq<Account>) {
    forall a <- accounts :: ValidAuthID(a.authID) && (a.plan == "" || KnownPlan(a.plan))
  }

  function Ids(accounts: seq<Account>): set<string> {
    set a | a in accounts :: a.authID
  }

  /** What the loop over the accounts has gathered from those it has seen. */
  ghost predicate Gathered(cfg: Config, seen: seq<Account>, ids: set<string>, selected: set<Key>,
                           desired: map<Key, string>, eligible: nat)
  {
    && AllSound(seen) && Distinct(seen)
    && ids == Ids(seen)
    && selected == SelectedKeys(cfg, seen)
    && desired == Desired(cfg, seen)
    && eligible == Eligible(cfg, seen)
  }

  lemma SelectedStep(cfg: Config, seen: seq<Account>, a: Account, selected: set<Key>)
    requires if cfg.Selected(a) then AddsKeys(SelectedKeys(cfg, seen), selected, a.authID, cfg.models)
             else selected == SelectedKeys(cfg, seen)
    ensures selected == SelectedKeys(cfg, seen + [a])
  {
    forall k
      ensures k in selected <==> k in SelectedKeys(cfg, seen + [a])
    {
      if k in SelectedKeys(cfg, seen) {
        var b :| b in seen && cfg.Selected(b) && k.authID == b.authID && k.model in cfg.models;
        assert b in seen + [a];
      }
      assert a in seen + [a];
      if k in SelectedKeys(cfg, seen + [a]) {
        var b :| b in seen + [a] && cfg.Selected(b) && k.authID == b.authID && k.model in cfg.models;
        assert b in seen || b == a;
      }
    }
  }

  lemma PlanForStep(seen: seq<Account>, a: Account, id: string)
    ensures PlanFor(seen + [a], id) == if id == a.authID then a.plan else PlanFor(seen, id)
  {
    assert (seen + [a])[..|seen|] == seen;
  }

  /** An account that was not seen has selected no key. */
  lemma UnseenSelectsNothing(cfg: Config, seen: seq<Account>, k: Key)
    requires k.authID !in Ids(seen)
    ensures k !in SelectedKeys(cfg, seen)
  {
  }

  lemma DesiredStep(cfg: Config, seen: seq<Account>, a: Account, desired: map<Key, string>)
    requires a.authID !in Ids(seen)
    requires if cfg.Selected(a) && a.plan != "" then Adds(Desired(cfg, seen), desired, a, cfg.models)
             else desired == Desired(cfg, seen)
    ensures desired == Desired(cfg, seen + [a])
  {
    forall k
      ensures k in desired <==> k in Desired(cfg, seen + [a])
      ensures k in desired ==> desired[k] == PlanFor(seen + [a], k.authID)
    {
      PlanForStep(seen, a, k.authID);
      DesiredMember(cfg, seen, k);
      DesiredMember(cfg, seen + [a], k);
      SelectedMember(cfg, seen, a, k);
      if k.authID == a.authID {
        UnseenSelectsNothing(cfg, seen, k);
      }
    }
  }

  lemma DesiredMember(cfg: Config, accounts: seq<Account>, k: Key)
    ensures k in Desired(cfg, accounts) <==> k in SelectedKeys(cfg, accounts) && PlanFor(accounts, k.authID) != ""
    ensures k in Desired(cfg, accounts) ==> Desired(cfg, accounts)[k] == PlanFor(accounts, k.authID)
  {
  }

  lemma SelectedMember(cfg: Config, seen: seq<Account>, a: Account, k: Key)
    ensures k in SelectedKeys(cfg, seen + [a]) <==>
              k in SelectedKeys(cfg, seen) || (cfg.Selected(a) && k.authID == a.authID && k.model in cfg.models)
  {
    var selected := SelectedKeys(cfg, seen) + (set m | m in cfg.models && cfg.Selected(a) :: Key(a.authID, m));
    assert cfg.Selected(a) ==> AddsKeys(SelectedKeys(cfg, seen), selected, a.authID, cfg.models);
    SelectedStep(cfg, seen, a, selected);
  }

  lemma EligibleStep(cfg: Config, seen: seq<Account>, a: Account)
    ensures Eligible(cfg, seen + [a]) == Eligible(cfg, seen) + (if cfg.Selected(a) && a.plan != "" then 1 else 0)
  {
    assert (seen + [a])[..|seen|] == seen;
  }

  lemma SoundStep(seen: seq<Account>, a: Account)
    requires AllSound(seen) && Distinct(seen) && a.authID !in Ids(seen)
    requires ValidAuthID(a.authID) && (a.plan == "" || KnownPlan(a.plan))
    ensures AllSound(seen + [a]) && Distinct(seen + [a]) && Ids(seen + [a]) == Ids(seen) + {a.authID}
  {
    forall x | x in seen + [a]
      ensures ValidAuthID(x.authID) && (x.plan == "" || KnownPlan(x.plan))
    {
      assert x in seen || x == a;
    }
    forall id
      ensures id in Ids(seen + [a]) <==> id in Ids(seen) + {a.authID}
    {
      IdsMember(seen, a, id);
    }
  }

  lemma IdsMember(seen: seq<Account>, a: Account, id: string)
    ensures id in Ids(seen + [a]) <==> id in Ids(seen) || id == a.authID
  {
    assert a in seen + [a];
    if id in Ids(seen) {
      var x :| x in seen && x.authID == id;
      assert x in seen + [a];
    }
  }

  lemma GatheredStep(cfg: Config, seen: seq<Account>, a: Account, ids: set<string>, selected: set<Key>,
                     desired: map<Key, string>, eligible: nat)
    requires AllSound(seen) && Distinct(seen) && a.authID !in Ids(seen)
    requires ValidAuthID(a.authID) && (a.plan == "" || KnownPlan(a.plan))
    requires ids == Ids(seen) + {a.authID}
    requires eligible == Eligible(cfg, seen) + (if cfg.Selected(a) && a.plan != "" then 1 else 0)
    requires if cfg.Selected(a) then AddsKeys(SelectedKeys(cfg, seen), selected, a.authID, cfg.models)
             else selected == SelectedKeys(cfg, seen)
    requires if cfg.Selected(a) && a.plan != "" then Adds(Desired(cfg, seen), desired, a, cfg.models)
             else desired == Desired(cfg, seen)
    ensures Gathered(cfg, seen + [a], ids, selected, desired, eligible)
  {
    SoundStep(seen, a);
    EligibleStep(cfg, seen, a);
    SelectedStep(cfg, seen, a, selected);
    DesiredStep(cfg, seen, a, desired);
  }

  /** An account that is malformed, or that came before, spoils the snapshot. */
  lemma Unsound(accounts: seq<Account>, i: nat)
    requires i < |accounts|
    requires !ValidAuthID(accounts[i].authID) || accounts[i].authID in Ids(accounts[..i])
          || (accounts[i].plan != "" && !KnownPlan(accounts[i].plan))
    ensures !ValidSnapshot(accounts)
  {
    assert accounts[i] in accounts;
    if accounts[i].authID in Ids(accounts[..i]) {
      var a :| a in accounts[..i] && a.authID == accounts[i].authID;
      var j :| 0 <= j < i && accounts[..i][j] == a;
      assert accounts[j].authID == accounts[i].authID;
    }
  }

  // ---- Withdrawing and admitting plans -----------------------------------

  predicate SameAt(e: State, e': State, k: Key) {
    && (k in e'.plans <==> k in e.plans) && (k in e.plans ==> e'.plans[k] == e.plans[k])
    && (k in e'.records <==> k in e.records) && (k in e.records ==> e'.records[k] == e.records[k])
  }

  /** The key's plan was withdrawn. */
  predicate Unplanned(e: State, e': State, desired: map<Key, string>, k: Key) {
    && k !in e'.plans
    && if k in e.records && (k in desired || e.Running(k)) then Renewed(e, e', k) else k !in e'.records
  }

  predicate WithdrawnAt(e: State, e': State, desired: map<Key, string>, k: Key) {
    if k !in e.plans || Keeps(e, desired, k) then SameAt(e, e', k) else Unplanned(e, e', desired, k)
  }

  /** The notes of dropped records are dropped with them, and nothing else moves. */
  ghost predicate OnlyDrops(e: State, e': State, dropped: set<Key>) {
    && e.epoch <= e'.epoch
    && e' == e.(plans := e'.plans, records := e'.records, epoch := e'.epoch,
                lastProxy := e.lastProxy - dropped, lastFailure := e.lastFailure - dropped)
  }

  /** The loop over the plans has `todo` left to visit. */
  ghost predicate Withdrawing(e: State, e': State, desired: map<Key, string>, todo: set<Key>) {
    && (forall k :: if k in todo then SameAt(e, e', k) else WithdrawnAt(e, e', desired, k))
    && OnlyDrops(e, e', Dropped(e, desired) - todo)
    && (e.plans == desired ==> e' == e)
  }

  /** One visit of that loop. */
  ghost predicate Visited(mid: State, next: State, desired: map<Key, string>, k: Key) {
    && (forall x | x != k :: SameAt(mid, next, x))
    && WithdrawnAt(mid, next, desired, k)
    && OnlyDrops(mid, next, if k in Dropped(mid, desired) then {k} else {})
    && (mid.plans == desired ==> next == mid)
  }

  /** A record whose plan goes away or, when `known`, changes. */
  function Retired(e: State, k: Key, known: bool): State
    requires k in e.records
  {
    var e1 := Withdraw(e, k);
    var e2 := e1.(records := e1.records[k := e1.records[k].(cooldown := 0)]);
    if !known && !e2.records[k].running
    then e2.(records := e2.records - {k}, lastProxy := e2.lastProxy - {k}, lastFailure := e2.lastFailure - {k})
    else e2
  }

  function VisitedPlan(e: State, desired: map<Key, string>, k: Key): State {
    if Keeps(e, desired, k) then e
    else
      var e1 := if k in e.records then Retired(e, k, k in desired) else e;
      e1.(plans := e.plans - {k})
  }

  lemma RetiredShape(e: State, k: Key, known: bool)
    requires k in e.records
    ensures var e' := Retired(e, k, known);
      && e' == e.(records := e'.records, epoch := e'.epoch, lastProxy := e'.lastProxy, lastFailure := e'.lastFailure)
      && OnlyDrops(e, e', if known || e.Running(k) then {} else {k})
      && (if known || e.Running(k) then Renewed(e, e', k) else k !in e'.records)
      && (forall x | x != k :: SameAt(e, e', x))
  {
    assert e.lastProxy - {} == e.lastProxy && e.lastFailure - {} == e.lastFailure;
  }

  /** Dropping the plan after the record was retired. */
  lemma UnplanShape(e: State, e1: State, desired: map<Key, string>, k: Key)
    requires k in e.plans && !Keeps(e, desired, k)
    requires if k in e.records && (k in desired || e.Running(k)) then Renewed(e, e1, k) else k !in e1.records
    requires e1.plans == e.plans && forall x | x != k :: SameAt(e, e1, x)
    ensures WithdrawnAt(e, e1.(plans := e.plans - {k}), desired, k)
    ensures forall x | x != k :: SameAt(e, e1.(plans := e.plans - {k}), x)
  {
    forall x | x != k
      ensures SameAt(e, e1.(plans := e.plans - {k}), x)
    {
      assert SameAt(e, e1, x);
    }
  }

  lemma UnplanDrops(e: State, e1: State, dropped: set<Key>, k: Key)
    requires OnlyDrops(e, e1, dropped)
    ensures OnlyDrops(e, e1.(plans := e.plans - {k}), dropped)
  {
  }

  lemma NothingDropped(e: State)
    ensures OnlyDrops(e, e, {})
  {
    assert e.lastProxy - {} == e.lastProxy && e.lastFailure - {} == e.lastFailure;
  }

  lemma VisitedPlanVisits(e: State, desired: map<Key, string>, k: Key)
    requires k in e.plans
    ensures Visited(e, VisitedPlan(e, desired, k), desired, k)
  {
    NothingDropped(e);
    if !Keeps(e, desired, k) {
      var e1 := if k in e.records then Retired(e, k, k in desired) else e;
      if k in e.records {
        RetiredShape(e, k, k in desired);
      }
      UnplanShape(e, e1, desired, k);
      UnplanDrops(e, e1, if k in Dropped(e, desired) then {k} else {}, k);
    }
  }

  lemma WithdrawingStart(e: State, desired: map<Key, string>)
    ensures Withdrawing(e, e, desired, e.plans.Keys)
  {
    assert e.lastProxy - (Dropped(e, desired) - e.plans.Keys) == e.lastProxy;
    assert e.lastFailure - (Dropped(e, desired) - e.plans.Keys) == e.lastFailure;
  }

  lemma StillPlanned(mid: State, next: State, todo: set<Key>, k: Key)
    requires todo <= mid.plans.Keys && forall x | x != k :: SameAt(mid, next, x)
    ensures todo - {k} <= next.plans.Keys
  {
    forall x | x in todo - {k}
      ensures x in next.plans.Keys
    {
      assert SameAt(mid, next, x);
    }
  }

  lemma LaterSame(e: State, mid: State, next: State, desired: map<Key, string>, k: Key)
    requires SameAt(mid, next, k) && mid.epoch <= next.epoch
    ensures SameAt(e, mid, k) ==> SameAt(e, next, k)
    ensures WithdrawnAt(e, mid, desired, k) ==> WithdrawnAt(e, next, desired, k)
  {
  }

  lemma WithdrawnFrom(e: State, mid: State, next: State, desired: map<Key, string>, k: Key)
    requires SameAt(e, mid, k) && e.epoch <= mid.epoch && WithdrawnAt(mid, next, desired, k)
    ensures WithdrawnAt(e, next, desired, k)
    ensures k in Dropped(mid, desired) <==> k in Dropped(e, desired)
  {
  }

  lemma DropsCompose(e: State, mid: State, next: State, a: set<Key>, b: set<Key>, both: set<Key>)
    requires OnlyDrops(e, mid, a) && OnlyDrops(mid, next, b) && both == a + b
    ensures OnlyDrops(e, next, both)
  {
    assert e.lastProxy - a - b == e.lastProxy - both;
    assert e.lastFailure - a - b == e.lastFailure - both;
  }

  lemma WithdrawingStep(e: State, mid: State, next: State, desired: map<Key, string>, todo: set<Key>, k: Key)
    requires Withdrawing(e, mid, desired, todo) && k in todo && Visited(mid, next, desired, k)
    ensures Withdrawing(e, next, desired, todo - {k})
  {
    assert SameAt(e, mid, k);
    WithdrawnFrom(e, mid, next, desired, k);
    DropsCompose(e, mid, next, Dropped(e, desired) - todo, if k in Dropped(mid, desired) then {k} else {},
                 Dropped(e, desired) - (todo - {k}));
    forall x
      ensures if x in todo - {k} then SameAt(e, next, x) else WithdrawnAt(e, next, desired, x)
    {
      if x != k {
        LaterSame(e, mid, next, desired, x);
      }
    }
  }

  /** The key was given the plan and a fresh record. */
  predicate Replanned(e: State, e': State, plan: string, k: Key) {
    k in e'.plans && e'.plans[k] == plan && Renewed(e, e', k)
  }

  predicate AdmittedAt(e: State, e': State, desired: map<Key, string>, k: Key) {
    if k !in desired || Keeps(e, desired, k) then SameAt(e, e', k) else Replanned(e, e', desired[k], k)
  }

  ghost predicate Admitting(e: State, e': State, desired: map<Key, string>, todo: set<Key>) {
    && (forall k :: if k in todo then SameAt(e, e', k) else AdmittedAt(e, e', desired, k))
    && OnlyDrops(e, e', {})
    && (e.plans == desired ==> e' == e)
  }

  ghost predicate Admits(mid: State, next: State, desired: map<Key, string>, k: Key) {
    && (forall x | x != k :: SameAt(mid, next, x))
    && AdmittedAt(mid, next, desired, k)
    && OnlyDrops(mid, next, {})
    && (mid.plans == desired ==> next == mid)
  }

  /** The record has no ticket, no cooldown and a fresh epoch. */
  function Renewal(e: State, k: Key): State
    requires k in e.records
  {
    var r := e.records[k];
    e.(epoch := NextEpoch(e, r), records := e.records[k := r.(value := None, cooldown := 0, epoch := NextEpoch(e, r))])
  }

  /** A key is given a plan, unless it has that plan already. */
  function AdmittedPlan(e: State, k: Key, plan: string): State {
    if k in e.plans && e.plans[k] == plan then e
    else
      var e1 := if k in e.records then e else e.(records := e.records[k := Record(None, 0, false, 0)]);
      Renewal(e1, k).(plans := e.plans[k := plan])
  }

  lemma RenewalShape(e: State, k: Key)
    requires k in e.records
    ensures Renewed(e, Renewal(e, k), k) && e.epoch <= Renewal(e, k).epoch
    ensures forall x | x != k :: SameAt(e, Renewal(e, k), x)
  {
  }

  lemma ReplannedShape(e: State, k: Key, plan: string)
    requires !(k in e.plans && e.plans[k] == plan)
    ensures Replanned(e, AdmittedPlan(e, k, plan), plan, k) && e.epoch <= AdmittedPlan(e, k, plan).epoch
    ensures forall x | x != k :: SameAt(e, AdmittedPlan(e, k, plan), x)
  {
    RenewalShape(if k in e.records then e else e.(records := e.records[k := Record(None, 0, false, 0)]), k);
  }

  lemma AdmittedPlanAdmits(e: State, desired: map<Key, string>, k: Key)
    requires k in desired
    ensures Admits(e, AdmittedPlan(e, k, desired[k]), desired, k)
  {
    NothingDropped(e);
    if !Keeps(e, desired, k) {
      ReplannedShape(e, k, desired[k]);
      UnchangedNotes(e, AdmittedPlan(e, k, desired[k]));
    }
  }

  lemma UnchangedNotes(e: State, e': State)
    requires e' == e.(plans := e'.plans, records := e'.records, epoch := e'.epoch) && e.epoch <= e'.epoch
    ensures OnlyDrops(e, e', {})
  {
    NothingDropped(e);
  }

  lemma AdmittingStart(e: State, desired: map<Key, string>)
    ensures Admitting(e, e, desired, desired.Keys)
  {
    assert e.lastProxy - {} == e.lastProxy && e.lastFailure - {} == e.lastFailure;
  }

  lemma LaterAdmitted(e: State, mid: State, next: State, desired: map<Key, string>, k: Key)
    requires SameAt(mid, next, k) && mid.epoch <= next.epoch
    ensures SameAt(e, mid, k) ==> SameAt(e, next, k)
    ensures AdmittedAt(e, mid, desired, k) ==> AdmittedAt(e, next, desired, k)
  {
  }

  lemma AdmittedFrom(e: State, mid: State, next: State, desired: map<Key, string>, k: Key)
    requires SameAt(e, mid, k) && e.epoch <= mid.epoch && AdmittedAt(mid, next, desired, k)
    ensures AdmittedAt(e, next, desired, k)
  {
  }

  lemma AdmittingStep(e: State, mid: State, next: State, desired: map<Key, string>, todo: set<Key>, k: Key)
    requires Admitting(e, mid, desired, todo) && k in todo && Admits(mid, next, desired, k)
    ensures Admitting(e, next, desired, todo - {k})
  {
    assert SameAt(e, mid, k);
    AdmittedFrom(e, mid, next, desired, k);
    DropsCompose(e, mid, next, {}, {}, {});
    forall x
      ensures if x in todo - {k} then SameAt(e, next, x) else AdmittedAt(e, next, desired, x)
    {
      if x != k {
        LaterAdmitted(e, mid, next, desired, x);
      }
    }
  }

  lemma BothLoops(e: State, mid: State, e': State, desired: map<Key, string>, k: Key)
    requires WithdrawnAt(e, mid, desired, k) && AdmittedAt(mid, e', desired, k)
    requires e.epoch <= mid.epoch <= e'.epoch
    ensures RecordApplied(e, e', desired, k)
    ensures k in e'.plans <==> k in desired
    ensures k in desired ==> e'.plans[k] == desired[k]
  {
  }

  /** Ownership and the account count do not matter to the records. */
  lemma BothLoopsAnyOwner(e: State, claimed: State, mid: State, e': State, after: State, desired: map<Key, string>,
                          k: Key)
    requires WithdrawnAt(claimed, mid, desired, k) && AdmittedAt(mid, e', desired, k)
    requires claimed.epoch <= mid.epoch <= e'.epoch
    requires claimed.plans == e.plans && claimed.records == e.records && claimed.epoch == e.epoch
    requires after.plans == e'.plans && after.records == e'.records && after.epoch == e'.epoch
    ensures RecordApplied(e, after, desired, k)
    ensures k in after.plans <==> k in desired
    ensures k in desired ==> after.plans[k] == desired[k]
  {
    BothLoops(claimed, mid, e', desired, k);
  }

  /** The withdrawals followed by the admissions apply the snapshot. */
  lemma LoopsApply(cfg: Config, e: State, claimed: State, mid: State, e': State, after: State, accounts: seq<Account>)
    requires claimed == e.(owned := OwnedAfter(cfg, e, accounts).0, ownsAllModels := OwnedAfter(cfg, e, accounts).1)
    requires Withdrawing(claimed, mid, Desired(cfg, accounts), {}) && Admitting(mid, e', Desired(cfg, accounts), {})
    requires after == e'.(discoveryCount := Eligible(cfg, accounts))
    ensures Applied(cfg, e, accounts, after)
  {
    var desired := Desired(cfg, accounts);
    DropsCompose(claimed, mid, e', Dropped(claimed, desired) - {}, {}, Dropped(claimed, desired));
    assert Dropped(claimed, desired) == Dropped(e, desired);
    forall k
      ensures RecordApplied(e, after, desired, k)
      ensures k in after.plans <==> k in desired
      ensures k in desired ==> after.plans[k] == desired[k]
    {
      assert WithdrawnAt(claimed, mid, desired, k) && AdmittedAt(mid, e', desired, k);
      BothLoopsAnyOwner(e, claimed, mid, e', after, desired, k);
    }
    assert after.plans == desired;
  }

  // ---- Ownership ---------------------------------------------------------

  /** Claiming stops at the first key that does not fit. */
  lemma Overflows(owned: set<Key>, k: Key, all: set<Key>)
    requires owned + {k} <= all && k !in owned && |owned| >= OWNERSHIP_LIMIT
    ensures |all| > OWNERSHIP_LIMIT
  {
    SubsetSize(owned + {k}, all);
  }
}
