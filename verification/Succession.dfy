/** Engines one after the other over one shared budget (cmd/plugin/main.go,
    configure and the shared probe budget; internal/prewarm/budget.go). */
module Succession {
  import opened Base
  import opened PrewarmConfig
  import opened ProbeBudget
  import opened EngineState
  import opened Protocol
  import opened Evidence
  import opened Invariants
  import opened Runs
  import opened Theorems

  /** The run of one engine. */
  datatype Life = Life(env: Env, states: seq<System>, occurrences: seq<Occurrence>)

  predicate AllIdle(ws: seq<Worker>) {
    forall w <- ws :: w.Idle?
  }

  /** An engine of its own, over this budget, with these grants and probes. */
  ghost predicate FreshOver(env: Env, s: System, budget: seq<Time>, grants: seq<Call>, probes: nat, clock: Time) {
    && env.cfg.Valid() && env.proxies != []
    && s.engine == Initial(env.cfg, env.proxies) && AllIdle(s.workers)
    && s.published == [] && s.handed == map[]
    && s.budget == budget && s.grants == grants && s.probes == probes && s.clock == clock
  }

  /** The next engine starts when the workers of the one before have returned. */
  ghost predicate Succeeds(before: System, env: Env, s: System) {
    AllIdle(before.workers) && FreshOver(env, s, before.budget, before.grants, before.probes, before.clock)
  }

  ghost predicate IsPath(l: Life) {
    && |l.states| == |l.occurrences| + 1
    && forall i | 0 <= i < |l.occurrences| :: Occurs(l.env, l.states[i], l.occurrences[i], l.states[i + 1])
  }

  /** Engines that come one after the other, the first over an unused budget. */
  ghost predicate IsSuccession(lives: seq<Life>) {
    && (forall l <- lives :: IsPath(l))
    && (lives != [] && lives[0].states != [] ==> FreshOver(lives[0].env, lives[0].states[0], [], [], 0, 0))
    && forall j | 0 <= j < |lives| - 1 && lives[j].states != [] && lives[j + 1].states != [] ::
         Succeeds(lives[j].states[|lives[j].states| - 1], lives[j + 1].env, lives[j + 1].states[0])
  }

  lemma {:induction false} IdlePending(ws: seq<Worker>)
    requires AllIdle(ws)
    ensures Pending(ws) == 0
  {
    if ws != [] {
      assert ws[|ws| - 1] in ws;
      forall w | w in ws[..|ws| - 1] ensures w.Idle? { assert w in ws; }
      IdlePending(ws[..|ws| - 1]);
    }
  }

  lemma FreshIsInit(env: Env, s: System, budget: seq<Time>, grants: seq<Call>, clock: Time)
    requires Represents(budget, grants, clock) && WithinLimits(grants)
    requires FreshOver(env, s, budget, grants, |grants|, clock)
    ensures Init(env, s)
  {
  }

  /** Whatever an engine leaves of the budget is what the next one may start from. */
  lemma SuccessorIsInit(env: Env, before: System, next: Env, s: System)
    requires BudgetOk(before.budget, before.grants, before.clock, before.probes, before.workers)
    requires Succeeds(before, next, s)
    ensures Init(next, s)
  {
    IdlePending(before.workers);
    FreshIsInit(next, s, before.budget, before.grants, before.clock);
  }

  lemma PathIsRun(l: Life)
    requires IsPath(l) && Init(l.env, l.states[0])
    ensures IsRun(l.env, l.states, l.occurrences)
  {
  }

  lemma RunBudget(l: Life, i: nat)
    requires IsRun(l.env, l.states, l.occurrences) && i < |l.states|
    ensures var s := l.states[i]; BudgetOk(s.budget, s.grants, s.clock, s.probes, s.workers)
  {
    RunInv(l.env, l.states, l.occurrences, i);
  }

  /** Every engine of a succession starts as a run does, so all that holds of runs
      holds of each. */
  lemma {:induction false} EveryLifeIsARun(lives: seq<Life>, j: nat)
    requires IsSuccession(lives) && j < |lives|
    ensures IsRun(lives[j].env, lives[j].states, lives[j].occurrences)
  {
    assert lives[j] in lives && IsPath(lives[j]);
    if j == 0 {
      FreshIsInit(lives[0].env, lives[0].states[0], [], [], 0);
    } else {
      assert lives[j - 1] in lives && IsPath(lives[j - 1]);
      EveryLifeIsARun(lives, j - 1);
      var n := |lives[j - 1].states| - 1;
      RunBudget(lives[j - 1], n);
      SuccessorIsInit(lives[j - 1].env, lives[j - 1].states[n], lives[j].env, lives[j].states[0]);
    }
    PathIsRun(lives[j]);
  }

  /** Over a succession of engines, every one-hour window holds at most the limit
      in force for the last grant in it, whichever engines made them, and every
      probe that any of them sent was granted. */
  lemma BudgetOutlivesEngines(lives: seq<Life>, j: nat, i: nat, now: Time, last: nat)
    requires IsSuccession(lives) && j < |lives| && i < |lives[j].states|
    requires last < |lives[j].states[i].grants| && lives[j].states[i].grants[last].now <= now
    requires forall g | last < g < |lives[j].states[i].grants| :: now < lives[j].states[i].grants[g].now
    ensures InWindow(lives[j].states[i].grants, now) <= lives[j].states[i].grants[last].limit
    ensures lives[j].states[i].probes + Pending(lives[j].states[i].workers) == |lives[j].states[i].grants|
  {
    EveryLifeIsARun(lives, j);
    ProbesStayWithinBudget(lives[j].env, lives[j].states, lives[j].occurrences, i, now, last);
  }
}
