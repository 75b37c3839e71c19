/** The invariants of the running system, one component each. */
module Invariants {
  import opened Base
  import opened PrewarmConfig
  import opened ProbeBudget
  import opened Completions
  import opened EngineState
  import opened EngineInvariants
  import opened ProxyPool
  import opened Protocol
  import opened Evidence

  predicate Holds(w: Worker, k: Key) {
    w.Busy? && w.job.key == k
  }

  /** How many workers have a job for the key in hand. */
  function BusyCount(ws: seq<Worker>, k: Key): nat {
    if ws == [] then 0 else BusyCount(ws[..|ws| - 1], k) + Flag(Holds(ws[|ws| - 1], k))
  }

  /** A worker that was granted a probe it has not sent yet. */
  predicate Spends(w: Worker) {
    w.Busy? && (w.phase.Acquiring? || w.phase.Verifying?)
  }

  function Pending(ws: seq<Worker>): nat {
    if ws == [] then 0 else Pending(ws[..|ws| - 1]) + Flag(Spends(ws[|ws| - 1]))
  }

  /** The jobs for a key, queued or in hand, are one if its record is running and
      none otherwise. */
  ghost predicate SingleFlight(e: State, ws: seq<Worker>) {
    forall k :: Count(e.queue, k) + BusyCount(ws, k) == Flag(e.Running(k))
  }

  predicate JobOk(e: State, j: Job) {
    j.epoch <= e.epoch && j.serial < e.enqueued
  }

  ghost predicate JobsOk(e: State, ws: seq<Worker>) {
    && (forall j <- e.queue :: JobOk(e, j))
    && (forall w <- ws :: w.Busy? ==> JobOk(e, w.job))
  }

  /** Versions count the publications, and every publication is certified. */
  ghost predicate PublishedOk(env: Env, version: nat, published: seq<Publication>) {
    && |published| == version
    && forall i | 0 <= i < |published| :: published[i].ticket.version == i + 1 && Certified(env, published[i])
  }

  /** The publication that a version numbers. */
  ghost predicate Issued(published: seq<Publication>, k: Key, t: Ticket) {
    1 <= t.version <= |published| && published[t.version - 1].ticket == t && published[t.version - 1].job.key == k
  }

  ghost predicate TicketsOk(e: State, published: seq<Publication>) {
    forall k | e.HasTicket(k) :: Issued(published, k, e.records[k].value.value)
  }

  /** Every observation is of the ticket that was handed out for its request. */
  ghost predicate ObservationOk(o: Observation, published: seq<Publication>, t: Ticket) {
    o.version == t.version && Issued(published, o.key, t)
  }

  ghost predicate ObservationsOk(requests: map<string, Observation>, published: seq<Publication>,
                                 handed: map<string, Ticket>) {
    forall id | id in requests :: id in handed && ObservationOk(requests[id], published, handed[id])
  }

  ghost predicate RunsOk(env: Env, ws: seq<Worker>, clock: Time) {
    forall w <- ws :: w.Busy? ==> RunOk(env, w.job.key, w.phase, w.trace, clock)
  }

  /** The key's publications were all captured by then. */
  ghost predicate CapturedBy(published: seq<Publication>, k: Key, time: Time) {
    forall p <- published :: p.job.key == k ==> p.captured <= time
  }

  ghost predicate CapturesOrdered(published: seq<Publication>) {
    forall i, j | 0 <= i < j < |published| ::
      published[i].job.key == published[j].job.key ==> published[i].captured <= published[j].captured
  }

  ghost predicate CapturesOk(ws: seq<Worker>, published: seq<Publication>, clock: Time) {
    && (forall p <- published :: p.captured <= clock)
    && CapturesOrdered(published)
    && (forall w <- ws :: w.Busy? && CapturedIn(w.phase).Some? ==>
                CapturedBy(published, w.job.key, CapturedIn(w.phase).value))
  }

  /** The budget represents the grants; every grant is spent on one probe. */
  ghost predicate BudgetOk(budget: seq<Time>, grants: seq<Call>, clock: Time, probes: nat, ws: seq<Worker>) {
    && Represents(budget, grants, clock)
    && WithinLimits(grants)
    && probes + Pending(ws) == |grants|
  }

  ghost predicate Inv(env: Env, s: System) {
    && WellFormed(env.cfg, s.engine)
    && UrlsOk(env, s.engine)
    && SingleFlight(s.engine, s.workers)
    && JobsOk(s.engine, s.workers)
    && PublishedOk(env, s.engine.version, s.published)
    && TicketsOk(s.engine, s.published)
    && ObservationsOk(s.engine.requests, s.published, s.handed)
    && RunsOk(env, s.workers, s.clock)
    && CapturesOk(s.workers, s.published, s.clock)
    && BudgetOk(s.budget, s.grants, s.clock, s.probes, s.workers)
  }

  // ---- Counting ----------------------------------------------------------

  lemma {:induction false} BusyUpdate(ws: seq<Worker>, w: nat, x: Worker, k: Key)
    requires w < |ws|
    ensures BusyCount(ws[w := x], k) + Flag(Holds(ws[w], k)) == BusyCount(ws, k) + Flag(Holds(x, k))
  {
    var n := |ws| - 1;
    if w < n {
      assert ws[w := x][..n] == ws[..n][w := x];
      BusyUpdate(ws[..n], w, x, k);
    } else {
      assert ws[w := x][..n] == ws[..n];
    }
  }

  lemma {:induction false} BusyMember(ws: seq<Worker>, w: nat, k: Key)
    requires w < |ws| && Holds(ws[w], k)
    ensures BusyCount(ws, k) >= 1
  {
    if w < |ws| - 1 {
      BusyMember(ws[..|ws| - 1], w, k);
    }
  }

  lemma BusyTwice(ws: seq<Worker>, w: nat, v: nat, k: Key)
    requires w < |ws| && v < |ws| && w != v && Holds(ws[w], k) && Holds(ws[v], k)
    ensures BusyCount(ws, k) >= 2
  {
    var idle := ws[w := Idle];
    BusyMember(idle, v, k);
    BusyUpdate(ws, w, Idle, k);
  }

  lemma {:induction false} PendingUpdate(ws: seq<Worker>, w: nat, x: Worker)
    requires w < |ws|
    ensures Pending(ws[w := x]) + Flag(Spends(ws[w])) == Pending(ws) + Flag(Spends(x))
  {
    var n := |ws| - 1;
    if w < n {
      assert ws[w := x][..n] == ws[..n][w := x];
      PendingUpdate(ws[..n], w, x);
    } else {
      assert ws[w := x][..n] == ws[..n];
    }
  }

  lemma {:induction false} CountHead(q: seq<Job>, k: Key)
    requires q != []
    ensures Count(q, k) == Flag(q[0].key == k) + Count(q[1..], k)
  {
    if |q| > 1 {
      CountHead(q[..|q| - 1], k);
      assert q[..|q| - 1][1..] == q[1..][..|q| - 2];
    } else {
      assert q[1..] == [] && q[..0] == [];
    }
  }

  /** No two workers have a job for the same key, and the key's record is there
      and running. */
  lemma OneWorker(e: State, ws: seq<Worker>, w: nat, v: nat)
    requires SingleFlight(e, ws) && w < |ws| && ws[w].Busy?
    ensures e.Running(ws[w].job.key) && Count(e.queue, ws[w].job.key) == 0
    ensures v < |ws| && v != w && ws[v].Busy? ==> ws[v].job.key != ws[w].job.key
  {
    var k := ws[w].job.key;
    BusyMember(ws, w, k);
    assert Count(e.queue, k) + BusyCount(ws, k) == Flag(e.Running(k));
    if v < |ws| && v != w && Holds(ws[v], k) {
      BusyTwice(ws, w, v, k);
    }
  }

  // ---- Regions that evolve the engine ------------------------------------

  lemma EvolvingFlight(e: State, e': State, ws: seq<Worker>)
    requires SingleFlight(e, ws) && Balanced(e, e')
    ensures SingleFlight(e', ws)
  {
    forall k
      ensures Count(e'.queue, k) + BusyCount(ws, k) == Flag(e'.Running(k))
    {
      assert Count(e.queue, k) + BusyCount(ws, k) == Flag(e.Running(k));
      assert Count(e'.queue, k) + Flag(e.Running(k)) == Count(e.queue, k) + Flag(e'.Running(k));
    }
  }

  lemma EvolvingJobs(e: State, e': State, ws: seq<Worker>)
    requires JobsOk(e, ws) && Evolves(e, e')
    ensures JobsOk(e', ws)
  {
    forall j | j in e'.queue
      ensures JobOk(e', j)
    {
      var i :| 0 <= i < |e'.queue| && e'.queue[i] == j;
      if i < |e.queue| {
        assert e.queue[i] == j;
        assert JobOk(e, j);
      }
    }
    forall w | w in ws && w.Busy?
      ensures JobOk(e', w.job)
    {
      assert JobOk(e, w.job);
    }
  }

  lemma EvolvingTickets(e: State, e': State, published: seq<Publication>)
    requires TicketsOk(e, published) && NoNewTickets(e, e')
    ensures TicketsOk(e', published)
  {
    forall k | e'.HasTicket(k)
      ensures Issued(published, k, e'.records[k].value.value)
    {
      assert e.HasTicket(k);
    }
  }

  /** Observations are kept, tombstoned or dropped, and never revived. */
  ghost predicate Inherits(before: map<string, Observation>, after: map<string, Observation>) {
    forall id | id in after ::
      && id in before
      && after[id].key == before[id].key && after[id].version == before[id].version
      && (before[id].observer.None? ==> after[id].observer.None?)
  }

  lemma InheritedObservations(before: map<string, Observation>, after: map<string, Observation>,
                              published: seq<Publication>, handed: map<string, Ticket>)
    requires ObservationsOk(before, published, handed) && Inherits(before, after)
    ensures ObservationsOk(after, published, handed)
  {
    forall id | id in after
      ensures id in handed && ObservationOk(after[id], published, handed[id])
    {
      assert ObservationOk(before[id], published, handed[id]);
    }
  }

  lemma RunsLater(env: Env, ws: seq<Worker>, clock: Time, later: Time)
    requires RunsOk(env, ws, clock) && clock <= later
    ensures RunsOk(env, ws, later)
  {
    forall w | w in ws && w.Busy?
      ensures RunOk(env, w.job.key, w.phase, w.trace, later)
    {
      TimelyLater(w.phase, w.trace, clock, later);
    }
  }

  lemma CapturesLater(ws: seq<Worker>, published: seq<Publication>, clock: Time, later: Time)
    requires CapturesOk(ws, published, clock) && clock <= later
    ensures CapturesOk(ws, published, later)
  {
    forall p | p in published ensures p.captured <= later {
      assert p.captured <= clock;
    }
  }

  lemma RepresentsLater(budget: seq<Time>, grants: seq<Call>, clock: Time, later: Time)
    requires Represents(budget, grants, clock) && clock <= later
    ensures Represents(budget, grants, later)
  {
    forall h | h in grants ensures h.now <= later {
      assert h.now <= clock;
    }
  }

  /** The clock alone may advance. */
  lemma ClockKeeps(env: Env, s: System, now: Time)
    requires Inv(env, s) && s.clock <= now
    ensures Inv(env, s.(clock := now))
  {
    RunsLater(env, s.workers, s.clock, now);
    CapturesLater(s.workers, s.published, s.clock, now);
    RepresentsLater(s.budget, s.grants, s.clock, now);
  }

  /** A region outside the workers that evolves the engine. */
  lemma EvolvingKeeps(env: Env, s: System, e': State, handed: map<string, Ticket>)
    requires Inv(env, s) && WellFormed(env.cfg, e') && Evolves(s.engine, e') && UrlsOk(env, e')
    requires ObservationsOk(e'.requests, s.published, handed)
    ensures Inv(env, s.(engine := e', handed := handed))
  {
    EvolvingFlight(s.engine, e', s.workers);
    EvolvingJobs(s.engine, e', s.workers);
    EvolvingTickets(s.engine, e', s.published);
  }
}
