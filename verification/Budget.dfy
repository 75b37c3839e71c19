/** The hourly probe budget (internal/prewarm/budget.go). The object keeps only a
    pruned list of grant times; the reference keeps every grant ever made. */
module ProbeBudget {
  import opened Base

  /** A decision that was asked for: the clock reading and the limit in force. */
  datatype Call = Call(now: Time, limit: nat)

  /** What is kept is a tail; all before it is an hour old, and its first is not. */
  ghost predicate Pruned(stamps: seq<Time>, kept: seq<Time>, now: Time) {
    && |kept| <= |stamps|
    && (forall i | |stamps| - |kept| <= i < |stamps| :: stamps[i] == kept[i - (|stamps| - |kept|)])
    && (forall i | 0 <= i < |stamps| - |kept| :: stamps[i] + HOUR <= now)
    && (kept != [] ==> now < kept[0] + HOUR)
  }

  /** The list after dropping the leading instants at or before now - 1h. */
  function Prune(stamps: seq<Time>, now: Time): (kept: seq<Time>)
    ensures Pruned(stamps, kept, now)
    decreases |stamps|
  {
    if stamps != [] && stamps[0] + HOUR <= now then Prune(stamps[1..], now) else stamps
  }

  lemma {:induction false} PruneIs(stamps: seq<Time>, now: Time, cut: nat)
    requires cut <= |stamps|
    requires forall i | 0 <= i < cut :: stamps[i] + HOUR <= now
    requires cut == |stamps| || now < stamps[cut] + HOUR
    ensures Prune(stamps, now) == stamps[cut..]
  {
    if cut > 0 {
      PruneIs(stamps[1..], now, cut - 1);
      assert stamps[1..][cut - 1..] == stamps[cut..];
    }
  }

  predicate Grants(stamps: seq<Time>, call: Call) {
    |Prune(stamps, call.now)| < call.limit
  }

  function Charge(stamps: seq<Time>, call: Call): seq<Time> {
    var kept := Prune(stamps, call.now);
    if |kept| < call.limit then kept + [call.now] else kept
  }

  class Budget {
    var timestamps: seq<Time>

    constructor ()
      ensures timestamps == []
    {
      timestamps := [];
    }

    method Allow(now: Time, limit: nat) returns (granted: bool)
      modifies this
      ensures granted == Grants(old(timestamps), Call(now, limit))
      ensures timestamps == Charge(old(timestamps), Call(now, limit))
    {
      var i := 0;
      while i < |timestamps| && timestamps[i] + HOUR <= now
        invariant 0 <= i <= |timestamps|
        invariant timestamps == old(timestamps)
        invariant forall j | 0 <= j < i :: timestamps[j] + HOUR <= now
      {
        i := i + 1;
      }
      PruneIs(timestamps, now, i);
      timestamps := timestamps[i..];
      if |timestamps| >= limit {
        return false;
      }
      timestamps := timestamps + [now];
      return true;
    }
  }

  /** How many grants of the history lie in the window (now - 1h, now]. */
  function InWindow(history: seq<Call>, now: Time): nat {
    if history == [] then 0
    else InWindow(history[..|history| - 1], now)
         + (if history[|history| - 1].now <= now < history[|history| - 1].now + HOUR then 1 else 0)
  }

  /** The reference decision over the full history of grants. */
  predicate ReferenceGrants(history: seq<Call>, call: Call) {
    InWindow(history, call.now) < call.limit
  }

  ghost predicate Ordered(calls: seq<Call>) {
    forall i, j | 0 <= i < j < |calls| :: calls[i].now <= calls[j].now
  }

  /** The pruned list is the tail of the history, and what was pruned had already
      left the window of every later reading of the clock. */
  ghost predicate Represents(stamps: seq<Time>, history: seq<Call>, clock: Time) {
    && Ordered(history)
    && (forall h <- history :: h.now <= clock)
    && |stamps| <= |history|
    && (forall i | |history| - |stamps| <= i < |history| :: history[i].now == stamps[i - (|history| - |stamps|)])
    && forall i | 0 <= i < |history| - |stamps| :: history[i].now + HOUR <= clock
  }

  lemma {:induction false} WindowIsTail(history: seq<Call>, cut: nat, now: Time)
    requires cut <= |history|
    requires forall h <- history :: h.now <= now
    requires forall i | 0 <= i < cut :: history[i].now + HOUR <= now
    requires forall i | cut <= i < |history| :: now < history[i].now + HOUR
    ensures InWindow(history, now) == |history| - cut
  {
    if history != [] {
      var front := history[..|history| - 1];
      assert history[|history| - 1] in history;
      forall h | h in front ensures h.now <= now { assert h in history; }
      WindowIsTail(front, Min(cut, |front|), now);
    }
  }

  lemma TailRepresents(stamps: seq<Time>, kept: seq<Time>, history: seq<Call>, clock: Time, now: Time)
    requires Represents(stamps, history, clock) && clock <= now && Pruned(stamps, kept, now)
    ensures Represents(kept, history, now)
  {
    var gone := |history| - |stamps|;
    var cut := |stamps| - |kept|;
    forall i | gone + cut <= i < |history|
      ensures history[i].now == kept[i - gone - cut]
    {
      assert history[i].now == stamps[i - gone];
    }
    forall i | 0 <= i < gone + cut
      ensures history[i].now + HOUR <= now
    {
      if gone <= i {
        assert history[i].now == stamps[i - gone];
      }
    }
  }

  lemma PruneRepresents(stamps: seq<Time>, history: seq<Call>, clock: Time, now: Time)
    requires Represents(stamps, history, clock) && clock <= now
    ensures Represents(Prune(stamps, now), history, now)
  {
    TailRepresents(stamps, Prune(stamps, now), history, clock, now);
  }

  lemma TailIsWindow(kept: seq<Time>, history: seq<Call>, now: Time)
    requires Represents(kept, history, now) && (kept != [] ==> now < kept[0] + HOUR)
    ensures |kept| == InWindow(history, now)
  {
    var cut := |history| - |kept|;
    forall i | cut <= i < |history|
      ensures now < history[i].now + HOUR
    {
      assert history[cut].now == kept[0];
      assert history[cut].now <= history[i].now;
    }
    WindowIsTail(history, cut, now);
  }

  /** What the pruning keeps is exactly the part of the history in the window. */
  lemma PruneIsWindow(stamps: seq<Time>, history: seq<Call>, clock: Time, now: Time)
    requires Represents(stamps, history, clock) && clock <= now
    ensures |Prune(stamps, now)| == InWindow(history, now)
  {
    PruneRepresents(stamps, history, clock, now);
    TailIsWindow(Prune(stamps, now), history, now);
  }

  lemma Append(stamps: seq<Time>, history: seq<Call>, call: Call)
    requires Represents(stamps, history, call.now)
    ensures Represents(stamps + [call.now], history + [call], call.now)
  {
    forall i, j | 0 <= i < j < |history + [call]|
      ensures (history + [call])[i].now <= (history + [call])[j].now
    {
      assert history[i] in history;
    }
  }

  /** One call: the pruned list decides exactly as the full history does, and
      goes on representing it. */
  lemma AllowRefines(stamps: seq<Time>, history: seq<Call>, clock: Time, call: Call)
    requires Represents(stamps, history, clock) && clock <= call.now
    ensures Grants(stamps, call) <==> ReferenceGrants(history, call)
    ensures Represents(Charge(stamps, call), if Grants(stamps, call) then history + [call] else history, call.now)
  {
    PruneIsWindow(stamps, history, clock, call.now);
    PruneRepresents(stamps, history, clock, call.now);
    var kept := Prune(stamps, call.now);
    if Grants(stamps, call) {
      Append(kept, history, call);
      assert Charge(stamps, call) == kept + [call.now];
    } else {
      assert Charge(stamps, call) == kept;
    }
  }

  datatype Run = Run(stamps: seq<Time>, history: seq<Call>, decisions: seq<bool>)

  /** The pruned budget over a whole run of calls, together with the grants. */
  function Serve(calls: seq<Call>): Run {
    if calls == [] then Run([], [], [])
    else
      var before := Serve(calls[..|calls| - 1]);
      var call := calls[|calls| - 1];
      var granted := Grants(before.stamps, call);
      Run(Charge(before.stamps, call), if granted then before.history + [call] else before.history,
          before.decisions + [granted])
  }

  /** The full-history reference over the same run. */
  function ReferenceServe(calls: seq<Call>): (seq<Call>, seq<bool>) {
    if calls == [] then ([], [])
    else
      var (history, decisions) := ReferenceServe(calls[..|calls| - 1]);
      var call := calls[|calls| - 1];
      var granted := ReferenceGrants(history, call);
      (if granted then history + [call] else history, decisions + [granted])
  }

  /** Every grant was within its own limit when it was made. */
  ghost predicate WithinLimits(history: seq<Call>) {
    forall i | 0 <= i < |history| :: InWindow(history[..i + 1], history[i].now) <= history[i].limit
  }

  lemma {:induction false} WindowMonotone(history: seq<Call>, n: nat, now: Time)
    requires n <= |history|
    requires forall i | n <= i < |history| :: now < history[i].now
    ensures InWindow(history, now) == InWindow(history[..n], now)
  {
    if n < |history| {
      var front := history[..|history| - 1];
      WindowMonotone(front, n, now);
      assert front[..n] == history[..n];
    } else {
      assert history[..n] == history;
    }
  }

  lemma {:induction false} WindowShift(history: seq<Call>, earlier: Time, later: Time)
    requires earlier <= later
    requires forall h <- history :: h.now <= earlier
    ensures InWindow(history, later) <= InWindow(history, earlier)
  {
    if history != [] {
      var front := history[..|history| - 1];
      assert history[|history| - 1] in history;
      forall h | h in front ensures h.now <= earlier { assert h in history; }
      WindowShift(front, earlier, later);
    }
  }

  /** The grant itself is one of its window. */
  lemma GrantCounts(history: seq<Call>, call: Call)
    requires ReferenceGrants(history, call)
    ensures InWindow(history + [call], call.now) <= call.limit
  {
    var after := history + [call];
    assert after[..|after| - 1] == history;
  }

  /** Adding a grant that the history permits keeps every grant within limits. */
  lemma GrantWithinLimits(history: seq<Call>, call: Call)
    requires WithinLimits(history) && ReferenceGrants(history, call)
    ensures WithinLimits(history + [call])
  {
    var after := history + [call];
    forall i | 0 <= i < |after|
      ensures InWindow(after[..i + 1], after[i].now) <= after[i].limit
    {
      if i < |history| {
        assert after[..i + 1] == history[..i + 1];
      } else {
        assert after[..i + 1] == after;
        GrantCounts(history, call);
      }
    }
  }

  /** Over any run with a nondecreasing clock the pruned budget takes exactly the
      decisions of the full-history reference. */
  lemma {:induction false} ServeRefines(calls: seq<Call>)
    requires Ordered(calls)
    ensures ReferenceServe(calls) == (Serve(calls).history, Serve(calls).decisions)
    ensures Represents(Serve(calls).stamps, Serve(calls).history, if calls == [] then 0 else calls[|calls| - 1].now)
    ensures WithinLimits(Serve(calls).history)
  {
    if calls != [] {
      var front := calls[..|calls| - 1];
      var call := calls[|calls| - 1];
      ServeRefines(front);
      var before := Serve(front);
      AllowRefines(before.stamps, before.history, if front == [] then 0 else front[|front| - 1].now, call);
      if Grants(before.stamps, call) {
        GrantWithinLimits(before.history, call);
      }
    }
  }

  /** Every one-hour window, wherever it ends, holds at most the limit that was
      in force for the last grant inside it. */
  lemma WindowBound(history: seq<Call>, now: Time, last: nat)
    requires Ordered(history) && WithinLimits(history)
    requires last < |history| && history[last].now <= now
    requires forall i | last < i < |history| :: now < history[i].now
    ensures InWindow(history, now) <= history[last].limit
  {
    WindowMonotone(history, last + 1, now);
    WindowShift(history[..last + 1], history[last].now, now);
  }
}
