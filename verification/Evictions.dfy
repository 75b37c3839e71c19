/** What a lookup of the passive cache finds, from the log of captures alone, with
    expiry and with the eviction of the oldest entry, ties included
    (internal/turnstate/cache.go). Captures may come at the same time. */
module Evictions {
  import opened Base
  import opened PassiveCache
  import opened CacheLog
  import opened Captures
  import Text

  /** Captured under an hour ago, and not displaced since. */
  ghost predicate Lives(limits: Limits, log: seq<Capture>, k: Key, now: Time)
    decreases |log|, 1
  {
    Stays(limits, log, k) && now < log[Latest(log, k)].at + 3_600_000_000_000
  }

  /** There is a capture for the key, and none after the last one displaced it. */
  ghost predicate Stays(limits: Limits, log: seq<Capture>, k: Key)
    decreases |log|, 0
  {
    && Latest(log, k) >= 0
    && forall j | Latest(log, k) < j < |log| :: !Displaces(limits, log[..j], log[j], k)
  }

  function Logged(log: seq<Capture>): set<Key> {
    set c | c in log :: c.key
  }

  ghost function Present(limits: Limits, log: seq<Capture>, now: Time): set<Key>
    decreases |log|, 2
  {
    set k | k in Logged(log) && Lives(limits, log, k, now)
  }

  /** The first key was captured before the second; ties go by account, then model. */
  ghost predicate Older(log: seq<Capture>, a: Key, b: Key) {
    var i, j := Latest(log, a), Latest(log, b);
    i >= 0 && j >= 0 && (log[i].at < log[j].at || (log[i].at == log[j].at && Sorts(a, b)))
  }

  predicate Sorts(a: Key, b: Key) {
    Text.Less(a.authID, b.authID) || (a.authID == b.authID && Text.Less(a.model, b.model))
  }

  lemma KeyLessMeans(a: Key, b: Key)
    ensures KeyLess(a, b) <==> Sorts(a, b)
  {
    Text.LessTotal(a.authID, a.authID);
  }

  /** After this log the capture is for a key that is not present, all places are
      taken, and this key is the oldest. */
  ghost predicate Displaces(limits: Limits, log: seq<Capture>, c: Capture, k: Key)
    decreases |log|, 3
  {
    && c.key !in Present(limits, log, c.at)
    && |Present(limits, log, c.at)| >= limits.maxEntries
    && k in Present(limits, log, c.at)
    && forall other | other in Present(limits, log, c.at) && other != k :: Older(log, k, other)
  }

  lemma LatestAppend(log: seq<Capture>, c: Capture, k: Key)
    ensures Latest(log + [c], k) == if c.key == k then |log| else Latest(log, k)
  {
    LogAppend(log, c, k);
  }

  lemma StaysStep(limits: Limits, log: seq<Capture>, c: Capture, k: Key)
    ensures Stays(limits, log + [c], k) <==> c.key == k || (Stays(limits, log, k) && !Displaces(limits, log, c, k))
  {
    var all, n := log + [c], |log|;
    LatestAppend(log, c, k);
    assert all[..n] == log && all[n] == c;
    if c.key != k {
      forall j | Latest(log, k) < j < n
        ensures Displaces(limits, all[..j], all[j], k) <==> Displaces(limits, log[..j], log[j], k)
      {
        assert all[..j] == log[..j] && all[j] == log[j];
      }
      assert Latest(log, k) < n;
    }
  }

  lemma StaysLogged(limits: Limits, log: seq<Capture>, k: Key)
    requires Stays(limits, log, k)
    ensures k in Logged(log)
  {
    assert log[Latest(log, k)] in log;
  }

  // ---- The cache keeps exactly these -------------------------------------

  /** The entry is there and has not expired. */
  predicate Shown(entries: map<Key, Entry>, k: Key, now: Time) {
    k in entries && now < entries[k].expiresAt
  }

  ghost predicate Matches(limits: Limits, entries: map<Key, Entry>, log: seq<Capture>, from: Time, k: Key) {
    forall now: Time | from <= now :: Shown(entries, k, now) <==> Lives(limits, log, k, now)
  }

  ghost predicate MatchesAll(limits: Limits, entries: map<Key, Entry>, log: seq<Capture>, from: Time) {
    forall k :: Matches(limits, entries, log, from, k)
  }

  lemma PresentIsShown(limits: Limits, s: State, log: seq<Capture>, now: Time)
    requires MatchesAll(limits, s.entries, log, now)
    ensures Purged(s, now).entries.Keys == Present(limits, log, now)
    ensures |Purged(s, now).entries| == |Present(limits, log, now)|
  {
    var p := Purged(s, now).entries;
    forall k
      ensures k in p <==> k in Present(limits, log, now)
    {
      assert Matches(limits, s.entries, log, now, k);
      assert Shown(s.entries, k, now) <==> Lives(limits, log, k, now);
      if Lives(limits, log, k, now) {
        StaysLogged(limits, log, k);
      }
    }
    assert p.Keys == Present(limits, log, now);
  }

  lemma OldestIsOlder(limits: Limits, s: State, log: seq<Capture>, now: Time, k: Key)
    requires MatchesAll(limits, s.entries, log, now) && EntriesFromLog(s.entries, log)
    ensures IsOldest(Purged(s, now).entries, k)
       <==> && k in Present(limits, log, now)
            && forall other | other in Present(limits, log, now) && other != k :: Older(log, k, other)
  {
    PresentIsShown(limits, s, log, now);
    var p := Purged(s, now).entries;
    forall other | other in p
      ensures Latest(log, other) >= 0 && log[Latest(log, other)].at == p[other].capturedAt
    {
      assert other in s.entries;
    }
    forall other
      ensures KeyLess(k, other) <==> Sorts(k, other)
    {
      KeyLessMeans(k, other);
    }
  }

  lemma WrittenDisplaces(before: map<Key, Entry>, after: map<Key, Entry>, x: Key, entry: Entry, limit: nat, k: Key)
    requires Written(before, after, x, entry, limit)
    ensures k in after <==> k == x || (k in before && !(x !in before && |before| >= limit && IsOldest(before, k)))
    ensures k in after ==> after[k] == if k == x then entry else before[k]
  {
    if x !in before && |before| >= limit {
      var kept :| EvictedTo(before, kept, limit) && after == kept[x := entry];
      var oldest :| IsOldest(before, oldest) && kept == before - {oldest};
      if IsOldest(before, k) {
        OldestUnique(before, k, oldest);
      }
    }
  }

  lemma MatchesLater(limits: Limits, entries: map<Key, Entry>, log: seq<Capture>, from: Time, later: Time)
    requires MatchesAll(limits, entries, log, from) && from <= later
    ensures MatchesAll(limits, entries, log, later)
  {
    forall k ensures Matches(limits, entries, log, later, k) {
      assert Matches(limits, entries, log, from, k);
    }
  }

  lemma CaptureMatchesAt(limits: Limits, s: State, entries': map<Key, Entry>, log: seq<Capture>, c: Capture, k: Key,
                         now: Time)
    requires MatchesAll(limits, s.entries, log, c.at) && EntriesFromLog(s.entries, log)
    requires CaptureChange(limits, s, entries', c) && c.at <= now
    ensures Shown(entries', k, now) <==> Lives(limits, log + [c], k, now)
  {
    var p := Purged(s, c.at).entries;
    PresentIsShown(limits, s, log, c.at);
    OldestIsOlder(limits, s, log, c.at, k);
    WrittenDisplaces(p, entries', c.key, Entry(c.value, c.at, c.at + STATE_TTL), limits.maxEntries, k);
    StaysStep(limits, log, c, k);
    LatestAppend(log, c, k);
    assert Matches(limits, s.entries, log, c.at, k);
    assert Shown(s.entries, k, now) <==> Lives(limits, log, k, now);
  }

  lemma QuietMatchesAt(limits: Limits, s: State, entries': map<Key, Entry>, log: seq<Capture>, at: Time, k: Key,
                       now: Time)
    requires MatchesAll(limits, s.entries, log, at) && QuietChange(s, at, entries') && at <= now
    ensures Shown(entries', k, now) <==> Lives(limits, log, k, now)
  {
    assert Matches(limits, s.entries, log, at, k);
    assert Shown(s.entries, k, now) <==> Lives(limits, log, k, now);
  }

  lemma StepMatches(limits: Limits, s: State, entries': map<Key, Entry>, log: seq<Capture>, at: Time,
                    captured: Option<Capture>)
    requires MatchesAll(limits, s.entries, log, at) && EntriesFromLog(s.entries, log)
    requires EntriesChange(limits, s, at, entries', captured)
    ensures MatchesAll(limits, entries', Extended(log, captured), at)
  {
    forall k
      ensures Matches(limits, entries', Extended(log, captured), at, k)
    {
      forall now: Time | at <= now
        ensures Shown(entries', k, now) <==> Lives(limits, Extended(log, captured), k, now)
      {
        if captured.Some? {
          CaptureMatchesAt(limits, s, entries', log, captured.value, k, now);
        } else {
          QuietMatchesAt(limits, s, entries', log, at, k, now);
        }
      }
    }
  }

  lemma NothingMatches(limits: Limits)
    ensures MatchesAll(limits, map[], [], 0)
  {
    forall k ensures Matches(limits, map[], [], 0, k) {
      forall now: Time | 0 <= now ensures Shown(map[], k, now) <==> Lives(limits, [], k, now) {
        assert Latest([], k) == -1;
      }
    }
  }

  lemma {:induction false} RunMatches(limits: Limits, states: seq<State>, moments: seq<Moment>)
    requires IsRun(limits, states, moments) && ClockNondecreasing(moments)
    ensures MatchesAll(limits, states[|moments|].entries, Log(limits, states, moments), LastReading(moments))
  {
    if moments == [] {
      NothingMatches(limits);
    } else {
      var n := |moments| - 1;
      var front := Log(limits, states[..n + 1], moments[..n]);
      ClockFront(moments);
      RunMatches(limits, states[..n + 1], moments[..n]);
      RunFromLog(limits, states[..n + 1], moments[..n]);
      MatchesLater(limits, states[n].entries, front, LastReading(moments[..n]), moments[n].now);
      EntriesStep(limits, states[n], moments[n], states[n + 1]);
      StepMatches(limits, states[n], states[n + 1].entries, front, moments[n].now,
                  Captured(limits, states[n], moments[n]));
    }
  }

  /** The reference lookup: the last capture for the key, as long as it lives. */
  ghost function FoundIn(limits: Limits, log: seq<Capture>, k: Key, now: Time): Option<string> {
    var i := Latest(log, k);
    if i >= 0 && Lives(limits, log, k, now) then Some(log[i].value) else None
  }

  /** What a lookup finds, from the history of operations alone and with no condition
      on capture times: the value that the history accepted last for the key, if that
      was under an hour ago and no later capture displaced it. */
  lemma LookupByHistory(limits: Limits, states: seq<State>, moments: seq<Moment>, k: Key, now: Time)
    requires IsRun(limits, states, moments) && ClockNondecreasing(moments)
    requires LastReading(moments) <= now && ValidKey(k)
    ensures LookedUp(states[|moments|], k, now).1 == FoundIn(limits, History(limits, moments), k, now)
  {
    LogIsHistory(limits, states, moments);
    RunMatches(limits, states, moments);
    RunFromLog(limits, states, moments);
    var entries, log := states[|moments|].entries, History(limits, moments);
    assert Matches(limits, entries, log, LastReading(moments), k);
    assert Shown(entries, k, now) <==> Lives(limits, log, k, now);
  }
}
