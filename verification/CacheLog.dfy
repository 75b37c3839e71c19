/** The passive cache against two plain records of what happened: the log of
    accepted captures, and the history of operations. */
module CacheLog {
  import opened Base
  import opened PassiveCache
  import opened Plans

  datatype Op =
    | Bind(id: string, key: Key)
    | BindPlan(id: string, planType: string)
    | Forget(id: string)
    | Lookup(key: Key)
    | Store(id: string, values: seq<string>, plan: string)

  datatype Moment = Moment(op: Op, now: Time)

  datatype Capture = Capture(key: Key, value: string, at: Time)

  ghost predicate Step(limits: Limits, s: State, m: Moment, s': State) {
    match m.op
    case Bind(id, key) => BoundTo(limits, s, s', id, key, m.now)
    case BindPlan(id, planType) => s' == PlanBound(s, id, planType)
    case Forget(id) => s' == Forgotten(s, id)
    case Lookup(key) => s' == LookedUp(s, key, m.now).0
    case Store(id, values, plan) => StoredAs(limits, s, s', id, values, plan, m.now)
  }

  /** The length fits the plan that is named, or else is one of the accepted ones. */
  ghost predicate LengthFits(limits: Limits, value: string, plan: string) {
    if Business(plan) then |value| == 332
    else if Individual(plan) then |value| == 292
    else |value| in limits.acceptedLengths
  }

  lemma AcceptedMeans(limits: Limits, values: seq<string>, plan: string, value: string)
    ensures Accepted(limits, values, plan) == Some(value) <==> values == [value] && LengthFits(limits, value, plan)
  {
    FamilyMeans(plan);
  }

  /** The capture that a step accepts, if any: one value, under a binding that has not
      expired, of the length for the plan that the response or else the binding names. */
  ghost function Captured(limits: Limits, s: State, m: Moment): Option<Capture> {
    if m.op.Store? && m.op.id != "" && m.op.id in s.pending && m.now < s.pending[m.op.id].expiresAt
       && |m.op.values| == 1 && LengthFits(limits, m.op.values[0], NamedPlan(m.op.plan, s.pending[m.op.id]))
    then Some(Capture(s.pending[m.op.id].key, m.op.values[0], m.now))
    else None
  }

  function NamedPlan(plan: string, b: Binding): string {
    if plan == "" then b.planType else plan
  }

  lemma CapturedIsAdmitted(limits: Limits, s: State, m: Moment)
    requires m.op.Store?
    ensures match Admitted(limits, s, m.op.id, m.op.values, m.op.plan, m.now)
            case None => Captured(limits, s, m).None?
            case Some((key, value)) => Captured(limits, s, m) == Some(Capture(key, value, m.now))
  {
    if m.op.id in s.pending {
      var raw := NamedPlan(m.op.plan, s.pending[m.op.id]);
      if |m.op.values| == 1 {
        AcceptedMeans(limits, m.op.values, raw, m.op.values[0]);
      }
      if Accepted(limits, m.op.values, raw).Some? {
        AcceptedMeans(limits, m.op.values, raw, Accepted(limits, m.op.values, raw).value);
      }
    }
  }

  function Extended(log: seq<Capture>, captured: Option<Capture>): seq<Capture> {
    if captured.Some? then log + [captured.value] else log
  }

  /** A run from the empty cache; states[i] is the state before moments[i]. */
  ghost predicate IsRun(limits: Limits, states: seq<State>, moments: seq<Moment>) {
    && 1 <= limits.maxEntries && 1 <= limits.maxPending
    && |states| == |moments| + 1
    && states[0] == State(map[], map[])
    && forall i | 0 <= i < |moments| :: Step(limits, states[i], moments[i], states[i + 1])
  }

  ghost function Log(limits: Limits, states: seq<State>, moments: seq<Moment>): seq<Capture>
    requires |states| == |moments| + 1
  {
    if moments == [] then []
    else
      var n := |moments| - 1;
      Extended(Log(limits, states[..n + 1], moments[..n]), Captured(limits, states[n], moments[n]))
  }

  ghost predicate ClockNondecreasing(moments: seq<Moment>) {
    forall i, j | 0 <= i < j < |moments| :: moments[i].now <= moments[j].now
  }

  ghost predicate CapturesIncreasing(log: seq<Capture>) {
    forall i, j | 0 <= i < j < |log| :: log[i].at < log[j].at
  }

  /** The position of the last capture for a key, or -1. */
  function Latest(log: seq<Capture>, k: Key): (i: int)
    ensures -1 <= i < |log|
    ensures i >= 0 ==> log[i].key == k
    ensures forall j | i < j < |log| :: log[j].key != k
  {
    if log == [] then -1
    else if log[|log| - 1].key == k then |log| - 1
    else Latest(log[..|log| - 1], k)
  }

  /** The distinct keys captured after the last capture for a key. */
  function Others(log: seq<Capture>, k: Key): set<Key> {
    set j | Latest(log, k) < j < |log| :: log[j].key
  }

  /** Fewer than maxEntries other keys were captured since. */
  predicate WithinReach(limits: Limits, log: seq<Capture>, k: Key) {
    |Others(log, k)| < limits.maxEntries
  }

  /** The last capture for the key is under an hour old. */
  predicate Fresh(log: seq<Capture>, k: Key, now: Time) {
    Latest(log, k) >= 0 && now < log[Latest(log, k)].at + STATE_TTL
  }

  /** The reference lookup: the last capture, while it is fresh and within reach. */
  function LogLookup(limits: Limits, log: seq<Capture>, k: Key, now: Time): Option<string> {
    if Fresh(log, k, now) && WithinReach(limits, log, k) then Some(log[Latest(log, k)].value) else None
  }

  /** How a step may change the entries: not at all, by expiry, or by writing
      the capture it adds to the log. */
  ghost predicate EntriesChange(limits: Limits, s: State, now: Time, entries': map<Key, Entry>,
                                captured: Option<Capture>) {
    if captured.Some? then captured.value.at == now && CaptureChange(limits, s, entries', captured.value)
    else QuietChange(s, now, entries')
  }

  ghost predicate QuietChange(s: State, now: Time, entries': map<Key, Entry>) {
    entries' == s.entries || entries' == Purged(s, now).entries
  }

  ghost predicate CaptureChange(limits: Limits, s: State, entries': map<Key, Entry>, c: Capture) {
    Written(Purged(s, c.at).entries, entries', c.key, Entry(c.value, c.at, c.at + STATE_TTL), limits.maxEntries)
  }

  lemma EntriesStep(limits: Limits, s: State, m: Moment, s': State)
    requires Step(limits, s, m, s')
    ensures EntriesChange(limits, s, m.now, s'.entries, Captured(limits, s, m))
  {
    if m.op.Store? {
      CapturedIsAdmitted(limits, s, m);
    }
  }

  /** How a step changes the bindings. */
  lemma PendingStep(limits: Limits, s: State, m: Moment, s': State)
    requires Step(limits, s, m, s')
    ensures m.op.Store? || m.op.Lookup? ==> s'.pending == s.pending || s'.pending == Purged(s, m.now).pending
    ensures m.op.Forget? ==> s'.pending == s.pending || s'.pending == s.pending - {m.op.id}
    ensures m.op.Bind? && m.op.id == "" ==> s'.pending == s.pending
    ensures m.op.Bind? && m.op.id != "" && !ValidKey(m.op.key) ==> s'.pending == Purged(s, m.now).pending - {m.op.id}
    ensures m.op.Bind? && m.op.id != "" && ValidKey(m.op.key) ==>
              PendingWritten(Purged(s, m.now).pending, s'.pending, m.op.id,
                             Binding(m.op.key, "", m.now, m.now + PENDING_TTL), limits.maxPending)
    ensures m.op.BindPlan? ==> s' == PlanBound(s, m.op.id, m.op.planType)
  {
  }

  // ---- Sizes -------------------------------------------------------------

  lemma PurgeShrinks(s: State, now: Time)
    ensures |Purged(s, now).entries| <= |s.entries| && |Purged(s, now).pending| <= |s.pending|
  {
    SmallerMap(Purged(s, now).entries, s.entries);
    SmallerMap(Purged(s, now).pending, s.pending);
  }

  lemma WrittenFits(before: map<Key, Entry>, after: map<Key, Entry>, key: Key, entry: Entry, limit: nat)
    requires |before| <= limit && 1 <= limit && Written(before, after, key, entry, limit)
    ensures |after| <= limit
  {
    if key in before {
      assert after.Keys == before.Keys;
    } else {
      var kept :| EvictedTo(before, kept, limit) && after == kept[key := entry];
      assert after.Keys == kept.Keys + {key};
      if |before| == limit {
        var k :| IsOldest(before, k) && kept == before - {k};
        CardinalityMinus(before, k);
      }
    }
  }

  lemma PendingWrittenFits(before: map<string, Binding>, after: map<string, Binding>, id: string, b: Binding,
                           limit: nat)
    requires |before| <= limit && 1 <= limit && PendingWritten(before, after, id, b, limit)
    ensures |after| <= limit
  {
    if id in before {
      assert after.Keys == before.Keys;
    } else {
      var kept :| PendingEvictedTo(before, kept, limit) && after == kept[id := b];
      assert after.Keys == kept.Keys + {id};
      if |before| == limit {
        var k :| IsOldestPending(before, k) && kept == before - {k};
        CardinalityMinus(before, k);
      }
    }
  }

  lemma EntriesFit(limits: Limits, s: State, m: Moment, s': State)
    requires 1 <= limits.maxEntries && |s.entries| <= limits.maxEntries && Step(limits, s, m, s')
    ensures |s'.entries| <= limits.maxEntries
  {
    PurgeShrinks(s, m.now);
    EntriesStep(limits, s, m, s');
    if Captured(limits, s, m).Some? {
      var c := Captured(limits, s, m).value;
      WrittenFits(Purged(s, m.now).entries, s'.entries, c.key, Entry(c.value, c.at, c.at + STATE_TTL),
                  limits.maxEntries);
    }
  }

  lemma PendingFits(limits: Limits, s: State, m: Moment, s': State)
    requires 1 <= limits.maxPending && |s.pending| <= limits.maxPending && Step(limits, s, m, s')
    ensures |s'.pending| <= limits.maxPending
  {
    PurgeShrinks(s, m.now);
    PendingStep(limits, s, m, s');
    var p := Purged(s, m.now).pending;
    if m.op.Bind? && m.op.id != "" && ValidKey(m.op.key) {
      PendingWrittenFits(p, s'.pending, m.op.id, Binding(m.op.key, "", m.now, m.now + PENDING_TTL), limits.maxPending);
    } else if m.op.Bind? {
      CardinalityMinus(p, m.op.id);
    } else if m.op.Forget? {
      CardinalityMinus(s.pending, m.op.id);
    } else if m.op.BindPlan? {
      assert s'.pending.Keys == s.pending.Keys;
    }
  }

  lemma StepFits(limits: Limits, s: State, m: Moment, s': State)
    requires 1 <= limits.maxEntries && 1 <= limits.maxPending && WithinLimits(limits, s) && Step(limits, s, m, s')
    ensures WithinLimits(limits, s')
  {
    EntriesFit(limits, s, m, s');
    PendingFits(limits, s, m, s');
  }

  /** Neither map ever outgrows its limit, in any state of any run. */
  lemma {:induction false} RunFits(limits: Limits, states: seq<State>, moments: seq<Moment>, i: nat)
    requires IsRun(limits, states, moments) && i < |states|
    ensures WithinLimits(limits, states[i])
  {
    if i > 0 {
      RunFits(limits, states, moments, i - 1);
      StepFits(limits, states[i - 1], moments[i - 1], states[i]);
    }
  }

  // ---- The log -----------------------------------------------------------

  lemma LogAppend(log: seq<Capture>, c: Capture, k: Key)
    ensures Latest(log + [c], k) == if c.key == k then |log| else Latest(log, k)
    ensures Others(log + [c], k) == if c.key == k then {} else Others(log, k) + {c.key}
  {
    var after := log + [c];
    assert after[..|after| - 1] == log;
    if c.key != k {
      assert forall j | Latest(log, k) < j < |log| :: after[j] == log[j];
      forall x | x in Others(log, k) + {c.key}
        ensures x in Others(after, k)
      {
        if x == c.key {
          assert after[|log|].key == x;
        } else {
          var j :| Latest(log, k) < j < |log| && log[j].key == x;
          assert after[j].key == x;
        }
      }
    }
  }

  /** A key captured later has fewer other keys after it. */
  lemma OthersNested(log: seq<Capture>, older: Key, newer: Key)
    requires 0 <= Latest(log, older) < Latest(log, newer)
    ensures newer in Others(log, older)
    ensures Others(log, newer) <= Others(log, older) - {newer}
    ensures |Others(log, newer)| < |Others(log, older)|
  {
    assert log[Latest(log, newer)].key == newer;
    SubsetSize(Others(log, newer), Others(log, older) - {newer});
  }

  /** Every entry is the last capture for its key. */
  ghost predicate EntriesFromLog(entries: map<Key, Entry>, log: seq<Capture>) {
    forall k | k in entries ::
      && Latest(log, k) >= 0
      && entries[k] == Entry(log[Latest(log, k)].value, log[Latest(log, k)].at, log[Latest(log, k)].at + STATE_TTL)
  }

  /** The entries are the recent enough captures, apart from those the clock has
      already expired. */
  ghost predicate EntriesExact(limits: Limits, entries: map<Key, Entry>, log: seq<Capture>, clock: Time) {
    && (forall k | k in entries :: WithinReach(limits, log, k))
    && (forall k | Fresh(log, k, clock) && WithinReach(limits, log, k) :: k in entries)
  }

  lemma WrittenKeeps(before: map<Key, Entry>, after: map<Key, Entry>, key: Key, entry: Entry, limit: nat, k: Key)
    requires Written(before, after, key, entry, limit) && k in after
    ensures if k == key then after[k] == entry else k in before && after[k] == before[k]
  {
  }

  lemma StoreFromLog(limits: Limits, entries: map<Key, Entry>, entries': map<Key, Entry>, log: seq<Capture>, c: Capture)
    requires EntriesFromLog(entries, log)
    requires Written(entries, entries', c.key, Entry(c.value, c.at, c.at + STATE_TTL), limits.maxEntries)
    ensures EntriesFromLog(entries', log + [c])
  {
    forall k | k in entries'
      ensures var i := Latest(log + [c], k);
              i >= 0 && entries'[k] == Entry((log + [c])[i].value, (log + [c])[i].at, (log + [c])[i].at + STATE_TTL)
    {
      LogAppend(log, c, k);
      WrittenKeeps(entries, entries', c.key, Entry(c.value, c.at, c.at + STATE_TTL), limits.maxEntries, k);
    }
  }

  lemma ChangeFromLog(limits: Limits, s: State, now: Time, entries': map<Key, Entry>, log: seq<Capture>,
                      captured: Option<Capture>)
    requires EntriesFromLog(s.entries, log) && EntriesChange(limits, s, now, entries', captured)
    ensures EntriesFromLog(entries', Extended(log, captured))
  {
    if captured.Some? {
      StoreFromLog(limits, Purged(s, now).entries, entries', log, captured.value);
    }
  }

  /** With any clock at all: an entry is always the last capture for its key. */
  lemma StepFromLog(limits: Limits, s: State, m: Moment, s': State, log: seq<Capture>)
    requires EntriesFromLog(s.entries, log) && Step(limits, s, m, s')
    ensures EntriesFromLog(s'.entries, Extended(log, Captured(limits, s, m)))
  {
    EntriesStep(limits, s, m, s');
    ChangeFromLog(limits, s, m.now, s'.entries, log, Captured(limits, s, m));
  }

  lemma {:induction false} RunFromLog(limits: Limits, states: seq<State>, moments: seq<Moment>)
    requires IsRun(limits, states, moments)
    ensures EntriesFromLog(states[|moments|].entries, Log(limits, states, moments))
  {
    if moments != [] {
      var n := |moments| - 1;
      RunFromLog(limits, states[..n + 1], moments[..n]);
      StepFromLog(limits, states[n], moments[n], states[n + 1], Log(limits, states[..n + 1], moments[..n]));
    }
  }

  /** Whatever the clock does, a hit returns the value of the last capture for
      the key, and that capture is under an hour old. */
  lemma HitIsLatestAndFresh(limits: Limits, states: seq<State>, moments: seq<Moment>, k: Key, now: Time)
    requires IsRun(limits, states, moments)
    requires LookedUp(states[|moments|], k, now).1.Some?
    ensures var log := Log(limits, states, moments);
            var i := Latest(log, k);
            i >= 0 && now < log[i].at + STATE_TTL && LookedUp(states[|moments|], k, now).1.value == log[i].value
  {
    RunFromLog(limits, states, moments);
  }

  lemma PurgeExact(limits: Limits, s: State, log: seq<Capture>, clock: Time, now: Time)
    requires EntriesFromLog(s.entries, log) && EntriesExact(limits, s.entries, log, clock) && clock <= now
    ensures EntriesFromLog(Purged(s, now).entries, log) && EntriesExact(limits, Purged(s, now).entries, log, now)
    ensures forall k | k in Purged(s, now).entries :: Fresh(log, k, now)
  {
    forall k | Fresh(log, k, now) && WithinReach(limits, log, k)
      ensures k in Purged(s, now).entries
    {
      assert Fresh(log, k, clock);
    }
  }

  lemma OtherIsLater(log: seq<Capture>, k: Key, x: Key)
    requires Latest(log, k) >= 0 && x in Others(log, k)
    ensures Latest(log, k) < Latest(log, x)
  {
    var j :| Latest(log, k) < j < |log| && log[j].key == x;
    assert log[j].key == x;
  }

  lemma LaterIsEntry(limits: Limits, entries: map<Key, Entry>, log: seq<Capture>, now: Time, k: Key, x: Key)
    requires EntriesExact(limits, entries, log, now) && CapturesIncreasing(log)
    requires Fresh(log, k, now) && WithinReach(limits, log, k) && Latest(log, k) < Latest(log, x)
    ensures x in entries
  {
    OthersNested(log, k, x);
    assert log[Latest(log, k)].at < log[Latest(log, x)].at;
    assert Fresh(log, x, now) && WithinReach(limits, log, x);
  }

  /** The keys captured after a surviving entry all survive. */
  lemma OthersAreEntries(limits: Limits, entries: map<Key, Entry>, log: seq<Capture>, now: Time, k: Key)
    requires EntriesExact(limits, entries, log, now) && CapturesIncreasing(log)
    requires k in entries && Fresh(log, k, now)
    ensures |Others(log, k)| < |entries|
  {
    forall x | x in Others(log, k)
      ensures x in entries.Keys - {k}
    {
      OtherIsLater(log, k, x);
      LaterIsEntry(limits, entries, log, now, k, x);
    }
    SubsetSize(Others(log, k), entries.Keys - {k});
  }

  lemma OldestIsEarliest(entries: map<Key, Entry>, oldest: Key, k: Key)
    requires IsOldest(entries, oldest) && k in entries && k != oldest
    ensures oldest in entries && entries[oldest].capturedAt <= entries[k].capturedAt
  {
    assert EvictsFirst(entries, oldest, k);
  }

  /** Among distinct capture times the entry evicted first is the one captured first. */
  lemma OldestCapturedFirst(entries: map<Key, Entry>, log: seq<Capture>, oldest: Key, k: Key)
    requires EntriesFromLog(entries, log) && CapturesIncreasing(log)
    requires k in entries && oldest in entries && k != oldest
    requires entries[oldest].capturedAt <= entries[k].capturedAt
    ensures 0 <= Latest(log, oldest) < Latest(log, k)
  {
  }

  /** A capture for a key that is already there pushes no other entry out of reach. */
  lemma RewriteWithinReach(limits: Limits, entries: map<Key, Entry>, log: seq<Capture>, c: Key, k: Key)
    requires EntriesFromLog(entries, log) && k in entries && c in entries && k != c
    requires WithinReach(limits, log, k) && WithinReach(limits, log, c)
    ensures |Others(log, k) + {c}| < limits.maxEntries
  {
    if Latest(log, c) < Latest(log, k) {
      OthersNested(log, c, k);
    } else {
      assert log[Latest(log, c)].key == c;
      assert log[Latest(log, k)].key == k;
      assert Others(log, k) + {c} == Others(log, k);
    }
  }

  /** Nor does a capture for a new key, once the oldest entry made room for it. */
  lemma EvictionWithinReach(limits: Limits, entries: map<Key, Entry>, log: seq<Capture>, c: Key, k: Key, oldest: Key)
    requires EntriesFromLog(entries, log) && CapturesIncreasing(log)
    requires IsOldest(entries, oldest) && k in entries && k != oldest
    requires WithinReach(limits, log, oldest)
    ensures |Others(log, k) + {c}| < limits.maxEntries
  {
    OldestIsEarliest(entries, oldest, k);
    OldestCapturedFirst(entries, log, oldest, k);
    OthersNested(log, oldest, k);
  }

  /** An evicted entry has maxEntries other keys after it. */
  lemma EvictedOutOfReach(limits: Limits, entries: map<Key, Entry>, log: seq<Capture>, c: Key, oldest: Key)
    requires |entries| == limits.maxEntries && c !in entries
    requires EntriesFromLog(entries, log) && CapturesIncreasing(log)
    requires IsOldest(entries, oldest)
    ensures |Others(log, oldest) + {c}| >= limits.maxEntries
  {
    var rest := entries.Keys - {oldest};
    forall k | k in rest
      ensures k in Others(log, oldest)
    {
      OldestIsEarliest(entries, oldest, k);
      OldestCapturedFirst(entries, log, oldest, k);
      OthersNested(log, oldest, k);
    }
    assert |rest + {c}| == limits.maxEntries;
    SubsetSize(rest + {c}, Others(log, oldest) + {c});
  }

  /** Every entry that remains after a capture is within reach of the new log. */
  lemma StoreKeepsReach(limits: Limits, entries: map<Key, Entry>, entries': map<Key, Entry>, log: seq<Capture>,
                        c: Capture, k: Key)
    requires |entries| <= limits.maxEntries && 1 <= limits.maxEntries
    requires EntriesFromLog(entries, log) && EntriesExact(limits, entries, log, c.at) && CapturesIncreasing(log)
    requires forall x | x in entries :: Fresh(log, x, c.at)
    requires Written(entries, entries', c.key, Entry(c.value, c.at, c.at + STATE_TTL), limits.maxEntries)
    requires k in entries'
    ensures WithinReach(limits, log + [c], k)
  {
    LogAppend(log, c, k);
    if k != c.key {
      if c.key in entries {
        RewriteWithinReach(limits, entries, log, c.key, k);
      } else {
        var kept :| EvictedTo(entries, kept, limits.maxEntries)
                    && entries' == kept[c.key := Entry(c.value, c.at, c.at + STATE_TTL)];
        if |entries| < limits.maxEntries {
          OthersAreEntries(limits, entries, log, c.at, k);
        } else {
          var oldest :| IsOldest(entries, oldest) && kept == entries - {oldest};
          EvictionWithinReach(limits, entries, log, c.key, k, oldest);
        }
      }
    }
  }

  /** Only the oldest entry of a full map is ever dropped. */
  lemma WrittenDrops(before: map<Key, Entry>, after: map<Key, Entry>, key: Key, entry: Entry, limit: nat, k: Key)
    requires Written(before, after, key, entry, limit) && |before| <= limit && k in before && k !in after
    ensures key !in before && |before| == limit && IsOldest(before, k)
  {
  }

  /** Every key that is fresh and within reach of the new log is an entry. */
  lemma StoreReachesAll(limits: Limits, entries: map<Key, Entry>, entries': map<Key, Entry>, log: seq<Capture>,
                        c: Capture, k: Key)
    requires |entries| <= limits.maxEntries
    requires EntriesFromLog(entries, log) && EntriesExact(limits, entries, log, c.at) && CapturesIncreasing(log)
    requires Written(entries, entries', c.key, Entry(c.value, c.at, c.at + STATE_TTL), limits.maxEntries)
    requires Fresh(log + [c], k, c.at) && WithinReach(limits, log + [c], k)
    ensures k in entries'
  {
    LogAppend(log, c, k);
    if k != c.key {
      SubsetSize(Others(log, k), Others(log, k) + {c.key});
      assert Fresh(log, k, c.at) && WithinReach(limits, log, k);
      if k !in entries' {
        WrittenDrops(entries, entries', c.key, Entry(c.value, c.at, c.at + STATE_TTL), limits.maxEntries, k);
        EvictedOutOfReach(limits, entries, log, c.key, k);
      }
    }
  }

  lemma StoreExact(limits: Limits, entries: map<Key, Entry>, entries': map<Key, Entry>, log: seq<Capture>, c: Capture)
    requires 1 <= limits.maxEntries && |entries| <= limits.maxEntries
    requires EntriesFromLog(entries, log) && EntriesExact(limits, entries, log, c.at) && CapturesIncreasing(log)
    requires forall x | x in entries :: Fresh(log, x, c.at)
    requires Written(entries, entries', c.key, Entry(c.value, c.at, c.at + STATE_TTL), limits.maxEntries)
    ensures EntriesExact(limits, entries', log + [c], c.at)
  {
    var after := log + [c];
    forall k | k in entries'
      ensures WithinReach(limits, after, k)
    {
      StoreKeepsReach(limits, entries, entries', log, c, k);
    }
    forall k | Fresh(after, k, c.at) && WithinReach(limits, after, k)
      ensures k in entries'
    {
      StoreReachesAll(limits, entries, entries', log, c, k);
    }
  }

  lemma CaptureExact(limits: Limits, s: State, entries': map<Key, Entry>, log: seq<Capture>, clock: Time, c: Capture)
    requires 1 <= limits.maxEntries && |s.entries| <= limits.maxEntries
    requires EntriesFromLog(s.entries, log) && EntriesExact(limits, s.entries, log, clock) && clock <= c.at
    requires CaptureChange(limits, s, entries', c)
    requires CapturesIncreasing(log)
    ensures EntriesExact(limits, entries', log + [c], c.at)
  {
    PurgeExact(limits, s, log, clock, c.at);
    PurgeShrinks(s, c.at);
    StoreExact(limits, Purged(s, c.at).entries, entries', log, c);
  }

  lemma QuietExact(limits: Limits, s: State, now: Time, entries': map<Key, Entry>, log: seq<Capture>, clock: Time)
    requires EntriesFromLog(s.entries, log) && EntriesExact(limits, s.entries, log, clock) && clock <= now
    requires QuietChange(s, now, entries')
    ensures EntriesExact(limits, entries', log, now)
  {
    if entries' == s.entries {
      ClockAdvances(limits, s.entries, log, clock, now);
    } else {
      PurgeExact(limits, s, log, clock, now);
    }
  }

  /** Whatever a step does to the entries keeps them exact. */
  lemma StepExact(limits: Limits, s: State, now: Time, entries': map<Key, Entry>, captured: Option<Capture>,
                  log: seq<Capture>, clock: Time)
    requires 1 <= limits.maxEntries && |s.entries| <= limits.maxEntries && clock <= now
    requires EntriesFromLog(s.entries, log) && EntriesExact(limits, s.entries, log, clock)
    requires EntriesChange(limits, s, now, entries', captured)
    requires CapturesIncreasing(log)
    ensures EntriesExact(limits, entries', Extended(log, captured), now)
  {
    if captured.Some? {
      CaptureExact(limits, s, entries', log, clock, captured.value);
    } else {
      QuietExact(limits, s, now, entries', log, clock);
    }
  }

  lemma ClockAdvances(limits: Limits, entries: map<Key, Entry>, log: seq<Capture>, clock: Time, now: Time)
    requires EntriesExact(limits, entries, log, clock) && clock <= now
    ensures EntriesExact(limits, entries, log, now)
  {
    forall k | Fresh(log, k, now) && WithinReach(limits, log, k)
      ensures k in entries
    {
      assert Fresh(log, k, clock);
    }
  }

  lemma IncreasingPrefix(log: seq<Capture>, captured: Option<Capture>)
    requires CapturesIncreasing(Extended(log, captured))
    ensures CapturesIncreasing(log)
  {
    forall i, j | 0 <= i < j < |log|
      ensures log[i].at < log[j].at
    {
      assert Extended(log, captured)[i] == log[i] && Extended(log, captured)[j] == log[j];
    }
  }

  function LastReading(moments: seq<Moment>): Time {
    if moments == [] then 0 else moments[|moments| - 1].now
  }

  lemma {:induction false} RunExact(limits: Limits, states: seq<State>, moments: seq<Moment>)
    requires IsRun(limits, states, moments) && ClockNondecreasing(moments)
    requires CapturesIncreasing(Log(limits, states, moments))
    ensures EntriesExact(limits, states[|moments|].entries, Log(limits, states, moments), LastReading(moments))
  {
    if moments != [] {
      var n := |moments| - 1;
      var front := Log(limits, states[..n + 1], moments[..n]);
      var captured := Captured(limits, states[n], moments[n]);
      IncreasingPrefix(front, captured);
      RunExact(limits, states[..n + 1], moments[..n]);
      RunFromLog(limits, states[..n + 1], moments[..n]);
      RunFits(limits, states, moments, n);
      EntriesStep(limits, states[n], moments[n], states[n + 1]);
      StepExact(limits, states[n], moments[n].now, states[n + 1].entries, captured, front, LastReading(moments[..n]));
    }
  }

  /** With a nondecreasing clock and distinct capture times, the cache answers
      exactly as the log of captures does. */
  lemma LookupRefinesLog(limits: Limits, states: seq<State>, moments: seq<Moment>, k: Key, now: Time)
    requires IsRun(limits, states, moments) && ClockNondecreasing(moments)
    requires CapturesIncreasing(Log(limits, states, moments))
    requires LastReading(moments) <= now
    requires ValidKey(k)
    ensures LookedUp(states[|moments|], k, now).1 == LogLookup(limits, Log(limits, states, moments), k, now)
  {
    RunFromLog(limits, states, moments);
    RunExact(limits, states, moments);
  }

  // ---- Provenance --------------------------------------------------------

  /** The binding of a request after one more operation. */
  function Rebound(before: Option<Binding>, m: Moment, id: string): Option<Binding> {
    match m.op
    case Bind(i, key) =>
      if i != id || id == "" then before
      else if ValidKey(key) then Some(Binding(key, "", m.now, m.now + PENDING_TTL))
      else None
    case BindPlan(i, planType) =>
      if i == id && planType != "" && before.Some? then Some(before.value.(planType := planType)) else before
    case Forget(i) => if i == id then None else before
    case _ => before
  }

  /** The live binding of a request according to the history alone. */
  function BindingOf(moments: seq<Moment>, id: string): Option<Binding> {
    if moments == [] then None
    else Rebound(BindingOf(moments[..|moments| - 1], id), moments[|moments| - 1], id)
  }

  /** The operation notes a plan for the request. */
  predicate NotesPlan(m: Moment, id: string) {
    m.op.BindPlan? && m.op.id == id && m.op.planType != ""
  }

  predicate Unbinds(m: Moment, id: string) {
    m.op == Forget(id) || (m.op.Bind? && m.op.id == id)
  }

  /** The plan is that of the last operation after the i-th that notes one for the
      request, or "" if none does. */
  ghost predicate PlanSince(moments: seq<Moment>, i: nat, id: string, plan: string) {
    || (plan == "" && forall j | i < j < |moments| :: !NotesPlan(moments[j], id))
    || (plan != "" && exists j | i < j < |moments| ::
          moments[j].op == BindPlan(id, plan) && forall l | j < l < |moments| :: !NotesPlan(moments[l], id))
  }

  /** The i-th operation made the binding, and nothing forgot or replaced it since. */
  ghost predicate BoundAt(moments: seq<Moment>, i: nat, id: string, b: Binding) {
    && i < |moments| && moments[i].op == Bind(id, b.key) && ValidKey(b.key)
    && b.createdAt == moments[i].now && b.expiresAt == moments[i].now + PENDING_TTL
    && (forall j | i < j < |moments| :: !Unbinds(moments[j], id))
    && PlanSince(moments, i, id, b.planType)
  }

  lemma PlanSinceStep(moments: seq<Moment>, m: Moment, i: nat, id: string, plan: string)
    requires i < |moments| && PlanSince(moments, i, id, plan)
    ensures PlanSince(moments + [m], i, id, if NotesPlan(m, id) then m.op.planType else plan)
  {
    var all := moments + [m];
    if NotesPlan(m, id) {
      assert all[|moments|].op == BindPlan(id, m.op.planType);
    } else if plan != "" {
      var j :| i < j < |moments| && moments[j].op == BindPlan(id, plan)
            && forall l | j < l < |moments| :: !NotesPlan(moments[l], id);
      assert all[j].op == BindPlan(id, plan);
    }
  }

  lemma BoundAtStep(moments: seq<Moment>, m: Moment, i: nat, id: string, b: Binding)
    requires BoundAt(moments, i, id, b) && !Unbinds(m, id)
    ensures BoundAt(moments + [m], i, id, if NotesPlan(m, id) then b.(planType := m.op.planType) else b)
  {
    PlanSinceStep(moments, m, i, id, b.planType);
  }

  /** The binding is the most recent one for the request, with a valid key;
      nothing forgot or replaced it since; and its plan is the last one that was
      noted for the request since then, if any was. */
  lemma {:induction false} BindingIsMostRecent(moments: seq<Moment>, id: string)
    requires BindingOf(moments, id).Some?
    ensures exists i | 0 <= i < |moments| :: BoundAt(moments, i, id, BindingOf(moments, id).value)
  {
    var n := |moments| - 1;
    var front, m := moments[..n], moments[n];
    assert moments == front + [m];
    if m.op.Bind? && m.op.id == id && id != "" {
      assert BoundAt(moments, n, id, BindingOf(moments, id).value);
    } else {
      BindingIsMostRecent(front, id);
      BindingNamed(front, id);
      var i :| 0 <= i < |front| && BoundAt(front, i, id, BindingOf(front, id).value);
      BoundAtStep(front, m, i, id, BindingOf(front, id).value);
    }
  }

  lemma {:induction false} BindingNamed(moments: seq<Moment>, id: string)
    requires BindingOf(moments, id).Some?
    ensures id != ""
  {
    if id == "" && moments != [] {
      BindingNamed(moments[..|moments| - 1], id);
    }
  }

  ghost predicate PendingFromHistory(s: State, moments: seq<Moment>) {
    forall id | id in s.pending :: BindingOf(moments, id) == Some(s.pending[id])
  }

  lemma PendingWrittenKeeps(before: map<string, Binding>, after: map<string, Binding>, id: string, b: Binding,
                            limit: nat, x: string)
    requires PendingWritten(before, after, id, b, limit) && x in after
    ensures if x == id then after[x] == b else x in before && after[x] == before[x]
  {
  }

  /** A binding that is still pending after a step is what the step makes of it. */
  lemma StepRebinds(limits: Limits, s: State, m: Moment, s': State, id: string)
    requires Step(limits, s, m, s') && id in s'.pending && (id in s.pending ==> id != "")
    ensures Rebound(if id in s.pending then Some(s.pending[id]) else None, m, id) == Some(s'.pending[id])
  {
    PendingStep(limits, s, m, s');
    if m.op.Bind? && m.op.id != "" && ValidKey(m.op.key) {
      PendingWrittenKeeps(Purged(s, m.now).pending, s'.pending, m.op.id,
                          Binding(m.op.key, "", m.now, m.now + PENDING_TTL), limits.maxPending, id);
    }
  }

  lemma StepKeepsBinding(limits: Limits, s: State, m: Moment, s': State, moments: seq<Moment>, id: string)
    requires PendingFromHistory(s, moments) && Step(limits, s, m, s') && id in s'.pending
    ensures BindingOf(moments + [m], id) == Some(s'.pending[id])
  {
    assert (moments + [m])[..|moments|] == moments;
    if id in s.pending {
      BindingNamed(moments, id);
    }
    StepRebinds(limits, s, m, s', id);
    if id !in s.pending {
      FreshBinding(m, id, BindingOf(moments, id));
    }
  }

  /** A request without a binding gets one only by being bound, whatever it had before. */
  lemma FreshBinding(m: Moment, id: string, before: Option<Binding>)
    requires Rebound(None, m, id).Some?
    ensures Rebound(before, m, id) == Rebound(None, m, id)
  {
  }

  lemma StepFromHistory(limits: Limits, s: State, m: Moment, s': State, moments: seq<Moment>)
    requires PendingFromHistory(s, moments) && Step(limits, s, m, s')
    ensures PendingFromHistory(s', moments + [m])
  {
    forall id | id in s'.pending
      ensures BindingOf(moments + [m], id) == Some(s'.pending[id])
    {
      StepKeepsBinding(limits, s, m, s', moments, id);
    }
  }

  lemma {:induction false} RunFromHistory(limits: Limits, states: seq<State>, moments: seq<Moment>)
    requires IsRun(limits, states, moments)
    ensures PendingFromHistory(states[|moments|], moments)
  {
    if moments != [] {
      var n := |moments| - 1;
      RunFromHistory(limits, states[..n + 1], moments[..n]);
      StepFromHistory(limits, states[n], moments[n], states[n + 1], moments[..n]);
      assert moments == moments[..n] + [moments[n]];
    }
  }

  /** A capture the history accounts for: moment n was a response of a request
      whose live binding at that time was this key and under two hours old, and
      the value fits the plan supplied, or else the one bound since. */
  ghost predicate Accounted(limits: Limits, moments: seq<Moment>, n: nat, c: Capture)
    requires n < |moments|
  {
    && moments[n].op.Store?
    && moments[n].now == c.at
    && var binding := BindingOf(moments[..n], moments[n].op.id);
    && binding.Some?
    && binding.value.key == c.key
    && c.at < binding.value.expiresAt
    && moments[n].op.values == [c.value]
    && LengthFits(limits, c.value, NamedPlan(moments[n].op.plan, binding.value))
  }

  lemma {:induction false} LogAccounted(limits: Limits, states: seq<State>, moments: seq<Moment>)
    requires IsRun(limits, states, moments)
    ensures forall c <- Log(limits, states, moments) ::
              exists n | 0 <= n < |moments| :: Accounted(limits, moments, n, c)
  {
    if moments != [] {
      var last := |moments| - 1;
      LogAccounted(limits, states[..last + 1], moments[..last]);
      RunFromHistory(limits, states[..last + 1], moments[..last]);
      forall c | c in Log(limits, states, moments)
        ensures exists n | 0 <= n < |moments| :: Accounted(limits, moments, n, c)
      {
        if c in Log(limits, states[..last + 1], moments[..last]) {
          var n :| 0 <= n < last && Accounted(limits, moments[..last], n, c);
          assert moments[..last][..n] == moments[..n];
          assert Accounted(limits, moments, n, c);
        } else {
          assert Captured(limits, states[last], moments[last]) == Some(c);
          assert Accounted(limits, moments, last, c);
        }
      }
    }
  }

  /** Every entry of every reachable cache is accounted for by the history. */
  lemma EntriesAccounted(limits: Limits, states: seq<State>, moments: seq<Moment>, k: Key)
    requires IsRun(limits, states, moments) && k in states[|moments|].entries
    ensures var entry := states[|moments|].entries[k];
            exists n | 0 <= n < |moments| :: Accounted(limits, moments, n, Capture(k, entry.value, entry.capturedAt))
  {
    RunFromLog(limits, states, moments);
    LogAccounted(limits, states, moments);
    var log := Log(limits, states, moments);
    assert log[Latest(log, k)] in log;
  }
}
