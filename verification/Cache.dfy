/** The passive capture cache (internal/turnstate/cache.go): its state, its
    operations and the object with its purge and eviction loops. */
module PassiveCache {
  import opened Base
  import Text

  const STATE_LENGTH: nat := 292
  const STATE_LENGTH_TEAM: nat := 332
  const STATE_TTL: Time := HOUR
  const PENDING_TTL: Time := 2 * HOUR

  datatype Entry = Entry(value: string, capturedAt: Time, expiresAt: Time)
  datatype Binding = Binding(key: Key, planType: string, createdAt: Time, expiresAt: Time)
  datatype Limits = Limits(maxEntries: nat, maxPending: nat, acceptedLengths: seq<nat>)
  datatype State = State(entries: map<Key, Entry>, pending: map<string, Binding>)

  predicate ValidKey(key: Key) {
    key.authID != "" && key.model != ""
  }

  predicate KeyLess(a: Key, b: Key) {
    if a.authID != b.authID then Text.Less(a.authID, b.authID) else Text.Less(a.model, b.model)
  }

  /** The single header value, when its length fits the plan; an unknown plan
      falls back to the accepted lengths. */
  function Accepted(limits: Limits, values: seq<string>, rawPlan: string): Option<string> {
    if |values| != 1 then None
    else
      var plan := Text.ToLower(Text.TrimSpace(rawPlan));
      var fits :=
        if plan in {"team", "business", "self_serve_business_prolite"} then |values[0]| == STATE_LENGTH_TEAM
        else if plan in {"pro", "plus", "free", "individual"} then |values[0]| == STATE_LENGTH
        else |values[0]| in limits.acceptedLengths;
      if fits then Some(values[0]) else None
  }

  function Purged(s: State, now: Time): State {
    State(map k | k in s.entries && now < s.entries[k].expiresAt :: s.entries[k],
          map id | id in s.pending && now < s.pending[id].expiresAt :: s.pending[id])
  }

  /** Eviction order: capture time, ties by key. */
  predicate EvictsFirst(entries: map<Key, Entry>, a: Key, b: Key)
    requires a in entries && b in entries
  {
    || entries[a].capturedAt < entries[b].capturedAt
    || (entries[a].capturedAt == entries[b].capturedAt && KeyLess(a, b))
  }

  ghost predicate IsOldest(entries: map<Key, Entry>, k: Key) {
    k in entries && forall other | other in entries && other != k :: EvictsFirst(entries, k, other)
  }

  predicate PendingFirst(pending: map<string, Binding>, a: string, b: string)
    requires a in pending && b in pending
  {
    || pending[a].createdAt < pending[b].createdAt
    || (pending[a].createdAt == pending[b].createdAt && Text.Less(a, b))
  }

  ghost predicate IsOldestPending(pending: map<string, Binding>, id: string) {
    id in pending && forall other | other in pending && other != id :: PendingFirst(pending, id, other)
  }

  lemma KeyOrder(a: Key, b: Key)
    ensures KeyLess(a, b) || KeyLess(b, a) || a == b
    ensures !(KeyLess(a, b) && KeyLess(b, a))
  {
    Text.LessTotal(a.authID, b.authID);
    Text.LessTotal(a.model, b.model);
  }

  lemma KeyLessTransitive(a: Key, b: Key, c: Key)
    requires KeyLess(a, b) && KeyLess(b, c)
    ensures KeyLess(a, c)
  {
    Text.LessTotal(a.authID, b.authID);
    Text.LessTotal(a.authID, a.authID);
    if a.authID == b.authID == c.authID {
      Text.LessTransitive(a.model, b.model, c.model);
    } else if a.authID != b.authID && b.authID != c.authID {
      Text.LessTransitive(a.authID, b.authID, c.authID);
    }
  }

  lemma EvictsTransitive(entries: map<Key, Entry>, a: Key, b: Key, c: Key)
    requires a in entries && b in entries && c in entries
    requires EvictsFirst(entries, a, b) && EvictsFirst(entries, b, c)
    ensures EvictsFirst(entries, a, c)
  {
    if KeyLess(a, b) && KeyLess(b, c) {
      KeyLessTransitive(a, b, c);
    }
  }

  lemma PendingTransitive(pending: map<string, Binding>, a: string, b: string, c: string)
    requires a in pending && b in pending && c in pending
    requires PendingFirst(pending, a, b) && PendingFirst(pending, b, c)
    ensures PendingFirst(pending, a, c)
  {
    if Text.Less(a, b) && Text.Less(b, c) {
      Text.LessTransitive(a, b, c);
    }
  }

  /** The order has one oldest entry at most, so eviction does not depend on the
      order in which the map is visited. */
  lemma OldestUnique(entries: map<Key, Entry>, a: Key, b: Key)
    requires IsOldest(entries, a) && IsOldest(entries, b)
    ensures a == b
  {
    KeyOrder(a, b);
  }

  lemma OldestPendingUnique(pending: map<string, Binding>, a: string, b: string)
    requires IsOldestPending(pending, a) && IsOldestPending(pending, b)
    ensures a == b
  {
    Text.LessTotal(a, b);
  }

  /** Room for one more entry: a full map gives up its oldest entry. */
  ghost predicate EvictedTo(before: map<Key, Entry>, after: map<Key, Entry>, limit: nat) {
    if |before| < limit then after == before
    else exists k :: IsOldest(before, k) && after == before - {k}
  }

  ghost predicate PendingEvictedTo(before: map<string, Binding>, after: map<string, Binding>, limit: nat) {
    if |before| < limit then after == before
    else exists id :: IsOldestPending(before, id) && after == before - {id}
  }

  /** An entry written in place, or added once there is room for it. */
  ghost predicate Written(before: map<Key, Entry>, after: map<Key, Entry>, key: Key, entry: Entry, limit: nat) {
    if key in before then after == before[key := entry]
    else exists kept :: EvictedTo(before, kept, limit) && after == kept[key := entry]
  }

  ghost predicate PendingWritten(before: map<string, Binding>, after: map<string, Binding>, id: string, b: Binding,
                                 limit: nat)
  {
    if id in before then after == before[id := b]
    else exists kept :: PendingEvictedTo(before, kept, limit) && after == kept[id := b]
  }

  /** The state after binding a request; eviction of other bindings only happens
      for a request that has none. */
  ghost predicate BoundTo(limits: Limits, before: State, after: State, id: string, key: Key, now: Time) {
    if id == "" then after == before
    else
      var s := Purged(before, now);
      if !ValidKey(key) then after == s.(pending := s.pending - {id})
      else
        && after.entries == s.entries
        && PendingWritten(s.pending, after.pending, id, Binding(key, "", now, now + PENDING_TTL), limits.maxPending)
  }

  function PlanBound(s: State, id: string, planType: string): State {
    if id == "" || planType == "" || id !in s.pending then s
    else s.(pending := s.pending[id := s.pending[id].(planType := planType)])
  }

  function Forgotten(s: State, id: string): State {
    if id == "" then s else s.(pending := s.pending - {id})
  }

  function LookedUp(s: State, key: Key, now: Time): (State, Option<string>) {
    if !ValidKey(key) then (s, None)
    else
      var p := Purged(s, now);
      (p, if key in p.entries then Some(p.entries[key].value) else None)
  }

  /** What a response is accepted as, if it is: the binding's key and the value. */
  function Admitted(limits: Limits, s: State, id: string, values: seq<string>, plan: string, now: Time)
    : Option<(Key, string)>
  {
    var p := Purged(s, now);
    if id == "" || id !in p.pending then None
    else
      var raw := if plan == "" && p.pending[id].planType != "" then p.pending[id].planType else plan;
      match Accepted(limits, values, raw)
      case None => None
      case Some(value) => Some((p.pending[id].key, value))
  }

  ghost predicate StoredAs(limits: Limits, before: State, after: State, id: string, values: seq<string>, plan: string,
                           now: Time)
  {
    var p := Purged(before, now);
    if id == "" then after == before
    else match Admitted(limits, before, id, values, plan, now)
      case None => after == p
      case Some((key, value)) =>
        && after.pending == p.pending
        && Written(p.entries, after.entries, key, Entry(value, now, now + STATE_TTL), limits.maxEntries)
  }

  ghost predicate WithinLimits(limits: Limits, s: State) {
    |s.entries| <= limits.maxEntries && |s.pending| <= limits.maxPending
  }

  class Cache {
    const limits: Limits
    var entries: map<Key, Entry>
    var pending: map<string, Binding>

    ghost function Now(): State
      reads this
    {
      State(entries, pending)
    }

    ghost predicate Valid()
      reads this
    {
      1 <= limits.maxEntries && 1 <= limits.maxPending && WithinLimits(limits, Now())
    }

    constructor (maxEntries: int, maxPending: int, acceptedLengths: seq<int>)
      ensures Valid() && Now() == State(map[], map[])
      ensures limits.maxEntries == (if maxEntries < 1 then 1 else maxEntries)
      ensures limits.maxPending == (if maxPending < 1 then 1 else maxPending)
      ensures forall n: nat :: n in limits.acceptedLengths <==>
                (n in acceptedLengths && n > 0)
                || ((forall l <- acceptedLengths :: l <= 0) && (n == STATE_LENGTH || n == STATE_LENGTH_TEAM))
    {
      var lengths: seq<nat> := [];
      for i := 0 to |acceptedLengths|
        invariant forall n: nat :: n in lengths <==> n in acceptedLengths[..i] && n > 0
      {
        if acceptedLengths[i] > 0 {
          lengths := lengths + [acceptedLengths[i]];
        }
      }
      assert acceptedLengths[..|acceptedLengths|] == acceptedLengths;
      if |lengths| == 0 {
        lengths := [STATE_LENGTH, STATE_LENGTH_TEAM];
      } else {
        assert lengths[0] in lengths;
      }
      limits := Limits(if maxEntries < 1 then 1 else maxEntries, if maxPending < 1 then 1 else maxPending, lengths);
      entries, pending := map[], map[];
    }

    method BindPlan(id: string, planType: string)
      requires Valid()
      modifies this
      ensures Valid() && Now() == PlanBound(old(Now()), id, planType)
    {
      if id == "" || planType == "" {
        return;
      }
      if id in pending {
        var b := pending[id];
        assert pending.Keys == (pending[id := b.(planType := planType)]).Keys;
        pending := pending[id := b.(planType := planType)];
      }
    }

    method BindRequest(id: string, key: Key, now: Time)
      requires Valid()
      modifies this
      ensures Valid() && BoundTo(limits, old(Now()), Now(), id, key, now)
    {
      if id == "" {
        return;
      }
      PurgeExpiredLocked(now);
      if !ValidKey(key) {
        CardinalityMinus(pending, id);
        pending := pending - {id};
        return;
      }
      BindLocked(id, key, now);
    }

    method BindLocked(id: string, key: Key, now: Time)
      requires Valid()
      modifies this`pending
      ensures Valid()
      ensures PendingWritten(old(pending), pending, id, Binding(key, "", now, now + PENDING_TTL), limits.maxPending)
    {
      if id !in pending {
        EvictPendingLocked();
      }
      ghost var kept := pending;
      pending := pending[id := Binding(key, "", now, now + PENDING_TTL)];
      CardinalityPlus(kept, id, Binding(key, "", now, now + PENDING_TTL));
    }

    method ForgetRequest(id: string)
      requires Valid()
      modifies this
      ensures Valid() && Now() == Forgotten(old(Now()), id)
    {
      if id == "" {
        return;
      }
      CardinalityMinus(pending, id);
      pending := pending - {id};
    }

    method Lookup(key: Key, now: Time) returns (hit: Option<string>)
      requires Valid()
      modifies this
      ensures Valid() && (Now(), hit) == LookedUp(old(Now()), key, now)
    {
      if !ValidKey(key) {
        return None;
      }
      PurgeExpiredLocked(now);
      if key !in entries {
        return None;
      }
      return Some(entries[key].value);
    }

    method StoreResponseForRequest(id: string, values: seq<string>, plan: string, now: Time)
      returns (stored: Option<Key>, replaced: bool)
      requires Valid()
      modifies this
      ensures Valid() && StoredAs(limits, old(Now()), Now(), id, values, plan, now)
      ensures stored == match Admitted(limits, old(Now()), id, values, plan, now)
                        case None => None
                        case Some((key, _)) => Some(key)
      ensures replaced <==> stored.Some? && stored.value in Purged(old(Now()), now).entries
    {
      if id == "" {
        return None, false;
      }
      PurgeExpiredLocked(now);
      if id !in pending {
        return None, false;
      }
      var binding := pending[id];
      var raw := plan;
      if raw == "" && binding.planType != "" {
        raw := binding.planType;
      }
      var value := ValidatePlanAndLength(values, raw);
      if value.None? {
        return None, false;
      }
      replaced := StoreLocked(binding.key, value.value, now);
      stored := Some(binding.key);
    }

    method StoreLocked(key: Key, value: string, now: Time) returns (replaced: bool)
      requires Valid()
      modifies this`entries
      ensures Valid()
      ensures replaced <==> key in old(entries)
      ensures Written(old(entries), entries, key, Entry(value, now, now + STATE_TTL), limits.maxEntries)
    {
      replaced := key in entries;
      if !replaced {
        EvictEntriesLocked();
      }
      ghost var kept := entries;
      entries := entries[key := Entry(value, now, now + STATE_TTL)];
      CardinalityPlus(kept, key, Entry(value, now, now + STATE_TTL));
    }

    method ValidatePlanAndLength(values: seq<string>, rawPlan: string) returns (value: Option<string>)
      ensures value == Accepted(limits, values, rawPlan)
    {
      if |values| != 1 {
        return None;
      }
      var plan := Text.ToLower(Text.TrimSpace(rawPlan));
      if plan in {"team", "business", "self_serve_business_prolite"} {
        return if |values[0]| == STATE_LENGTH_TEAM then Some(values[0]) else None;
      }
      if plan in {"pro", "plus", "free", "individual"} {
        return if |values[0]| == STATE_LENGTH then Some(values[0]) else None;
      }
      for i := 0 to |limits.acceptedLengths|
        invariant forall j | 0 <= j < i :: limits.acceptedLengths[j] != |values[0]|
      {
        if |values[0]| == limits.acceptedLengths[i] {
          return Some(values[0]);
        }
      }
      return None;
    }

    method PurgeExpiredLocked(now: Time)
      requires Valid()
      modifies this
      ensures Valid() && Now() == Purged(old(Now()), now)
    {
      PurgeEntries(now);
      PurgePending(now);
    }

    /** The loop over the entries. */
    method PurgeEntries(now: Time)
      requires Valid()
      modifies this`entries
      ensures Valid() && entries == Purged(old(Now()), now).entries
    {
      var keys := entries.Keys;
      while keys != {}
        invariant keys <= entries.Keys <= old(entries).Keys
        invariant forall k | k in old(entries) :: k in entries <==> k in keys || now < old(entries)[k].expiresAt
        invariant forall k | k in entries :: entries[k] == old(entries)[k]
        decreases |keys|
      {
        var k :| k in keys;
        if entries[k].expiresAt <= now {
          entries := entries - {k};
        }
        keys := keys - {k};
      }
      SmallerMap(entries, old(entries));
    }

    /** The loop over the bindings. */
    method PurgePending(now: Time)
      requires Valid()
      modifies this`pending
      ensures Valid() && pending == Purged(old(Now()), now).pending
    {
      var ids := pending.Keys;
      while ids != {}
        invariant ids <= pending.Keys <= old(pending).Keys
        invariant forall id | id in old(pending) :: id in pending <==> id in ids || now < old(pending)[id].expiresAt
        invariant forall id | id in pending :: pending[id] == old(pending)[id]
        decreases |ids|
      {
        var id :| id in ids;
        if pending[id].expiresAt <= now {
          pending := pending - {id};
        }
        ids := ids - {id};
      }
      SmallerMap(pending, old(pending));
    }

    method EvictEntriesLocked()
      requires Valid()
      modifies this`entries
      ensures EvictedTo(old(entries), entries, limits.maxEntries) && |entries| < limits.maxEntries
    {
      while |entries| >= limits.maxEntries
        invariant entries == old(entries) || EvictedTo(old(entries), entries, limits.maxEntries)
        invariant |entries| < limits.maxEntries || entries == old(entries)
        decreases |entries|
      {
        var oldest := OldestEntry();
        CardinalityMinus(entries, oldest);
        entries := entries - {oldest};
      }
    }

    method OldestEntry() returns (oldest: Key)
      requires entries != map[]
      ensures IsOldest(entries, oldest)
    {
      var keys := entries.Keys;
      oldest :| oldest in keys;
      keys := keys - {oldest};
      while keys != {}
        invariant oldest in entries && oldest !in keys && keys <= entries.Keys
        invariant forall k | k in entries && k !in keys && k != oldest :: EvictsFirst(entries, oldest, k)
        decreases |keys|
      {
        var k :| k in keys;
        KeyOrder(k, oldest);
        if entries[k].capturedAt < entries[oldest].capturedAt
           || (entries[k].capturedAt == entries[oldest].capturedAt && KeyLess(k, oldest)) {
          forall other | other in entries && other !in keys && other != oldest
            ensures EvictsFirst(entries, k, other)
          {
            EvictsTransitive(entries, k, oldest, other);
          }
          oldest := k;
        }
        keys := keys - {k};
      }
    }

    method EvictPendingLocked()
      requires Valid()
      modifies this`pending
      ensures PendingEvictedTo(old(pending), pending, limits.maxPending) && |pending| < limits.maxPending
    {
      while |pending| >= limits.maxPending
        invariant pending == old(pending) || PendingEvictedTo(old(pending), pending, limits.maxPending)
        invariant |pending| < limits.maxPending || pending == old(pending)
        decreases |pending|
      {
        var oldest := OldestPending();
        CardinalityMinus(pending, oldest);
        pending := pending - {oldest};
      }
    }

    method OldestPending() returns (oldest: string)
      requires pending != map[]
      ensures IsOldestPending(pending, oldest)
    {
      var ids := pending.Keys;
      oldest :| oldest in ids;
      ids := ids - {oldest};
      while ids != {}
        invariant oldest in pending && oldest !in ids && ids <= pending.Keys
        invariant forall id | id in pending && id !in ids && id != oldest :: PendingFirst(pending, oldest, id)
        decreases |ids|
      {
        var id :| id in ids;
        Text.LessTotal(id, oldest);
        if pending[id].createdAt < pending[oldest].createdAt
           || (pending[id].createdAt == pending[oldest].createdAt && Text.Less(id, oldest)) {
          forall other | other in pending && other !in ids && other != oldest
            ensures PendingFirst(pending, id, other)
          {
            PendingTransitive(pending, id, oldest, other);
          }
          oldest := id;
        }
        ids := ids - {id};
      }
    }
  }

  lemma CardinalityPlus<K, V>(m: map<K, V>, k: K, v: V)
    ensures |m[k := v]| == if k in m then |m| else |m| + 1
  {
    assert m[k := v].Keys == m.Keys + {k};
    if k in m {
      assert m.Keys + {k} == m.Keys;
    }
  }

  lemma CardinalityMinus<K, V>(m: map<K, V>, k: K)
    ensures |m - {k}| == if k in m then |m| - 1 else |m|
  {
    assert (m - {k}).Keys == m.Keys - {k};
    if k !in m {
      assert m - {k} == m;
    }
  }
}
