/** From the headers of a response to the next request of its key
    (internal/turnstate/interceptor.go, capture; internal/turnstate/cache.go). */
module Capturing {
  import opened Base
  import opened EngineState
  import opened Interceptor
  import opened CacheLog
  import opened Captures
  import C = PassiveCache
  import Text

  /** One spelling of the header has this value, and no other spelling has any. */
  predicate OnlyValue(h: Headers, header: string, name: string, value: string) {
    && name in h && Text.EqualFold(name, header) && h[name] == [value]
    && forall other | other in h && other != name && Text.EqualFold(other, header) :: h[other] == []
  }

  lemma {:induction false} JoinedOnly(h: Headers, order: seq<string>, header: string, name: string, value: string)
    requires OnlyValue(h, header, name, value) && Distinct(order)
    requires forall n <- order :: n in h && Text.EqualFold(n, header)
    ensures Joined(h, order) == if name in order then [value] else []
  {
    if order != [] {
      var n := |order| - 1;
      JoinedOnly(h, order[..n], header, name, value);
      assert order == order[..n] + [order[n]];
      assert order[n] !in order[..n];
      assert order[n] in order;
    }
  }

  lemma GatheredOnly(h: Headers, header: string, name: string, value: string, values: seq<string>)
    requires OnlyValue(h, header, name, value) && Gathered(h, header, values)
    ensures values == [value]
  {
    var order :| Spellings(order, h, header) && values == Joined(h, order);
    assert Interceptor.Named(h, header, name);
    JoinedOnly(h, order, header, name, value);
  }

  /** The value fits the plan that the headers name, or the one noted for the request
      when they name none, whichever spelling of the plan header is read. */
  ghost predicate Fits(limits: C.Limits, h: Headers, value: string, noted: string) {
    forall plan | PlanRead(h, plan) :: LengthFits(limits, value, if plan == "" then noted else plan)
  }

  /** A response with one turn state of the right length, for a request whose binding is
      alive, is what the next hour's lookups of its key find, whatever was captured for
      the key before. */
  lemma CapturedThenFound(limits: C.Limits, c: C.State, c': C.State, id: string, h: Headers, name: string,
                          value: string, now: Time, later: Time)
    requires CapturedFrom(limits, c, c', id, h, now) && OnlyValue(h, "X-Codex-Turn-State", name, value)
    requires id != "" && id in c.pending && now < c.pending[id].expiresAt && C.ValidKey(c.pending[id].key)
    requires Fits(limits, h, value, c.pending[id].planType)
    requires now <= later < now + 3_600_000_000_000
    ensures C.LookedUp(c', c.pending[id].key, later).1 == Some(value)
  {
    var values, plan :| Gathered(h, STATE_HEADER, values) && PlanRead(h, plan)
                        && C.StoredAs(limits, c, c', id, values, plan, now);
    GatheredOnly(h, STATE_HEADER, name, value, values);
    StoreThenLookup(limits, c, c', id, values, plan, now, later);
  }

  /** A response without a turn state, or with several, captures nothing. */
  lemma OthersCaptureNothing(limits: C.Limits, c: C.State, c': C.State, id: string, h: Headers, values: seq<string>,
                             now: Time)
    requires CapturedFrom(limits, c, c', id, h, now) && Gathered(h, STATE_HEADER, values) && |values| != 1
    ensures c'.entries == c.entries || c'.entries == C.Purged(c, now).entries
  {
    var own, plan :| Gathered(h, STATE_HEADER, own) && PlanRead(h, plan)
                     && C.StoredAs(limits, c, c', id, own, plan, now);
    OrderDoesNotMatter(limits, h, STATE_HEADER, own, values, plan);
  }
}
