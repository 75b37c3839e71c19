/** The proxy pool of the engine: rotation, preference and back-off
    (internal/prewarm/engine.go, chooseProxyLocked and markProxy). */
module ProxyPool {
  import opened Base

  datatype Node = Node(url: string, successes: nat, failures: nat, cooldown: Time)

  /** `good` is the preferred proxy, or -1. */
  datatype Pool = Pool(nodes: seq<Node>, next: nat, good: int) {
    predicate Indexed() {
      nodes != [] && next < |nodes| && -1 <= good < |nodes|
    }

    /** A preferred proxy has no failure on record and does not cool down. */
    ghost predicate Valid() {
      && Indexed()
      && (good >= 0 ==> nodes[good].failures == 0 && nodes[good].cooldown == 0)
    }

    predicate Cooling(i: nat, now: Time)
      requires i < |nodes|
    {
      now < nodes[i].cooldown
    }
  }

  function NewPool(urls: seq<string>): Pool {
    Pool(seq(|urls|, i requires 0 <= i < |urls| => Node(urls[i], 0, 0, 0)), 0, -1)
  }

  /** The slot that is `i` places after the rotation pointer. */
  function Slot(p: Pool, i: nat): (slot: nat)
    requires p.nodes != []
    ensures slot < |p.nodes|
  {
    (p.next + i) % |p.nodes|
  }

  /** How far from the rotation pointer the first available proxy is, searching
      from `i`; |nodes| when there is none. */
  function FirstAvailable(p: Pool, i: nat, now: Time): (d: nat)
    requires p.nodes != [] && i <= |p.nodes|
    ensures i <= d <= |p.nodes|
    ensures forall k | i <= k < d :: p.Cooling(Slot(p, k), now)
    ensures d < |p.nodes| ==> !p.Cooling(Slot(p, d), now)
    decreases |p.nodes| - i
  {
    if i == |p.nodes| || !p.Cooling(Slot(p, i), now) then i else FirstAvailable(p, i + 1, now)
  }

  function Choose(p: Pool, now: Time): (r: (Pool, int))
    requires p.Indexed()
    ensures r.0.Indexed() && r.0.nodes == p.nodes && (p.Valid() ==> r.0.Valid())
    ensures -1 <= r.1 < |p.nodes|
    ensures r.1 >= 0 ==> !p.Cooling(r.1, now)
  {
    var q := if p.good >= 0 && p.Cooling(p.good, now) then p.(good := -1) else p;
    if q.good >= 0 then (q, q.good)
    else
      var d := FirstAvailable(q, 0, now);
      if d == |q.nodes| then (q, -1) else (q.(next := (Slot(q, d) + 1) % |q.nodes|), Slot(q, d))
  }

  function Mark(p: Pool, index: int, ok: bool, now: Time, longest: Time): Pool {
    if index < 0 || index >= |p.nodes| then p
    else
      var n := p.nodes[index];
      if ok then
        p.(nodes := p.nodes[index := Node(n.url, n.successes + 1, 0, 0)], good := index)
      else
        var backoff := if (n.failures + 1) * MINUTE > longest then longest else (n.failures + 1) * MINUTE;
        Pool(p.nodes[index := Node(n.url, n.successes, n.failures + 1, now + backoff)], p.next,
             if p.good == index then -1 else p.good)
  }

  lemma NewPoolValid(urls: seq<string>)
    requires urls != []
    ensures NewPool(urls).Valid()
  {
  }

  /** A preferred proxy never cools down, so choosing never has to forget it, and
      it is the one chosen. */
  lemma PreferredIsChosen(p: Pool, now: Time)
    requires p.Valid() && p.good >= 0
    ensures !p.Cooling(p.good, now)
    ensures Choose(p, now) == (p, p.good)
  {
  }

  /** Every proxy is some places after the rotation pointer. */
  lemma SlotOf(p: Pool, x: nat) returns (i: nat)
    requires p.Valid() && x < |p.nodes|
    ensures i < |p.nodes| && Slot(p, i) == x
  {
    i := if p.next <= x then x - p.next else x + |p.nodes| - p.next;
    Wrap(p.next + i, |p.nodes|);
  }

  /** Without a preferred proxy: -1 exactly when every proxy is cooling, and
      otherwise the first available one in rotation order. */
  lemma ChooseRotates(p: Pool, now: Time)
    requires p.Valid() && p.good < 0
    ensures Choose(p, now).1 == -1 <==> forall x | 0 <= x < |p.nodes| :: p.Cooling(x, now)
    ensures Choose(p, now).1 != -1 ==>
              exists d | 0 <= d < |p.nodes| ::
                && Choose(p, now).1 == Slot(p, d)
                && !p.Cooling(Slot(p, d), now)
                && forall k | 0 <= k < d :: p.Cooling(Slot(p, k), now)
  {
    var d := FirstAvailable(p, 0, now);
    if d == |p.nodes| {
      forall x | 0 <= x < |p.nodes|
        ensures p.Cooling(x, now)
      {
        var i := SlotOf(p, x);
      }
    }
  }

  /** Marking keeps the preference sound: a failure is forgotten as preferred and
      cools down for no longer than the configured time; a success clears both. */
  lemma MarkValid(p: Pool, index: int, ok: bool, now: Time, longest: Time)
    requires p.Valid()
    ensures Mark(p, index, ok, now, longest).Valid()
    ensures |Mark(p, index, ok, now, longest).nodes| == |p.nodes|
    ensures forall i | 0 <= i < |p.nodes| ::
              && Mark(p, index, ok, now, longest).nodes[i].url == p.nodes[i].url
              && (i != index ==> Mark(p, index, ok, now, longest).nodes[i] == p.nodes[i])
    ensures 0 <= index < |p.nodes| && !ok ==>
              && Mark(p, index, ok, now, longest).good != index
              && Mark(p, index, ok, now, longest).nodes[index].cooldown <= now + longest
  {
  }

  datatype Marked = Marked(index: int, ok: bool, now: Time)

  /** The pool after a list of marks, of whatever proxies. */
  function MarkAll(p: Pool, marks: seq<Marked>, longest: Time): Pool {
    if marks == [] then p
    else
      var m := marks[|marks| - 1];
      Mark(MarkAll(p, marks[..|marks| - 1], longest), m.index, m.ok, m.now, longest)
  }

  /** How many of the marks of proxy x were failures since its last success. */
  function Streak(marks: seq<Marked>, x: nat): nat {
    if marks == [] then 0
    else
      var m, before := marks[|marks| - 1], Streak(marks[..|marks| - 1], x);
      if m.index != x then before else if m.ok then 0 else before + 1
  }

  /** Mark i is the last one of proxy x. */
  ghost predicate LastMark(marks: seq<Marked>, x: nat, i: nat) {
    i < |marks| && marks[i].index == x && forall j | i < j < |marks| :: marks[j].index != x
  }

  /** Whatever marks of other proxies come between, a proxy that has failed n
      times since its last success rests for n minutes from its last failure, or
      for the configured time if that is less; one success ends it. */
  lemma {:induction false} BackoffGrows(p: Pool, marks: seq<Marked>, x: nat, longest: Time)
    requires x < |p.nodes| && p.nodes[x].failures == 0 && p.nodes[x].cooldown == 0
    ensures var q := MarkAll(p, marks, longest);
            && |q.nodes| == |p.nodes| && q.nodes[x].failures == Streak(marks, x)
            && (Streak(marks, x) == 0 ==> q.nodes[x].cooldown == 0)
            && (Streak(marks, x) > 0 ==>
                  exists i | 0 <= i < |marks| && LastMark(marks, x, i) ::
                    !marks[i].ok && q.nodes[x].cooldown == marks[i].now + Min(Streak(marks, x) * MINUTE, longest))
  {
    if marks != [] {
      var n := |marks| - 1;
      var front := marks[..n];
      BackoffGrows(p, front, x, longest);
      if marks[n].index == x {
        assert LastMark(marks, x, n);
      } else if Streak(front, x) > 0 {
        var i :| 0 <= i < n && LastMark(front, x, i) && !front[i].ok
              && MarkAll(p, front, longest).nodes[x].cooldown == front[i].now + Min(Streak(front, x) * MINUTE, longest);
        assert LastMark(marks, x, i);
      }
    }
  }

  /** What the engine does with its pool: it chooses, and marks. */
  datatype Use = Chosen(now: Time) | Told(mark: Marked)

  function Used(p: Pool, u: Use, longest: Time): Pool
    requires p.Indexed()
  {
    match u
    case Chosen(now) => Choose(p, now).0
    case Told(m) => Mark(p, m.index, m.ok, m.now, longest)
  }

  lemma UsedValid(p: Pool, u: Use, longest: Time)
    requires p.Valid()
    ensures Used(p, u, longest).Valid() && |Used(p, u, longest).nodes| == |p.nodes|
    ensures u.Chosen? ==> Used(p, u, longest).good == p.good && Used(p, u, longest).nodes == p.nodes
  {
    if u.Chosen? && p.good >= 0 {
      PreferredIsChosen(p, u.now);
    }
  }

  /** The pools of a history of uses, from the first to the last. */
  ghost predicate IsHistory(pools: seq<Pool>, uses: seq<Use>, longest: Time) {
    && |pools| == |uses| + 1 && pools[0].Valid() && pools[0].good == -1
    && forall i | 0 <= i < |uses| :: pools[i].Valid() && pools[i + 1] == Used(pools[i], uses[i], longest)
  }

  /** Use i told that proxy x succeeded, none after it that another one did, and none
      after it that x failed. */
  ghost predicate LastGood(uses: seq<Use>, count: nat, x: int, i: nat) {
    && i < |uses| && uses[i].Told? && uses[i].mark.ok && uses[i].mark.index == x && 0 <= x < count
    && forall j | i < j < |uses| && uses[j].Told? ::
         if uses[j].mark.ok then uses[j].mark.index == x || !(0 <= uses[j].mark.index < count)
         else uses[j].mark.index != x
  }

  ghost predicate Preferred(uses: seq<Use>, count: nat, x: int) {
    exists i | 0 <= i < |uses| :: LastGood(uses, count, x, i)
  }

  lemma PreferredStep(front: seq<Use>, u: Use, count: nat, x: int)
    ensures Preferred(front + [u], count, x)
       <==> if u.Told? && u.mark.ok && 0 <= u.mark.index < count then x == u.mark.index
            else if u.Told? && !u.mark.ok && u.mark.index == x then false
            else Preferred(front, count, x)
  {
    var all, n := front + [u], |front|;
    if u.Told? && u.mark.ok && u.mark.index == x && 0 <= x < count {
      assert LastGood(all, count, x, n);
    } else {
      assert all[n] == u;
      if Preferred(all, count, x) {
        var i :| 0 <= i < |all| && LastGood(all, count, x, i);
        assert LastGood(front, count, x, i) by {
          forall j | i < j < n ensures all[j] == front[j] { }
        }
      }
      if Preferred(front, count, x) && Preferred(front + [u], count, x) == false {
        var i :| 0 <= i < n && LastGood(front, count, x, i);
        assert LastGood(all, count, x, i) || (u.Told? && u.mark.ok && 0 <= u.mark.index < count)
            || (u.Told? && !u.mark.ok && u.mark.index == x);
      }
    }
  }

  lemma GoodStep(p: Pool, u: Use, longest: Time, x: int)
    requires p.Valid() && x >= 0
    ensures Used(p, u, longest).good == x
       <==> if u.Told? && u.mark.ok && 0 <= u.mark.index < |p.nodes| then x == u.mark.index
            else if u.Told? && !u.mark.ok && u.mark.index == x then false
            else p.good == x
  {
    UsedValid(p, u, longest);
  }

  /** A proxy is preferred exactly when it succeeded, and since then neither has it
      failed nor another one succeeded, whatever was chosen in between. */
  lemma {:induction false} PreferenceIsLastSuccess(pools: seq<Pool>, uses: seq<Use>, longest: Time, x: int)
    requires IsHistory(pools, uses, longest) && x >= 0
    ensures pools[|uses|].Valid() && |pools[|uses|].nodes| == |pools[0].nodes|
    ensures pools[|uses|].good == x <==> Preferred(uses, |pools[0].nodes|, x)
  {
    if uses != [] {
      var n := |uses| - 1;
      var front := uses[..n];
      PreferenceIsLastSuccess(pools[..n + 1], front, longest, x);
      assert uses == front + [uses[n]];
      UsedValid(pools[n], uses[n], longest);
      GoodStep(pools[n], uses[n], longest, x);
      PreferredStep(front, uses[n], |pools[0].nodes|, x);
    }
  }

  /** And it is the one that is chosen next, at any time. */
  lemma LastSuccessIsChosen(pools: seq<Pool>, uses: seq<Use>, longest: Time, x: int, now: Time)
    requires IsHistory(pools, uses, longest) && Preferred(uses, |pools[0].nodes|, x)
    ensures pools[|uses|].Valid() && Choose(pools[|uses|], now).1 == x
  {
    var i :| 0 <= i < |uses| && LastGood(uses, |pools[0].nodes|, x, i);
    PreferenceIsLastSuccess(pools, uses, longest, x);
    PreferredIsChosen(pools[|uses|], now);
  }

  lemma Wrap(a: nat, n: nat)
    requires 0 < n && a < 2 * n
    ensures a % n == if a < n then a else a - n
  {
  }

  lemma SlotValue(p: Pool, i: nat)
    requires p.Valid() && i < |p.nodes|
    ensures Slot(p, i) == if p.next + i < |p.nodes| then p.next + i else p.next + i - |p.nodes|
  {
    Wrap(p.next + i, |p.nodes|);
  }

  /** The choices made at a list of clock readings with no marks in between. */
  function Choices(p: Pool, nows: seq<Time>): (chosen: seq<int>)
    requires p.Valid()
    ensures |chosen| == |nows|
    decreases |nows|
  {
    if nows == [] then [] else [Choose(p, nows[0]).1] + Choices(Choose(p, nows[0]).0, nows[1..])
  }

  /** A choice when nothing is preferred or cooling: the proxy at the rotation
      pointer, which moves on by one. */
  lemma ChooseNext(p: Pool, now: Time)
    requires p.Valid() && p.good < 0 && !p.Cooling(p.next, now)
    ensures Choose(p, now) == (p.(next := if p.next + 1 == |p.nodes| then 0 else p.next + 1), p.next)
  {
    SlotValue(p, 0);
    assert FirstAvailable(p, 0, now) == 0;
    Wrap(p.next + 1, |p.nodes|);
  }

  lemma {:induction false} ChoicesRotate(p: Pool, nows: seq<Time>, i: nat)
    requires p.Valid() && p.good < 0 && i < |nows| && i < |p.nodes|
    requires forall x, t | 0 <= x < |p.nodes| && t in nows :: !p.Cooling(x, t)
    ensures Choices(p, nows)[i] == Slot(p, i)
    decreases |nows|
  {
    var t := nows[0];
    assert t in nows;
    ChooseNext(p, t);
    SlotValue(p, i);
    if i > 0 {
      var q := Choose(p, t).0;
      forall x, u | 0 <= x < |q.nodes| && u in nows[1..]
        ensures !q.Cooling(x, u)
      {
        assert u in nows && !p.Cooling(x, u);
      }
      ChoicesRotate(q, nows[1..], i - 1);
      SlotValue(q, i - 1);
    }
  }

  /** With no proxy preferred or cooling, as many choices as there are proxies
      visit every proxy exactly once. */
  lemma RotationVisitsAllOnce(p: Pool, nows: seq<Time>, x: nat)
    requires p.Valid() && p.good < 0 && |nows| == |p.nodes| && x < |p.nodes|
    requires forall y, t | 0 <= y < |p.nodes| && t in nows :: !p.Cooling(y, t)
    ensures exists i | 0 <= i < |nows| ::
              Choices(p, nows)[i] == x && forall j | 0 <= j < |nows| && j != i :: Choices(p, nows)[j] != x
  {
    var i := SlotOf(p, x);
    ChoicesRotate(p, nows, i);
    forall j | 0 <= j < |nows| && j != i
      ensures Choices(p, nows)[j] != x
    {
      ChoicesRotate(p, nows, j);
      SlotsDistinct(p, i, j);
    }
  }

  lemma SlotsDistinct(p: Pool, i: nat, j: nat)
    requires p.Valid() && i < |p.nodes| && j < |p.nodes| && i != j
    ensures Slot(p, i) != Slot(p, j)
  {
    SlotValue(p, i);
    SlotValue(p, j);
  }
}
