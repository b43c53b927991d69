/**
 * The waiting queue: items ordered by base priority plus aging, where the
 * comparison reads the clock and the resulting order does not.
 */
module AgingQueue {
  import opened Clock
  import opened Optional
  import opened ClassSplit

  type ApplianceId = string
  type ChanId = nat

  /** A waiting long-poll request; ch names its one-slot response channel. */
  datatype Item = Item(
    appliance: ApplianceId,
    class_: PriorityClass,
    base: real,
    queuedAt: Time,
    backlog: int,
    ch: ChanId)

  function AgeSeconds(it: Item, now: Time): real {
    (now - it.queuedAt) as real / 1_000_000_000.0
  }

  function Effective(omega: real, it: Item, now: Time): real {
    it.base + omega * AgeSeconds(it, now)
  }

  // ---- the stable descending sort ----

  /** x placed behind every item of the sorted list that does not rank strictly below it. */
  function Insert(omega: real, sorted: seq<Item>, x: Item, now: Time): seq<Item> {
    if sorted != [] && Effective(omega, x, now) > Effective(omega, sorted[|sorted| - 1], now)
    then Insert(omega, sorted[..|sorted| - 1], x, now) + [sorted[|sorted| - 1]]
    else sorted + [x]
  }

  function SortAt(omega: real, s: seq<Item>, now: Time): (t: seq<Item>)
  {
    if s == [] then [] else Insert(omega, SortAt(omega, s[..|s| - 1], now), s[|s| - 1], now)
  }

  ghost predicate Descending(omega: real, s: seq<Item>, now: Time) {
    forall i, j :: 0 <= i < j < |s| ==> Effective(omega, s[i], now) >= Effective(omega, s[j], now)
  }

  /** The items of one effective priority, in list order. */
  function Peers(omega: real, s: seq<Item>, level: real, now: Time): seq<Item> {
    if s == [] then []
    else
      var front := Peers(omega, s[..|s| - 1], level, now);
      var last := s[|s| - 1];
      if Effective(omega, last, now) == level then front + [last] else front
  }

  /** The gap between two effective priorities is the same at every instant. */
  lemma GapIsConstant(omega: real, a: Item, b: Item, now: Time)
    ensures Effective(omega, a, now) - Effective(omega, b, now)
         == a.base - b.base - omega * ((a.queuedAt - b.queuedAt) as real / 1_000_000_000.0)
  {
    var x, y := AgeSeconds(a, now), AgeSeconds(b, now);
    assert x - y == -((a.queuedAt - b.queuedAt) as real / 1_000_000_000.0);
    assert omega * x - omega * y == omega * (x - y);
  }

  /** Which of two items ranks higher does not depend on when they are compared. */
  lemma OrderIsClockIndependent(omega: real, a: Item, b: Item, now: Time, later: Time)
    ensures Effective(omega, a, now) > Effective(omega, b, now)
       <==> Effective(omega, a, later) > Effective(omega, b, later)
    ensures Effective(omega, a, now) == Effective(omega, b, now)
       <==> Effective(omega, a, later) == Effective(omega, b, later)
  {
    GapIsConstant(omega, a, b, now);
    GapIsConstant(omega, a, b, later);
  }

  /** Placing x before position p, when the item just ahead of it ranks strictly below x. */
  lemma InsertMovesLeft(omega: real, sorted: seq<Item>, p: nat, x: Item, now: Time)
    requires 0 < p <= |sorted| && Effective(omega, x, now) > Effective(omega, sorted[p - 1], now)
    ensures Insert(omega, sorted[..p], x, now) + sorted[p..]
         == Insert(omega, sorted[..p - 1], x, now) + sorted[p - 1..]
  {
    hide Effective;
    assert sorted[..p][..p - 1] == sorted[..p - 1];
    assert sorted[p - 1..] == [sorted[p - 1]] + sorted[p..];
  }

  lemma InsertStops(omega: real, sorted: seq<Item>, p: nat, x: Item, now: Time)
    requires p <= |sorted| && (p == 0 || Effective(omega, x, now) <= Effective(omega, sorted[p - 1], now))
    ensures Insert(omega, sorted[..p], x, now) == sorted[..p] + [x]
  {
    hide Effective;
  }

  lemma SortNothing(omega: real, none: seq<Item>, now: Time)
    requires none == []
    ensures SortAt(omega, none, now) == []
  {
  }

  lemma SortExtends(omega: real, s: seq<Item>, k: nat, now: Time)
    requires k < |s|
    ensures SortAt(omega, s[..k + 1], now) == Insert(omega, SortAt(omega, s[..k], now), s[k], now)
  {
    hide Effective, Insert;
    assert s[..k + 1][..k] == s[..k];
  }

  lemma {:induction false} InsertIsClockIndependent(omega: real, sorted: seq<Item>, x: Item, now: Time, later: Time)
    ensures Insert(omega, sorted, x, now) == Insert(omega, sorted, x, later)
  {
    if sorted != [] {
      OrderIsClockIndependent(omega, x, sorted[|sorted| - 1], now, later);
      InsertIsClockIndependent(omega, sorted[..|sorted| - 1], x, now, later);
    }
  }

  lemma {:induction false} SortIsClockIndependent(omega: real, s: seq<Item>, now: Time, later: Time)
    ensures SortAt(omega, s, now) == SortAt(omega, s, later)
  {
    if s != [] {
      SortIsClockIndependent(omega, s[..|s| - 1], now, later);
      InsertIsClockIndependent(omega, SortAt(omega, s[..|s| - 1], now), s[|s| - 1], now, later);
    }
  }

  lemma {:induction false} InsertKeepsItems(omega: real, sorted: seq<Item>, x: Item, now: Time)
    ensures multiset(Insert(omega, sorted, x, now)) == multiset(sorted) + multiset{x}
  {
    hide Effective;
    if sorted != [] {
      InsertKeepsItems(omega, sorted[..|sorted| - 1], x, now);
      assert sorted == sorted[..|sorted| - 1] + [sorted[|sorted| - 1]];
    }
  }

  /** Every item of the list the insertion made is x or was there before. */
  lemma InsertedItems(omega: real, sorted: seq<Item>, x: Item, now: Time, y: Item)
    requires y in Insert(omega, sorted, x, now)
    ensures y == x || y in sorted
  {
    hide Insert;
    InsertKeepsItems(omega, sorted, x, now);
    assert y in multiset(Insert(omega, sorted, x, now));
  }

  lemma {:induction false} InsertSorts(omega: real, sorted: seq<Item>, x: Item, now: Time)
    requires Descending(omega, sorted, now)
    ensures Descending(omega, Insert(omega, sorted, x, now), now)
    ensures multiset(Insert(omega, sorted, x, now)) == multiset(sorted) + multiset{x}
  {
    hide Effective;
    InsertKeepsItems(omega, sorted, x, now);
    var n := |sorted|;
    if n > 0 && Effective(omega, x, now) > Effective(omega, sorted[n - 1], now) {
      var front := sorted[..n - 1];
      InsertSorts(omega, front, x, now);
      var r := Insert(omega, front, x, now);
      forall i | 0 <= i < |r| ensures Effective(omega, r[i], now) >= Effective(omega, sorted[n - 1], now) {
        InsertedItems(omega, front, x, now, r[i]);
      }
    }
  }

  /** The sort gives a descending arrangement of the same items. */
  lemma {:induction false} SortSorts(omega: real, s: seq<Item>, now: Time)
    ensures Descending(omega, SortAt(omega, s, now), now)
    ensures multiset(SortAt(omega, s, now)) == multiset(s)
    ensures |SortAt(omega, s, now)| == |s|
  {
    if s != [] {
      SortSorts(omega, s[..|s| - 1], now);
      InsertSorts(omega, SortAt(omega, s[..|s| - 1], now), s[|s| - 1], now);
      assert s == s[..|s| - 1] + [s[|s| - 1]];
    }
    assert |multiset(SortAt(omega, s, now))| == |SortAt(omega, s, now)|;
  }

  lemma {:induction false} InsertKeepsPeers(omega: real, sorted: seq<Item>, x: Item, level: real, now: Time)
    requires Descending(omega, sorted, now)
    ensures Peers(omega, Insert(omega, sorted, x, now), level, now) == Peers(omega, sorted + [x], level, now)
  {
    hide Effective;
    var n := |sorted|;
    if n > 0 && Effective(omega, x, now) > Effective(omega, sorted[n - 1], now) {
      var front, last := sorted[..n - 1], sorted[n - 1];
      InsertKeepsPeers(omega, front, x, level, now);
      var r := Insert(omega, front, x, now);
      assert (r + [last])[..|r|] == r;
      assert (front + [x])[..n - 1] == front;
      assert (sorted + [x])[..n] == sorted;
    }
  }

  /** Items of equal priority keep their list order: the sort is stable. */
  lemma {:induction false} SortIsStable(omega: real, s: seq<Item>, level: real, now: Time)
    ensures Peers(omega, SortAt(omega, s, now), level, now) == Peers(omega, s, level, now)
  {
    hide Effective;
    if s != [] {
      var front, last := s[..|s| - 1], s[|s| - 1];
      var t := SortAt(omega, front, now);
      SortSorts(omega, front, now);
      SortIsStable(omega, front, level, now);
      InsertKeepsPeers(omega, t, last, level, now);
      assert (t + [last])[..|t|] == t;
    }
  }

  lemma {:induction false} SortOfSorted(omega: real, s: seq<Item>, now: Time)
    requires Descending(omega, s, now)
    ensures SortAt(omega, s, now) == s
  {
    if s != [] {
      SortOfSorted(omega, s[..|s| - 1], now);
      assert s == s[..|s| - 1] + [s[|s| - 1]];
    }
  }

  /** The item popped first and what is left, when the queue is popped at one clock reading. */
  function Pop(omega: real, s: seq<Item>, now: Time): (Item, seq<Item>)
    requires s != []
  {
    SortSorts(omega, s, now);
    var t := SortAt(omega, s, now);
    (t[0], t[1..])
  }

  function PopAll(omega: real, s: seq<Item>, times: seq<Time>): seq<Item>
    requires |times| == |s|
    decreases |s|
  {
    if s == [] then []
    else
      SortSorts(omega, s, times[0]);
      var (best, rest) := Pop(omega, s, times[0]);
      [best] + PopAll(omega, rest, times[1..])
  }

  /** A pop takes a maximal item, the first of its priority in list order, and loses nothing. */
  lemma PopTakesFirstMaximum(omega: real, s: seq<Item>, now: Time)
    requires s != []
    ensures var (best, rest) := Pop(omega, s, now);
      && multiset(s) == multiset(rest) + multiset{best} && |rest| == |s| - 1
      && (forall i :: 0 <= i < |s| ==> Effective(omega, best, now) >= Effective(omega, s[i], now))
      && Peers(omega, s, Effective(omega, best, now), now) != []
      && best == Peers(omega, s, Effective(omega, best, now), now)[0]
  {
    hide Effective;
    var t := SortAt(omega, s, now);
    SortSorts(omega, s, now);
    var best, rest := t[0], t[1..];
    assert t == [best] + rest;
    forall i | 0 <= i < |s| ensures Effective(omega, best, now) >= Effective(omega, s[i], now) {
      assert s[i] in multiset(s);
      assert s[i] in t;
    }
    var level := Effective(omega, best, now);
    SortIsStable(omega, s, level, now);
    PeersHead(omega, t, level, now);
  }

  lemma {:induction false} PeersHead(omega: real, s: seq<Item>, level: real, now: Time)
    requires s != [] && Effective(omega, s[0], now) == level
    ensures Peers(omega, s, level, now) != [] && Peers(omega, s, level, now)[0] == s[0]
  {
    if |s| > 1 {
      PeersHead(omega, s[..|s| - 1], level, now);
    } else {
      assert s[..0] == [];
    }
  }

  /** Popping everything, at whatever instants, yields the one descending arrangement. */
  lemma {:induction false} PopsFollowOneOrder(omega: real, s: seq<Item>, times: seq<Time>, now: Time)
    requires |times| == |s|
    ensures PopAll(omega, s, times) == SortAt(omega, s, now)
    decreases |s|
  {
    hide Effective, Insert;
    if s != [] {
      var t := SortAt(omega, s, times[0]);
      SortIsClockIndependent(omega, s, times[0], now);
      SortSorts(omega, s, times[0]);
      var rest := t[1..];
      assert Descending(omega, rest, times[0]);
      PopsFollowOneOrder(omega, rest, times[1..], times[0]);
      SortOfSorted(omega, rest, times[0]);
      assert t == [t[0]] + rest;
    }
  }

  /**
   * Aging bounds overtaking: if x ranks at least as high as y at any instant,
   * x was queued at most (x.base - y.base)/omega seconds after y.
   */
  lemma OvertakingBound(omega: real, x: Item, y: Item, now: Time)
    requires omega > 0.0 && Effective(omega, x, now) >= Effective(omega, y, now)
    ensures (x.queuedAt - y.queuedAt) as real / 1_000_000_000.0 <= (x.base - y.base) / omega
  {
    GapIsConstant(omega, x, y, now);
    var lag := (x.queuedAt - y.queuedAt) as real / 1_000_000_000.0;
    assert omega * lag <= x.base - y.base;
    DivideBound(omega, lag, x.base - y.base);
  }

  lemma DivideBound(omega: real, lag: real, gap: real)
    requires omega > 0.0 && omega * lag <= gap
    ensures lag <= gap / omega
  {
    assert omega * (gap / omega) == gap;
    assert omega * (gap / omega - lag) >= 0.0;
  }

  // ---- membership and removal ----

  predicate HasAppliance(s: seq<Item>, a: ApplianceId) {
    exists i :: 0 <= i < |s| && s[i].appliance == a
  }

  /** The list without its first item for the appliance. */
  function Without(s: seq<Item>, a: ApplianceId): seq<Item> {
    if s == [] then [] else if s[0].appliance == a then s[1..] else [s[0]] + Without(s[1..], a)
  }

  function Channels(s: seq<Item>): set<ChanId> {
    set i | 0 <= i < |s| :: s[i].ch
  }

  lemma {:induction false} WithoutSkips(s: seq<Item>, k: nat, a: ApplianceId)
    requires k <= |s| && forall i :: 0 <= i < k ==> s[i].appliance != a
    ensures Without(s, a) == s[..k] + Without(s[k..], a)
  {
    if k > 0 {
      WithoutSkips(s[1..], k - 1, a);
      assert s[1..][k - 1..] == s[k..];
      assert s[..k] == [s[0]] + s[1..][..k - 1];
    }
  }

  /** Exactly the first item of the appliance leaves, and every other keeps its place. */
  lemma {:induction false} WithoutRemovesFirst(s: seq<Item>, a: ApplianceId) returns (k: nat)
    ensures HasAppliance(s, a) ==>
      && k < |s| && s[k].appliance == a && (forall i :: 0 <= i < k ==> s[i].appliance != a)
      && Without(s, a) == s[..k] + s[k + 1..]
    ensures !HasAppliance(s, a) ==> Without(s, a) == s
  {
    k := 0;
    while k < |s| && s[k].appliance != a
      invariant k <= |s| && forall i :: 0 <= i < k ==> s[i].appliance != a
    {
      k := k + 1;
    }
    WithoutSkips(s, k, a);
    if k < |s| {
      assert s[k..][1..] == s[k + 1..];
    } else {
      assert s[..k] + [] == s;
    }
  }

  /** The channels of a list are those of its items. */
  lemma ChannelsAreAll(s: seq<Item>, ch: ChanId)
    ensures ch in Channels(s) <==> exists x :: x in s && x.ch == ch
  {
    if ch in Channels(s) {
      var i :| 0 <= i < |s| && s[i].ch == ch;
      assert s[i] in s;
    }
    if x :| x in s && x.ch == ch {
      var i :| 0 <= i < |s| && s[i] == x;
    }
  }

  /** The object the engine holds; every method runs under the state lock. */
  class Queue {
    var items: seq<Item>
    const agingWeight: real

    constructor (agingWeight: real)
      ensures items == [] && this.agingWeight == agingWeight
    {
      this.agingWeight := agingWeight;
      items := [];
    }

    method Enqueue(item: Item)
      modifies this
      ensures items == old(items) + [item]
    {
      items := items + [item];
    }

    /** An insertion sort with the comparison the source passes to the library's stable sort. */
    method SortByEffective(now: Time)
      modifies this
      ensures items == SortAt(agingWeight, old(items), now)
    {
      hide Insert, Effective, SortAt;
      assert SortAt(agingWeight, items[..0], now) == [] by { SortNothing(agingWeight, items[..0], now); }
      var sorted: seq<Item> := [];
      for k := 0 to |items|
        invariant items == old(items)
        invariant sorted == SortAt(agingWeight, items[..k], now)
      {
        var x := items[k];
        var p := |sorted|;
        assert sorted[..p] == sorted && sorted[p..] == [];
        while p > 0 && Effective(agingWeight, x, now) > Effective(agingWeight, sorted[p - 1], now)
          invariant items == old(items)
          invariant 0 <= p <= |sorted|
          invariant Insert(agingWeight, sorted, x, now) == Insert(agingWeight, sorted[..p], x, now) + sorted[p..]
        {
          InsertMovesLeft(agingWeight, sorted, p, x, now);
          p := p - 1;
        }
        InsertStops(agingWeight, sorted, p, x, now);
        SortExtends(agingWeight, items, k, now);
        sorted := sorted[..p] + [x] + sorted[p..];
      }
      assert items[..|items|] == items;
      items := sorted;
    }

    /** None for an empty queue. */
    method PopBest(now: Time) returns (best: Option<Item>)
      modifies this
      ensures best.None? <==> old(items) == []
      ensures best.None? ==> items == []
      ensures best.Some? ==> (best.value, items) == Pop(agingWeight, old(items), now)
    {
      if items == [] {
        return None;
      }
      SortSorts(agingWeight, items, now);
      SortByEffective(now);
      best := Some(items[0]);
      items := items[1..];
    }

    method Remove(a: ApplianceId) returns (found: bool)
      modifies this
      ensures items == Without(old(items), a)
      ensures found == HasAppliance(old(items), a)
    {
      for i := 0 to |items|
        invariant items == old(items)
        invariant forall j :: 0 <= j < i ==> items[j].appliance != a
      {
        if items[i].appliance == a {
          WithoutSkips(items, i, a);
          assert items[i..][1..] == items[i + 1..];
          items := items[..i] + items[i + 1..];
          return true;
        }
      }
      WithoutSkips(items, |items|, a);
      return false;
    }

    method Holds(a: ApplianceId) returns (found: bool)
      ensures found == HasAppliance(items, a)
    {
      for i := 0 to |items|
        invariant forall j :: 0 <= j < i ==> items[j].appliance != a
      {
        if items[i].appliance == a {
          return true;
        }
      }
      return false;
    }

    /**
     * Offers false to every waiting channel and empties the list; full is the
     * set of channels that already hold an unread value.
     */
    method DrainAll(full: set<ChanId>) returns (full': set<ChanId>)
      modifies this
      ensures items == []
      ensures full' == full + Channels(old(items))
      ensures forall x :: x in old(items) ==> x.ch in full'
    {
      full' := full;
      for i := 0 to |items|
        invariant items == old(items)
        invariant full' == full + Channels(items[..i])
      {
        if items[i].ch !in full' {
          full' := full' + {items[i].ch};
        }
        assert Channels(items[..i + 1]) == Channels(items[..i]) + {items[i].ch} by {
          assert items[..i + 1][i].ch in Channels(items[..i + 1]);
          forall c | c in Channels(items[..i]) ensures c in Channels(items[..i + 1]) {
            var j :| 0 <= j < i && items[..i][j].ch == c;
            assert items[..i + 1][j].ch == c;
          }
        }
      }
      assert items[..|items|] == items;
      forall x | x in items ensures x.ch in full' {
        ChannelsAreAll(items, x.ch);
      }
      items := [];
    }
  }
}
