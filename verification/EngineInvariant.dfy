/** What every atomic section of the engine keeps, in whatever order they interleave. */
module EngineInvariant {
  import opened Clock
  import opened ClassSplit
  import opened AgingQueue
  import opened QuotaModel
  import opened QuotaInvariant
  import opened EngineModel

  /** In flight is the number of tickets; tokens are unique and already issued. */
  predicate TicketsMatch(c: Cas) {
    && c.q.inFlight == |c.tickets|
    && (forall a :: a in c.tickets ==> c.tickets[a].token < c.nextToken)
    && (forall a, b :: a in c.tickets && b in c.tickets && a != b ==> c.tickets[a].token != c.tickets[b].token)
  }

  /** No two waiting items share an appliance or a channel. */
  ghost predicate Distinct(m: multiset<Item>) {
    && (forall x :: x in m ==> m[x] == 1)
    && (forall x, y :: x in m && y in m && x != y ==> x.appliance != y.appliance && x.ch != y.ch)
  }

  /** A waiting item's appliance holds no ticket, and its channel is empty. */
  predicate WaitsProperly(c: Cas, x: Item) {
    && x.appliance !in c.tickets
    && x.ch < c.nextChan && x.ch !in c.full
    && x.base == BasePriority(x.class_)
    && x.queuedAt <= c.q.hist.clock
  }

  ghost predicate QueueProper(c: Cas) {
    && Distinct(multiset(c.waiting))
    && (forall x :: x in c.waiting ==> WaitsProperly(c, x))
    && |c.waiting| <= (if c.maxQueue < 0 then 0 else c.maxQueue)
    && (forall ch :: ch in c.full ==> ch < c.nextChan)
  }

  /** Every ticket ever issued is active, accepted or reaped; none was reclaimed. */
  predicate LedgerBalanced(c: Cas) {
    && |c.ledger.issued| == c.nextToken == c.q.hist.sustainedGrants + c.q.hist.bootstrapGrants
    && |c.ledger.issued| == |c.ledger.accepted| + c.ledger.reaped + |c.tickets|
    && c.ledger.reclaimed == 0
  }

  /** Accepted tokens are distinct, were issued, and are never active again. */
  predicate AcceptedOnce(c: Cas) {
    && (forall i :: 0 <= i < |c.ledger.accepted| ==> c.ledger.accepted[i] < c.nextToken)
    && (forall i, j :: 0 <= i < j < |c.ledger.accepted| ==> c.ledger.accepted[i] != c.ledger.accepted[j])
    && (forall a, i :: a in c.tickets && 0 <= i < |c.ledger.accepted| ==> c.tickets[a].token != c.ledger.accepted[i])
  }

  /** A ticket's issue time is the recorded one, never after the clock. */
  predicate IssueTimes(c: Cas) {
    && |c.ledger.issued| == c.nextToken
    && (forall k :: 0 <= k < |c.ledger.issued| ==> c.ledger.issued[k] <= c.q.hist.clock)
    && (forall a :: a in c.tickets ==>
          c.tickets[a].token < c.nextToken && c.tickets[a].issuedAt == c.ledger.issued[c.tickets[a].token])
  }

  ghost predicate Inv(c: Cas) {
    && Sound(c.q)
    && TicketsMatch(c)
    && QueueProper(c)
    && LedgerBalanced(c)
    && AcceptedOnce(c)
    && IssueTimes(c)
  }

  lemma StartHolds(raw: Config, omega: real, maxQueue: int, now: Time)
    ensures Inv(Start(raw, omega, maxQueue, now))
  {
    BootIsSound(raw, now);
  }

  // ---- quota operations leave the ticket counters alone ----

  predicate SameCounts(p: Quota, q: Quota) {
    && p.inFlight == q.inFlight
    && p.hist.sustainedGrants == q.hist.sustainedGrants
    && p.hist.bootstrapGrants == q.hist.bootstrapGrants
    && p.hist.clock == q.hist.clock
  }

  lemma RefreshCounts(q: Quota, now: Time)
    ensures SameCounts(q, Refresh(q, now).0) && Refresh(q, now).0.calibrated == q.calibrated
  {
  }

  lemma CheckCounts(q: Quota, now: Time)
    ensures SameCounts(q, CanDispatch(q, now).0)
  {
    var q1 := Served(q);
    RefreshCounts(q1, now);
  }

  lemma RealignCounts(q: Quota, r: Report)
    ensures SameCounts(q, Realign(q, r))
  {
    hide SplitLimit;
  }

  lemma ObserveCounts(q: Quota, r: Report)
    ensures SameCounts(q, Observe(q, r).0) && Observe(q, r).0.calibrated
  {
    hide Seconds;
  }

  lemma SettleCounts(q: Quota, r: Report)
    ensures SameCounts(q.(inFlight := q.inFlight - 1), Settle(q, r))
    ensures Settle(q, r).calibrated
  {
    hide Realign, Observe;
    RealignCounts(Release(q, r), r);
    ObserveCounts(Realign(Release(q, r), r), r);
  }

  // ---- collections ----

  lemma {:induction false} DropShrinks(m: map<ApplianceId, Ticket>, gone: set<ApplianceId>)
    requires gone <= m.Keys
    ensures |m - gone| == |m| - |gone|
  {
    assert (m - gone).Keys == m.Keys - gone;
    assert |m.Keys| == |m| && |(m - gone).Keys| == |m - gone|;
    assert |m.Keys - gone| == |m.Keys| - |gone|;
  }

  lemma InsertGrows(m: map<ApplianceId, Ticket>, a: ApplianceId, t: Ticket)
    requires a !in m
    ensures |m[a := t]| == |m| + 1
  {
    assert m[a := t].Keys == m.Keys + {a};
    assert |m.Keys| == |m| && |m[a := t].Keys| == |m[a := t]|;
  }

  lemma {:induction false} WithoutIsPart(s: seq<Item>, a: ApplianceId)
    ensures multiset(Without(s, a)) <= multiset(s)
    ensures |Without(s, a)| <= |s|
  {
    if s != [] {
      assert s == [s[0]] + s[1..];
      WithoutIsPart(s[1..], a);
    }
  }

  lemma PartStaysDistinct(m: multiset<Item>, part: multiset<Item>)
    requires Distinct(m) && part <= m
    ensures Distinct(part)
  {
    forall x | x in part ensures part[x] == 1 {
      assert part[x] <= m[x];
    }
  }

  lemma AppendStaysDistinct(s: seq<Item>, x: Item)
    requires Distinct(multiset(s))
    requires forall y :: y in s ==> y.appliance != x.appliance && y.ch != x.ch
    ensures Distinct(multiset(s + [x]))
  {
    assert multiset(s + [x]) == multiset(s) + multiset{x};
    assert x !in s;
    forall y | y in multiset(s + [x]) ensures multiset(s + [x])[y] == 1 {
      if y != x { assert y in multiset(s); }
    }
  }

  lemma RepeatsCount(s: seq<Item>, i: nat, j: nat)
    requires i < j < |s|
    ensures s[i] == s[j] ==> multiset(s)[s[i]] >= 2
  {
    assert s == s[..j] + s[j..];
    assert s[..j][i] == s[i] && s[j..][0] == s[j];
    assert s[i] in multiset(s[..j]) && s[j] in multiset(s[j..]);
  }

  /** Pairwise distinctness by position, as a reader would state it. */
  lemma QueuedAppliancesDistinct(c: Cas)
    requires QueueProper(c)
    ensures forall i, j :: 0 <= i < j < |c.waiting| ==> c.waiting[i].appliance != c.waiting[j].appliance
    ensures forall i :: 0 <= i < |c.waiting| ==> c.waiting[i].appliance !in c.tickets
  {
    var s := c.waiting;
    forall i, j | 0 <= i < j < |s| ensures s[i].appliance != s[j].appliance {
      assert s[i] in multiset(s) && s[j] in multiset(s);
      RepeatsCount(s, i, j);
    }
    forall i | 0 <= i < |s| ensures s[i].appliance !in c.tickets {
      assert WaitsProperly(c, s[i]);
    }
  }

  // ---- building blocks ----

  /** Replacing the quota by one with the same counters, at most a later clock. */
  lemma QuotaChange(c: Cas, q: Quota)
    requires Inv(c) && Sound(q) && q.hist.clock >= c.q.hist.clock
    requires SameCounts(c.q.(hist := c.q.hist.(clock := q.hist.clock)), q)
    ensures Inv(c.(q := q))
  {
    forall x | x in c.waiting ensures WaitsProperly(c.(q := q), x) {
      assert WaitsProperly(c, x);
    }
  }

  lemma TickHolds(c: Cas, now: Time)
    requires Inv(c) && now >= c.q.hist.clock
    ensures Inv(c.(q := Ticked(c.q, now)))
  {
    OpKeepsSound(c.q, Tick(now));
    QuotaChange(c, Ticked(c.q, now));
  }

  lemma DemandHolds(c: Cas, k: PriorityClass, n: int)
    requires Inv(c)
    ensures Inv(c.(q := AddDemand(c.q, k, n)))
  {
    OpKeepsSound(c.q, Demand(k, n));
    QuotaChange(c, AddDemand(c.q, k, n));
  }

  lemma CheckHolds(c: Cas, now: Time)
    requires Inv(c) && now == c.q.hist.clock
    ensures var (q, ok) := CanDispatch(c.q, now);
      Inv(c.(q := q)) && q.hist.clock == now && (ok ==> Ready(q, now))
  {
    CheckKeepsSound(c.q, now);
    CheckCounts(c.q, now);
    QuotaChange(c, CanDispatch(c.q, now).0);
  }

  lemma IssueKeepsQueue(c: Cas, a: ApplianceId, now: Time)
    requires QueueProper(c) && forall x :: x in c.waiting ==> x.appliance != a
    ensures QueueProper(Issued(c, a, now))
  {
    var d := Issued(c, a, now);
    forall x | x in d.waiting ensures WaitsProperly(d, x) {
      assert WaitsProperly(c, x);
    }
  }

  lemma IssueKeepsTickets(c: Cas, a: ApplianceId, now: Time)
    requires TicketsMatch(c) && LedgerBalanced(c) && AcceptedOnce(c) && IssueTimes(c)
    requires a !in c.tickets && now == c.q.hist.clock
    ensures var d := Issued(c, a, now); TicketsMatch(d) && LedgerBalanced(d) && AcceptedOnce(d) && IssueTimes(d)
  {
    InsertGrows(c.tickets, a, Issued(c, a, now).tickets[a]);
    IssueKeepsAccepted(c, a, now);
    IssueKeepsTimes(c, a, now);
    hide AcceptedOnce, IssueTimes;
  }

  lemma IssueKeepsAccepted(c: Cas, a: ApplianceId, now: Time)
    requires AcceptedOnce(c)
    ensures AcceptedOnce(Issued(c, a, now))
  {
  }

  lemma IssueKeepsTimes(c: Cas, a: ApplianceId, now: Time)
    requires IssueTimes(c) && now == c.q.hist.clock
    ensures IssueTimes(Issued(c, a, now))
  {
  }

  /** Issuing a ticket to an appliance that neither holds one nor waits. */
  lemma IssueHolds(c: Cas, a: ApplianceId, now: Time)
    requires Inv(c) && now == c.q.hist.clock && Ready(c.q, now)
    requires a !in c.tickets && forall x :: x in c.waiting ==> x.appliance != a
    ensures Inv(Issued(c, a, now))
  {
    hide Sound, QueueProper, TicketsMatch, LedgerBalanced, AcceptedOnce, IssueTimes;
    OpKeepsSound(c.q, Grant(now));
    IssueKeepsQueue(c, a, now);
    IssueKeepsTickets(c, a, now);
  }

  lemma EnqueueHolds(c: Cas, a: ApplianceId, k: PriorityClass, backlog: int, now: Time)
    requires Inv(c) && now == c.q.hist.clock && |c.waiting| < c.maxQueue
    requires a !in c.tickets && forall x :: x in c.waiting ==> x.appliance != a
    ensures Inv(Enqueued(c, a, k, backlog, now))
  {
    var d := Enqueued(c, a, k, backlog, now);
    var item := d.waiting[|c.waiting|];
    forall x | x in c.waiting ensures WaitsProperly(d, x) && x.appliance != item.appliance && x.ch != item.ch {
      assert WaitsProperly(c, x);
    }
    AppendStaysDistinct(c.waiting, item);
  }

  lemma AdmitHolds(c: Cas, a: ApplianceId, k: PriorityClass, backlog: int, now: Time)
    requires Inv(c) && now == c.q.hist.clock
    requires a !in c.tickets && forall x :: x in c.waiting ==> x.appliance != a
    ensures Inv(Admit(c, a, k, backlog, now).0)
    ensures Admit(c, a, k, backlog, now).0.q.hist.clock == now
  {
    var (q, ok) := CanDispatch(c.q, now);
    CheckHolds(c, now);
    var c1 := c.(q := q);
    if ok {
      IssueHolds(c1, a, now);
    } else if |c.waiting| < c.maxQueue {
      EnqueueHolds(c1, a, k, backlog, now);
    }
  }

  lemma NotWaiting(c: Cas, a: ApplianceId)
    requires !HasAppliance(c.waiting, a)
    ensures forall x :: x in c.waiting ==> x.appliance != a
  {
  }

  lemma BookHolds(c: Cas, k: PriorityClass, n: int, now: Time)
    requires Inv(c) && now >= c.q.hist.clock
    ensures Inv(c.(q := AddDemand(Ticked(c.q, now), k, n)))
    ensures AddDemand(Ticked(c.q, now), k, n).hist.clock == now
  {
    TickHolds(c, now);
    DemandHolds(c.(q := Ticked(c.q, now)), k, n);
  }

  lemma AcquireAdmits(c: Cas, req: AcquireRequest, now: Time)
    requires req.appliance !in c.tickets && !HasAppliance(c.waiting, req.appliance)
    ensures TryAcquire(c, req, now)
         == Admit(c.(q := AddDemand(Ticked(c.q, now), req.class_, 1 + req.backlog)),
                  req.appliance, req.class_, req.backlog, now)
  {
    hide Admit, AddDemand;
  }

  lemma CombinedAdmits(c: Cas, r: Report, now: Time)
    requires Matched(c, r) && r.status != 429
    ensures var d := Accept(c, r, now);
      TryReportAndAcquire(c, r, now)
      == Admit(d.(q := AddDemand(d.q, NextClass(r), 1 + r.backlog)), r.appliance, NextClass(r), r.backlog, now)
  {
    hide Admit, AddDemand, Accept;
  }

  lemma AcquireHolds(c: Cas, req: AcquireRequest, now: Time)
    requires Inv(c) && now >= c.q.hist.clock
    ensures Inv(TryAcquire(c, req, now).0) && TryAcquire(c, req, now).0.q.hist.clock <= now
  {
    if req.appliance !in c.tickets && !HasAppliance(c.waiting, req.appliance) {
      BookHolds(c, req.class_, 1 + req.backlog, now);
      NotWaiting(c, req.appliance);
      var c1 := c.(q := AddDemand(Ticked(c.q, now), req.class_, 1 + req.backlog));
      AdmitHolds(c1, req.appliance, req.class_, req.backlog, now);
      AcquireAdmits(c, req, now);
    }
  }

  lemma AcceptCounts(c: Cas, r: Report, now: Time)
    requires Inv(c) && Matched(c, r) && now >= c.q.hist.clock
    ensures var d := Accept(c, r, now);
      && Sound(d.q) && d.q.calibrated && d.q.hist.clock == now
      && d.q.inFlight == c.q.inFlight - 1
      && d.q.hist.sustainedGrants == c.q.hist.sustainedGrants
      && d.q.hist.bootstrapGrants == c.q.hist.bootstrapGrants
  {
    var q0 := Ticked(c.q, now);
    OpKeepsSound(c.q, Tick(now));
    SettleKeepsSound(q0, r);
    SettleCounts(q0, r);
    PenaltyKeepsSound(Settle(q0, r), r.retryAfter, now);
  }

  /** Retiring one accepted ticket, with the quota that settles it. */
  lemma RetireHolds(c: Cas, a: ApplianceId, q: Quota)
    requires Inv(c) && a in c.tickets
    requires Sound(q) && q.hist.clock >= c.q.hist.clock && q.inFlight == c.q.inFlight - 1
    requires q.hist.sustainedGrants == c.q.hist.sustainedGrants && q.hist.bootstrapGrants == c.q.hist.bootstrapGrants
    ensures Inv(c.(q := q, tickets := Drop(c.tickets, a),
                   ledger := c.ledger.(accepted := c.ledger.accepted + [c.tickets[a].token])))
  {
    var t := c.tickets[a].token;
    var d := c.(q := q, tickets := Drop(c.tickets, a),
                ledger := c.ledger.(accepted := c.ledger.accepted + [t]));
    DropShrinks(c.tickets, {a});
    assert QueueProper(d) by {
      forall x | x in c.waiting ensures WaitsProperly(d, x) {
        assert WaitsProperly(c, x);
      }
    }
    AcceptedGrows(c, a, t);
    assert AcceptedOnce(d);
  }

  lemma AcceptedGrows(c: Cas, a: ApplianceId, t: Token)
    requires TicketsMatch(c) && AcceptedOnce(c) && a in c.tickets && t == c.tickets[a].token
    ensures AcceptedOnce(c.(tickets := Drop(c.tickets, a),
                            ledger := c.ledger.(accepted := c.ledger.accepted + [t])))
  {
  }

  lemma HoldersDoNotWait(c: Cas, a: ApplianceId)
    requires Inv(c) && a in c.tickets
    ensures forall x :: x in c.waiting ==> x.appliance != a
  {
    forall x | x in c.waiting ensures x.appliance != a {
      assert WaitsProperly(c, x);
    }
  }

  lemma AcceptHolds(c: Cas, r: Report, now: Time)
    requires Inv(c) && Matched(c, r) && now >= c.q.hist.clock
    ensures Inv(Accept(c, r, now)) && Accept(c, r, now).q.hist.clock == now
    ensures r.appliance !in Accept(c, r, now).tickets && Accept(c, r, now).waiting == c.waiting
  {
    AcceptCounts(c, r, now);
    RetireHolds(c, r.appliance, Accept(c, r, now).q);
  }

  lemma BookAndAdmitHolds(c: Cas, a: ApplianceId, k: PriorityClass, backlog: int, now: Time)
    requires Inv(c) && now == c.q.hist.clock
    requires a !in c.tickets && forall x :: x in c.waiting ==> x.appliance != a
    ensures var d := Admit(c.(q := AddDemand(c.q, k, 1 + backlog)), a, k, backlog, now).0;
      Inv(d) && d.q.hist.clock == now
  {
    DemandHolds(c, k, 1 + backlog);
    AdmitHolds(c.(q := AddDemand(c.q, k, 1 + backlog)), a, k, backlog, now);
  }

  lemma CombinedAdmitHolds(c: Cas, r: Report, now: Time)
    requires Inv(c) && now >= c.q.hist.clock && Matched(c, r) && r.status != 429
    ensures Inv(TryReportAndAcquire(c, r, now).0) && TryReportAndAcquire(c, r, now).0.q.hist.clock == now
  {
    hide Inv, Accept, Admit, AddDemand, TryReportAndAcquire;
    AcceptHolds(c, r, now);
    HoldersDoNotWait(c, r.appliance);
    BookAndAdmitHolds(Accept(c, r, now), r.appliance, NextClass(r), r.backlog, now);
    CombinedAdmits(c, r, now);
  }

  lemma CombinedRefuses(c: Cas, r: Report, now: Time)
    requires !Matched(c, r) || r.status == 429
    ensures TryReportAndAcquire(c, r, now)
         == if Matched(c, r) then (Accept(c, r, now), Refused(429)) else (c, Refused(409))
  {
  }

  lemma CombinedHolds(c: Cas, r: Report, now: Time)
    requires Inv(c) && now >= c.q.hist.clock
    ensures Inv(TryReportAndAcquire(c, r, now).0) && TryReportAndAcquire(c, r, now).0.q.hist.clock <= now
  {
    if Matched(c, r) && r.status != 429 {
      CombinedAdmitHolds(c, r, now);
    } else {
      CombinedRefuses(c, r, now);
      if Matched(c, r) {
        AcceptHolds(c, r, now);
      }
    }
  }

  /** What a pop leaves: the same items, the best one apart. */
  lemma PopSplits(c: Cas, now: Time)
    requires QueueProper(c) && c.waiting != []
    ensures var (item, rest) := Pop(c.omega, c.waiting, now);
      && |rest| == |c.waiting| - 1
      && item in c.waiting && item !in rest
      && Distinct(multiset(rest))
      && (forall x :: x in rest ==> x in c.waiting && x.appliance != item.appliance && x.ch != item.ch)
  {
    var (item, rest) := Pop(c.omega, c.waiting, now);
    PopTakesFirstMaximum(c.omega, c.waiting, now);
    var m := multiset(c.waiting);
    assert m == multiset(rest) + multiset{item};
    assert item in m;
    PartStaysDistinct(m, multiset(rest));
    assert item !in multiset(rest);
    forall x | x in rest ensures x in c.waiting && x.appliance != item.appliance && x.ch != item.ch {
      assert x in multiset(rest);
      assert x in m;
    }
  }

  /** The popped item's channel is empty, so the reclaiming branch is never taken. */
  lemma SignalNeverBlocked(c: Cas, now: Time)
    requires Inv(c) && c.waiting != []
    ensures Pop(c.omega, c.waiting, now).0.ch !in c.full
  {
    PopSplits(c, now);
    assert WaitsProperly(c, Pop(c.omega, c.waiting, now).0);
  }

  lemma RemoveHolds(c: Cas, rest: seq<Item>)
    requires Inv(c) && Distinct(multiset(rest)) && |rest| <= |c.waiting|
    requires forall x :: x in rest ==> x in c.waiting
    ensures Inv(c.(waiting := rest))
  {
    var d := c.(waiting := rest);
    forall x | x in rest ensures WaitsProperly(d, x) {
      assert WaitsProperly(c, x);
    }
  }

  lemma RequeueHolds(c: Cas, rest: seq<Item>, item: Item)
    requires Inv(c) && Distinct(multiset(rest)) && |rest| < |c.waiting|
    requires forall x :: x in rest ==> x in c.waiting && x.appliance != item.appliance && x.ch != item.ch
    requires item in c.waiting
    ensures Inv(c.(waiting := rest + [item]))
  {
    AppendStaysDistinct(rest, item);
    RemoveHolds(c, rest + [item]);
  }

  lemma SignalHolds(c: Cas, ch: ChanId)
    requires Inv(c) && ch < c.nextChan && forall x :: x in c.waiting ==> x.ch != ch
    ensures Inv(c.(full := c.full + {ch}))
  {
    var d := c.(full := c.full + {ch});
    forall x | x in d.waiting ensures WaitsProperly(d, x) {
      assert WaitsProperly(c, x);
    }
  }

  lemma DrawHolds(c: Cas, k: PriorityClass, now: Time)
    requires Inv(c) && Ready(c.q, now)
    requires HasClassQuota(c.q, k) || HasSharedQuota(c.q)
    ensures Inv(c.(q := Draw(c.q, k))) && Ready(Draw(c.q, k), now)
  {
    OpKeepsSound(c.q, Take(k));
    DrawKeepsReady(c.q, k, now);
    hide Draw, Sound, Ready, HasClassQuota, HasSharedQuota, Inv;
    QuotaChange(c, Draw(c.q, k));
  }

  lemma DrawKeepsReady(q: Quota, k: PriorityClass, now: Time)
    requires Ready(q, now)
    ensures Ready(Draw(q, k), now) && SameCounts(q, Draw(q, k))
  {
  }

  /** Draw, grant and signal for a popped item. */
  lemma GrantPoppedHolds(c: Cas, item: Item, rest: seq<Item>, now: Time)
    requires Inv(c) && Ready(c.q, now) && now == c.q.hist.clock
    requires HasClassQuota(c.q, item.class_) || HasSharedQuota(c.q)
    requires WaitsProperly(c, item) && Distinct(multiset(rest)) && |rest| <= |c.waiting|
    requires forall x :: x in rest ==> x in c.waiting && x.appliance != item.appliance && x.ch != item.ch
    ensures var d := Issued(c.(q := Draw(c.q, item.class_), waiting := rest), item.appliance, now);
      Inv(d.(full := d.full + {item.ch})) && d.q.hist.clock == now
  {
    DrawHolds(c, item.class_, now);
    var c1 := c.(q := Draw(c.q, item.class_));
    RemoveHolds(c1, rest);
    var c2 := c1.(waiting := rest);
    IssueHolds(c2, item.appliance, now);
    SignalHolds(Issued(c2, item.appliance, now), item.ch);
  }

  lemma DispatchCheckedHolds(c: Cas, q: Quota, now: Time)
    requires Inv(c.(q := q)) && Ready(q, now) && now == q.hist.clock && c.waiting != []
    ensures var (item, rest) := Pop(c.omega, c.waiting, now);
      && item.ch !in c.full
      && Inv(c.(q := q, waiting := rest + [item]))
      && (HasClassQuota(q, item.class_) || HasSharedQuota(q) ==>
            var d := Issued(c.(q := Draw(q, item.class_), waiting := rest), item.appliance, now);
            Inv(d.(full := d.full + {item.ch})) && d.q.hist.clock == now)
  {
    var c1 := c.(q := q);
    var (item, rest) := Pop(c.omega, c.waiting, now);
    PopSplits(c1, now);
    SignalNeverBlocked(c1, now);
    RequeueHolds(c1, rest, item);
    assert WaitsProperly(c1, item);
    if HasClassQuota(q, item.class_) || HasSharedQuota(q) {
      GrantPoppedHolds(c1, item, rest, now);
    }
  }

  lemma DispatchHolds(c: Cas, now: Time)
    requires Inv(c) && now >= c.q.hist.clock
    ensures Inv(Dispatch(c, now).0) && Dispatch(c, now).0.q.hist.clock == now
  {
    TickHolds(c, now);
    CheckHolds(c.(q := Ticked(c.q, now)), now);
    var (q, ok) := CanDispatch(Ticked(c.q, now), now);
    if ok && c.waiting != [] {
      DispatchCheckedHolds(c, q, now);
    }
  }

  lemma ReapHolds(c: Cas, now: Time)
    requires Inv(c)
    ensures Inv(Reap(c, now)) && Reap(c, now).q.hist.clock == c.q.hist.clock
  {
    var gone := ExpiredHolders(c.tickets, now);
    OpKeepsSound(c.q, Retire(|gone|));
    ReapKeepsTickets(c, gone);
    ReapKeepsQueue(c, gone);
    hide Sound, TicketsMatch, QueueProper, LedgerBalanced, AcceptedOnce, IssueTimes;
  }

  lemma ReapKeepsTickets(c: Cas, gone: set<ApplianceId>)
    requires TicketsMatch(c) && LedgerBalanced(c) && AcceptedOnce(c) && IssueTimes(c) && gone <= c.tickets.Keys
    ensures var d := Collected(c, gone); TicketsMatch(d) && LedgerBalanced(d) && AcceptedOnce(d) && IssueTimes(d)
  {
    DropShrinks(c.tickets, gone);
  }

  lemma ReapKeepsQueue(c: Cas, gone: set<ApplianceId>)
    requires QueueProper(c)
    ensures QueueProper(Collected(c, gone))
  {
    var d := Collected(c, gone);
    forall x | x in c.waiting ensures WaitsProperly(d, x) {
      assert WaitsProperly(c, x);
    }
  }

  lemma ShutdownHolds(c: Cas)
    requires Inv(c)
    ensures Inv(c.(waiting := [], full := c.full + Channels(c.waiting)))
  {
    forall ch | ch in Channels(c.waiting) ensures ch < c.nextChan {
      var i :| 0 <= i < |c.waiting| && c.waiting[i].ch == ch;
      assert WaitsProperly(c, c.waiting[i]);
    }
  }

  lemma ReceiveHolds(c: Cas, ch: ChanId)
    requires Inv(c)
    ensures Inv(c.(full := c.full - {ch}))
  {
    var d := c.(full := c.full - {ch});
    forall x | x in d.waiting ensures WaitsProperly(d, x) {
      assert WaitsProperly(c, x);
    }
  }

  lemma AbandonHolds(c: Cas, a: ApplianceId)
    requires Inv(c)
    ensures Inv(c.(waiting := Without(c.waiting, a)))
  {
    var rest := Without(c.waiting, a);
    WithoutIsPart(c.waiting, a);
    PartStaysDistinct(multiset(c.waiting), multiset(rest));
    forall x | x in rest ensures x in c.waiting {
      assert x in multiset(rest);
      assert x in multiset(c.waiting);
    }
    RemoveHolds(c, rest);
  }

  lemma ReportHolds(c: Cas, r: Report, now: Time)
    requires Inv(c) && now >= c.q.hist.clock
    ensures Inv(HandleReport(c, r, now).0) && HandleReport(c, r, now).0.q.hist.clock <= now
  {
    if Matched(c, r) {
      AcceptHolds(c, r, now);
    }
  }

  lemma StepHolds(c: Cas, e: Event)
    requires Inv(c) && e.now >= c.q.hist.clock
    ensures Inv(Step(c, e).0) && Step(c, e).0.q.hist.clock <= e.now
  {
    hide Inv;
    match e.act
    case Acquire(req) =>
      AcquireHolds(c, req, e.now);
      assert Step(c, e) == TryAcquire(c, req, e.now);
    case Settlement(r) =>
      ReportHolds(c, r, e.now);
      assert Step(c, e) == HandleReport(c, r, e.now);
    case Combined(r) =>
      CombinedHolds(c, r, e.now);
      assert Step(c, e) == TryReportAndAcquire(c, r, e.now);
    case DispatchOne =>
      DispatchHolds(c, e.now);
      assert Step(c, e) == Dispatch(c, e.now);
    case ReaperPass => ReapHolds(c, e.now);
    case Abandon(a) => AbandonHolds(c, a);
    case Receive(ch) => ReceiveHolds(c, ch);
    case Shutdown => ShutdownHolds(c);
  }

  /** One event keeps the whole invariant. */
  lemma NextHolds(c: Cas, e: Event)
    requires Inv(c) && e.now >= c.q.hist.clock
    ensures Inv(Next(c, e)) && Next(c, e).q.hist.clock == e.now
  {
    StepHolds(c, e);
    TickHolds(Step(c, e).0, e.now);
  }

  /** Every run keeps it, whatever the interleaving. */
  lemma {:induction false} RunHolds(c: Cas, evs: seq<Event>)
    requires Inv(c) && Timed(c.q.hist.clock, evs)
    ensures Inv(Exec(c, evs))
    decreases evs
  {
    if evs != [] {
      NextHolds(c, evs[0]);
      RunHolds(Next(c, evs[0]), evs[1..]);
    }
  }

  /** Every state reachable from a fresh server, for any configuration, is proper. */
  lemma {:induction false} ReachableHolds(raw: Config, omega: real, maxQueue: int, boot: Time, evs: seq<Event>)
    requires Timed(boot, evs)
    ensures Inv(Exec(Start(raw, omega, maxQueue, boot), evs))
  {
    StartHolds(raw, omega, maxQueue, boot);
    RunHolds(Start(raw, omega, maxQueue, boot), evs);
  }
}
