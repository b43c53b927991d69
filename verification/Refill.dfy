/** The burst view: when it may be assumed refilled, and how often. */
module Refill {
  import opened Clock
  import opened ClassSplit
  import opened QuotaModel
  import opened QuotaInvariant

  /** A report is processed at most lag after it was received, and names a window of at least p. */
  predicate Prompt(op: QuotaOp, p: Time, lag: Time) {
    op.Fold? ==> op.r.recvAt >= op.now - lag && (op.r.window > 0 ==> Seconds(op.r.window) >= p)
  }

  /** Consecutive refills with no served penalty between them are at least p - lag apart. */
  predicate RefillsSpaced(q: Quota, p: Time, lag: Time) {
    forall i :: 0 < i < |q.hist.refills| && q.hist.refills[i].served == q.hist.refills[i - 1].served ==>
      q.hist.refills[i].at - q.hist.refills[i - 1].at >= p - lag
  }

  predicate RefillInvariant(q: Quota, p: Time, lag: Time) {
    && RefillsSpaced(q, p, lag)
    && Seconds(PolicyWindow(q)) >= p
    && (|q.hist.refills| > 0 ==>
          var last := q.hist.refills[|q.hist.refills| - 1];
          && last.at <= q.hist.clock
          && last.served <= q.hist.served
          && (last.served == q.hist.served ==> q.windowActive && q.windowEnd >= last.at + p - lag))
  }

  lemma RefreshStep(q: Quota, now: Time, p: Time, lag: Time)
    requires lag >= 0 && RefillInvariant(q, p, lag) && now == q.hist.clock
    ensures RefillInvariant(Refresh(q, now).0, p, lag)
  {
    if !(q.windowActive && now < q.windowEnd) {
      var s := Refresh(q, now).0;
      var n := |q.hist.refills|;
      assert s.hist.refills == q.hist.refills + [Refill(now, q.hist.served)];
      assert s.policyWindowSec == q.policyWindowSec && s.cfg == q.cfg;
      if n > 0 && q.hist.refills[n - 1].served == q.hist.served {
        assert s.hist.refills[n].at - s.hist.refills[n - 1].at >= p - lag;
      }
    }
  }

  lemma RollView(q: Quota, now: Time)
    ensures var s := Roll(q, now);
      && s.windowActive == q.windowActive && s.windowEnd == q.windowEnd
      && s.policyWindowSec == q.policyWindowSec && s.cfg == q.cfg
      && s.hist.refills == q.hist.refills && s.hist.served == q.hist.served && s.hist.clock == q.hist.clock
  {
  }

  lemma CheckStep(q: Quota, now: Time, p: Time, lag: Time)
    requires lag >= 0 && Sound(q) && RefillInvariant(q, p, lag) && now == q.hist.clock
    ensures RefillInvariant(CanDispatch(q, now).0, p, lag)
  {
    hide SplitLimit, Roll;
    if !(q.lockdownActive && now < q.lockdownUntil) && q.calibrated {
      var q1 := Served(q);
      assert RefillInvariant(q1, p, lag);
      RefreshStep(q1, now, p, lag);
      RollView(Refresh(q1, now).0, now);
    }
  }

  lemma RealignView(q: Quota, r: Report)
    ensures var s := Realign(q, r);
      && s.windowActive == q.windowActive && s.windowEnd == q.windowEnd
      && s.localRemaining == q.localRemaining
      && s.policyWindowSec == (if r.window > 0 then r.window else q.policyWindowSec) && s.cfg == q.cfg
      && s.bucketLimit == (if r.limit > 0 then r.limit else q.bucketLimit)
      && s.hist.refills == q.hist.refills && s.hist.served == q.hist.served && s.hist.clock == q.hist.clock
  {
  }

  lemma ObserveView(q: Quota, r: Report)
    ensures var s := Observe(q, r).0;
            var raises := r.remaining >= 0
              && (!q.windowActive || r.recvAt >= q.windowEnd || Min(r.remaining, q.bucketLimit) > q.localRemaining);
      && s.hist == q.hist && s.policyWindowSec == q.policyWindowSec && s.cfg == q.cfg && s.bucketLimit == q.bucketLimit
      && (raises ==> s.windowActive && s.windowEnd == r.recvAt + Seconds(PolicyWindow(q)))
      && (!raises ==> s.windowActive == q.windowActive && s.windowEnd == q.windowEnd)
      && s.localRemaining == (if r.remaining >= 0 then Min(r.remaining, q.bucketLimit) else q.localRemaining)
  {
  }

  lemma ObserveStep(q: Quota, r: Report, p: Time, lag: Time)
    requires lag >= 0 && RefillInvariant(q, p, lag) && r.recvAt >= q.hist.clock - lag
    ensures RefillInvariant(Observe(q, r).0, p, lag)
  {
    ObserveView(q, r);
  }

  lemma FoldStep(q: Quota, r: Report, p: Time, lag: Time)
    requires lag >= 0 && Sound(q) && RefillInvariant(q, p, lag)
    requires Prompt(Fold(r, q.hist.clock), p, lag)
    ensures RefillInvariant(Settle(q, r), p, lag)
  {
    var q1 := Release(q, r);
    RealignView(q1, r);
    ObserveStep(Realign(q1, r), r, p, lag);
  }

  lemma RefillStep(q: Quota, op: QuotaOp, p: Time, lag: Time)
    requires lag >= 0 && Sound(q) && RefillInvariant(q, p, lag)
    requires Legal(q, op) && Prompt(op, p, lag)
    ensures RefillInvariant(Apply(q, op), p, lag)
  {
    hide Settle, CanDispatch;
    match op
    case Check(now) => CheckStep(Ticked(q, now), now, p, lag);
    case Fold(r, now) => FoldStep(Ticked(q, now), r, p, lag);
    case _ =>
  }

  /** Over any run of operations refills stay at least p - lag apart. */
  lemma {:induction false} RefillsStaySpaced(q: Quota, ops: seq<QuotaOp>, p: Time, lag: Time)
    requires lag >= 0 && Sound(q) && RefillInvariant(q, p, lag) && LegalAll(q, ops)
    requires forall i :: 0 <= i < |ops| ==> Prompt(ops[i], p, lag)
    ensures RefillInvariant(ApplyAll(q, ops), p, lag)
    decreases ops
  {
    hide Apply, Legal, Sound;
    if ops != [] {
      RefillStep(q, ops[0], p, lag);
      OpKeepsSound(q, ops[0]);
      RefillsStaySpaced(Apply(q, ops[0]), ops[1..], p, lag);
    }
  }

  /**
   * A matched report moves the staleness horizon exactly when it carries a
   * remaining and finds no view, an aged one, or fewer units than it reports.
   */
  lemma ReportMovesHorizon(q: Quota, r: Report)
    requires q.calibrated
    ensures var limit := if r.limit > 0 then r.limit else q.bucketLimit;
            var raises := r.remaining >= 0
              && (!q.windowActive || r.recvAt >= q.windowEnd || Min(r.remaining, limit) > q.localRemaining);
            var s := Settle(q, r);
      && (raises ==> s.windowActive && s.windowEnd == r.recvAt + Seconds(PolicyWindow(s)))
      && (!raises ==> s.windowActive == q.windowActive && s.windowEnd == q.windowEnd)
      && s.localRemaining == (if r.remaining >= 0 then Min(r.remaining, limit) else q.localRemaining)
  {
    var q1 := Release(q, r);
    RealignView(q1, r);
    ObserveView(Realign(q1, r), r);
  }

  /** n is the least of three values, none of them negative. */
  predicate IsLeast(n: int, x: int, y: int, z: int) {
    0 <= n <= x && n <= y && n <= z && (n == x || n == y || n == z)
  }

  /** A class split freshly made for a limit and the demand booked since the previous one. */
  predicate FreshSplit(s: Quota, limit: nat, demand: Tally) {
    && s.demand == map[]
    && s.classes.Keys == Active(demand)
    && Total(s.classes) + s.shared == limit && s.shared >= 0
    && (forall c :: c in s.classes ==>
          IsLeast(s.classes[c], ShareIn(limit, c, Active(demand)), At(demand, c), Cap(c, limit)))
    && s.hist.queueGrants == 0 && s.hist.resetLimit == limit
  }

  lemma ResetMakesFreshSplit(q: Quota)
    ensures FreshSplit(ResetClassBudgets(q), q.bucketLimit, q.demand)
  {
    SplitConserves(q.bucketLimit, q.demand);
  }

  /**
   * A check that passes a penalty refreshes the view exactly when there is none
   * or it has aged, and then hands out the whole limit anew, class by class.
   */
  lemma RefreshHandsOutWholeLimit(q: Quota, now: Time)
    ensures var (s, refilled) := Refresh(q, now);
      && (refilled <==> !q.windowActive || q.windowEnd <= now)
      && (!refilled ==> s == q)
      && (refilled ==>
            && s.windowActive && s.windowEnd == now + Seconds(PolicyWindow(q))
            && s.localRemaining == q.bucketLimit == s.bucketLimit
            && FreshSplit(s, q.bucketLimit, q.demand))
  {
    if !(q.windowActive && now < q.windowEnd) {
      var q1 := q.(localRemaining := q.bucketLimit,
                   windowActive := true,
                   windowEnd := now + Seconds(PolicyWindow(q)),
                   hist := q.hist.(refills := q.hist.refills + [Refill(now, q.hist.served)]));
      ResetMakesFreshSplit(q1);
      hide FreshSplit, SplitLimit;
    }
  }

  lemma RollKeepsSplit(q: Quota, now: Time, limit: nat, demand: Tally)
    ensures var s := Roll(q, now);
      && s.classes == q.classes && s.shared == q.shared && s.demand == q.demand
      && (FreshSplit(q, limit, demand) <==> FreshSplit(s, limit, demand))
  {
    hide Seconds, Active, Cap, SplitLimit;
  }

  /** A check leaves the class budgets alone, or refreshes the view and splits the limit by the demand booked. */
  lemma CheckKeepsOrRedoesSplit(q: Quota, now: Time)
    ensures var s := CanDispatch(q, now).0;
      if s.hist.refills == q.hist.refills
      then s.classes == q.classes && s.shared == q.shared && s.demand == q.demand
      else FreshSplit(s, q.bucketLimit, q.demand)
  {
    hide FreshSplit, SplitLimit, Seconds;
    if !(q.lockdownActive && now < q.lockdownUntil) && q.calibrated {
      var q1 := Served(q);
      RefreshHandsOutWholeLimit(q1, now);
      var q2 := Refresh(q1, now).0;
      RollKeepsSplit(q2, now, q.bucketLimit, q.demand);
      RollView(q2, now);
      if Refresh(q1, now).1 {
        assert q2.hist.refills == q.hist.refills + [Refill(now, q1.hist.served)];
      }
    }
  }

  /**
   * A matched report redoes the class split exactly when the view had aged by
   * its receive time; a report that merely raises the remaining does not.
   */
  lemma ReportRedoesSplitOnlyWhenStale(q: Quota, r: Report)
    requires q.calibrated
    ensures var s := Settle(q, r);
      if q.windowActive && r.recvAt >= q.windowEnd
      then FreshSplit(s, if r.limit > 0 then r.limit else q.bucketLimit, q.demand)
      else s.classes == q.classes && s.shared == q.shared && s.demand == q.demand
  {
    hide Observe, Realign, FreshSplit, SplitLimit;
    var q1 := Release(q, r);
    RealignSplit(q1, r);
    ObserveKeepsSplit(Realign(q1, r), r, q1.bucketLimit, q.demand);
  }

  lemma RealignSplit(q: Quota, r: Report)
    requires q.calibrated && (r.limit > 0 ==> q.bucketLimit == r.limit)
    ensures var s := Realign(q, r);
      if Stale(q, r.recvAt) then FreshSplit(s, q.bucketLimit, q.demand)
      else s.classes == q.classes && s.shared == q.shared && s.demand == q.demand
  {
    hide FreshSplit, SplitLimit;
    ResetMakesFreshSplit(q.(policyWindowSec := if r.window > 0 then r.window else q.policyWindowSec));
  }

  lemma ObserveKeepsSplit(q: Quota, r: Report, limit: nat, demand: Tally)
    ensures var s := Observe(q, r).0;
      && s.classes == q.classes && s.shared == q.shared && s.demand == q.demand
      && (FreshSplit(q, limit, demand) <==> FreshSplit(s, limit, demand))
  {
    hide Seconds, Active, Cap, SplitLimit;
  }

  /** The believed remaining does not exceed the limit. */
  predicate WithinLimit(q: Quota) {
    q.localRemaining <= q.bucketLimit
  }

  /**
   * A report keeps the believed remaining within the limit exactly when it
   * carries a remaining, or is the calibrating one, or does not lower the limit
   * below what is believed to remain.
   */
  lemma ReportKeepsWithinLimit(q: Quota, r: Report)
    requires Sound(q) && WithinLimit(q)
    ensures WithinLimit(Settle(q, r))
       <==> r.remaining >= 0 || !q.calibrated || r.limit <= 0 || q.localRemaining <= r.limit
  {
    var q1 := Release(q, r);
    RealignView(q1, r);
    ObserveView(Realign(q1, r), r);
  }

  /** Every other operation keeps it. */
  lemma OthersKeepWithinLimit(q: Quota, op: QuotaOp)
    requires Sound(q) && WithinLimit(q) && Legal(q, op) && !op.Fold?
    ensures WithinLimit(Apply(q, op))
  {
    if op.Check? {
      var q0 := Ticked(q, op.now);
      if !(q0.lockdownActive && op.now < q0.lockdownUntil) && q0.calibrated {
        var q1 := Served(q0);
        assert WithinLimit(Refresh(q1, op.now).0);
      }
    }
  }

  /** A report that carries a remaining, or no report. */
  predicate Counted(op: QuotaOp) {
    op.Fold? ==> op.r.remaining >= 0
  }

  lemma {:induction false} WithinLimitStays(q: Quota, ops: seq<QuotaOp>)
    requires Sound(q) && WithinLimit(q) && LegalAll(q, ops)
    requires forall i :: 0 <= i < |ops| ==> Counted(ops[i])
    ensures WithinLimit(ApplyAll(q, ops))
    decreases ops
  {
    hide Sound, Legal, WithinLimit;
    if ops != [] {
      WithinLimitStep(q, ops[0]);
      OpKeepsSound(q, ops[0]);
      hide Apply;
      WithinLimitStays(Apply(q, ops[0]), ops[1..]);
    }
  }

  lemma WithinLimitStep(q: Quota, op: QuotaOp)
    requires Sound(q) && WithinLimit(q) && Legal(q, op) && Counted(op)
    ensures WithinLimit(Apply(q, op))
  {
    hide Settle;
    if op.Fold? {
      OpKeepsSound(q, Tick(op.now));
      ReportKeepsWithinLimit(Ticked(q, op.now), op.r);
    } else {
      OthersKeepWithinLimit(q, op);
    }
  }
}
