/** No wedge: once every period in force has run out and nothing is in flight, dispatch resumes. */
module Liveness {
  import opened Clock
  import opened ClassSplit
  import opened QuotaModel
  import opened QuotaInvariant
  import opened Penalty
  import opened RateBound
  import opened Refill

  /**
   * Nothing blocks from x on but the tickets in flight: no penalty outlasts x,
   * a view that outlasts x is full, and a sustained window that outlasts x has
   * room. A check made while waiting opens only full views and unused windows.
   */
  predicate ClearBy(q: Quota, x: Time) {
    && (q.lockdownActive ==> q.lockdownUntil <= x)
    && (q.windowActive ==> q.windowEnd <= x || q.localRemaining == q.bucketLimit)
    && (q.sustainedEnd.Some? ==> q.sustainedEnd.value <= x || q.sustainedUsed < q.sustainedLimit)
  }

  /** Once clear, dispatch depends on the tickets in flight alone. */
  lemma ClearDispatches(q: Quota, now: Time)
    requires Sound(q) && ClearBy(q, now)
    ensures CanDispatch(q, now).1 <==> !q.calibrated || q.inFlight < q.bucketLimit
  {
    if q.calibrated {
      var q1 := Served(q);
      var q2 := Refresh(q1, now).0;
      RefreshFrame(q1, now);
      assert q2.localRemaining == q.bucketLimit && q2.inFlight == q.inFlight;
    }
  }

  /** An operation of a time in which no ticket is issued and no report accepted. */
  predicate Quiet(op: QuotaOp) {
    op.Tick? || op.Demand? || op.Check? || op.Retire?
  }

  lemma ClearAfterRefresh(q: Quota, now: Time, x: Time)
    requires !q.lockdownActive && (q.windowActive ==> q.windowEnd <= x || q.localRemaining == q.bucketLimit)
    ensures var s := Refresh(q, now).0;
      s.windowActive ==> s.windowEnd <= x || s.localRemaining == s.bucketLimit
  {
    hide SplitLimit, Seconds;
  }

  lemma ClearAfterCheck(q: Quota, now: Time, x: Time)
    requires Sound(q) && ClearBy(q, x)
    ensures ClearBy(CanDispatch(q, now).0, x)
  {
    hide Refresh, Seconds;
    if q.lockdownActive && now < q.lockdownUntil {
      RunningPenaltyBlocks(q, now);
    } else if q.calibrated {
      var q1 := Served(q);
      RefreshFrame(q1, now);
      ClearAfterRefresh(q1, now, x);
      RollView(Refresh(q1, now).0, now);
      RollKeepsBudget(Refresh(q1, now).0, now);
    }
  }

  lemma RollKeepsBudget(q: Quota, now: Time)
    ensures Roll(q, now).localRemaining == q.localRemaining && Roll(q, now).bucketLimit == q.bucketLimit
  {
    hide Seconds;
  }

  lemma ClearStep(q: Quota, op: QuotaOp, x: Time)
    requires Sound(q) && ClearBy(q, x) && Legal(q, op) && Quiet(op)
    ensures ClearBy(Apply(q, op), x)
  {
    hide CanDispatch;
    match op
    case Check(now) =>
      OpKeepsSound(q, Tick(now));
      ClearAfterCheck(Ticked(q, now), now, x);
    case _ =>
  }

  /** Whatever checks, bookings and expiries happen meanwhile, a quota clear by x stays so. */
  lemma {:induction false} ClearStays(q: Quota, ops: seq<QuotaOp>, x: Time)
    requires Sound(q) && ClearBy(q, x) && LegalAll(q, ops)
    requires forall i :: 0 <= i < |ops| ==> Quiet(ops[i])
    ensures ClearBy(ApplyAll(q, ops), x)
    decreases ops
  {
    hide Sound, Apply, Legal, ClearBy, Quiet;
    if ops != [] {
      ClearStep(q, ops[0], x);
      OpKeepsSound(q, ops[0]);
      ClearStays(Apply(q, ops[0]), ops[1..], x);
    }
  }

  /**
   * Reports are not received after they are processed, name policy windows of
   * at most p and penalties of at most s.
   */
  predicate Timely(op: QuotaOp, p: Time, s: Time) {
    && (op.Fold? ==> op.r.recvAt <= op.now && (op.r.window > 0 ==> Seconds(op.r.window) <= p))
    && (op.Penalise? ==> op.r.retryAfter > 0 ==> Seconds(op.r.retryAfter) <= s)
  }

  /** No timer reaches further than its longest window beyond the clock. */
  predicate TimersNear(q: Quota, p: Time, s: Time) {
    && Seconds(PolicyWindow(q)) <= p && Seconds(q.sustainedWindowSec) <= s
    && (q.windowActive ==> q.windowEnd <= q.hist.clock + p)
    && (q.sustainedEnd.Some? ==> q.sustainedEnd.value <= q.hist.clock + s)
    && (q.lockdownActive ==> q.lockdownUntil <= q.hist.clock + s)
  }

  lemma TimersNearRefresh(q: Quota, now: Time, p: Time, s: Time)
    requires TimersNear(q, p, s) && now == q.hist.clock
    ensures TimersNear(Refresh(q, now).0, p, s)
  {
    RefreshFrame(q, now);
    var q2 := Refresh(q, now).0;
    assert q2.policyWindowSec == q.policyWindowSec;
  }

  lemma TimersNearCheck(q: Quota, now: Time, p: Time, s: Time)
    requires Sound(q) && TimersNear(q, p, s) && now == q.hist.clock
    ensures TimersNear(CanDispatch(q, now).0, p, s)
  {
    if !(q.lockdownActive && now < q.lockdownUntil) && q.calibrated {
      var q1 := Served(q);
      TimersNearRefresh(q1, now, p, s);
      RollView(Refresh(q1, now).0, now);
    }
  }

  lemma TimersNearFold(q: Quota, r: Report, p: Time, s: Time)
    requires Sound(q) && TimersNear(q, p, s) && Timely(Fold(r, q.hist.clock), p, s)
    ensures TimersNear(Settle(q, r), p, s)
  {
    var q1 := Release(q, r);
    RealignView(q1, r);
    ObserveView(Realign(q1, r), r);
    SettleFrame(q, r);
  }

  lemma TimersNearStep(q: Quota, op: QuotaOp, p: Time, s: Time)
    requires Sound(q) && TimersNear(q, p, s) && Legal(q, op) && Timely(op, p, s)
    ensures TimersNear(Apply(q, op), p, s)
  {
    match op
    case Check(now) => TimersNearCheck(Ticked(q, now), now, p, s);
    case Fold(r, now) => TimersNearFold(Ticked(q, now), r, p, s);
    case _ =>
  }

  lemma {:induction false} TimersStayNear(q: Quota, ops: seq<QuotaOp>, p: Time, s: Time)
    requires Sound(q) && TimersNear(q, p, s) && LegalAll(q, ops)
    requires forall i :: 0 <= i < |ops| ==> Timely(ops[i], p, s)
    ensures TimersNear(ApplyAll(q, ops), p, s)
    decreases ops
  {
    if ops != [] {
      TimersNearStep(q, ops[0], p, s);
      OpKeepsSound(q, ops[0]);
      TimersStayNear(Apply(q, ops[0]), ops[1..], p, s);
    }
  }
}
