/** The sustained budget bounds the rate of tickets over any span of time. */
module RateBound {
  import opened Arithmetic
  import opened Clock
  import opened ClassSplit
  import opened QuotaModel
  import opened QuotaInvariant

  /** Operations that read the clock do so within [from, until]. */
  predicate Within(op: QuotaOp, from: Time, until: Time) {
    match op
    case Tick(now) => from <= now <= until
    case Check(now) => from <= now <= until
    case Grant(now) => from <= now <= until
    case Fold(_, now) => from <= now <= until
    case Penalise(_, now) => from <= now <= until
    case _ => true
  }

  /** A reported penalty lasts at least w. */
  predicate LongPenalty(op: QuotaOp, w: Time) {
    op.Penalise? && op.r.retryAfter > 0 ==> Seconds(op.r.retryAfter) >= w
  }

  /** Tickets the current sustained window may still issue. */
  function Room(q: Quota): int {
    if q.calibrated && q.sustainedEnd.Some? then q.sustainedLimit - q.sustainedUsed else 0
  }

  /** How many windows can open by x when the first opens at e and they are w apart. */
  function RollsBy(e: Time, x: Time, w: Time): nat
    requires w > 0
  {
    if x < e then 0 else (x - e) / w + 1
  }

  /** No window opens before e, given that nothing happens before from. */
  predicate NoRollBefore(q: Quota, e: Time, from: Time) {
    e <= from || e <= q.hist.clock || (q.sustainedEnd.Some? && e <= q.sustainedEnd.value)
  }

  predicate RateInvariant(q: Quota, e: Time, from: Time, w: Time) {
    && Sound(q)
    && Seconds(q.sustainedWindowSec) >= w
    && NoRollBefore(q, e, from)
    && (e <= from + w || e <= q.hist.clock + w)
  }

  function Allowance(q: Quota, e: Time, x: Time, w: Time): int
    requires w > 0
  {
    q.hist.sustainedGrants + Room(q) + q.cfg.sustainedMaxLimit * RollsBy(e, x, w)
  }

  lemma RollsDecrease(e: Time, now: Time, x: Time, w: Time)
    requires w > 0 && e <= now <= x
    ensures RollsBy(now + w, x, w) + 1 <= RollsBy(e, x, w)
  {
    if x >= now + w {
      QuotientMonotone(x - now, x - e, w);
      QuotientStep(x - now, w);
    } else {
      QuotientMonotone(0, x - e, w);
    }
  }

  lemma RollStep(q: Quota, now: Time, e: Time, from: Time, x: Time, w: Time) returns (e': Time)
    requires w > 0 && RateInvariant(q, e, from, w) && q.calibrated && !q.lockdownActive
    requires now == q.hist.clock && from <= now <= x
    ensures Roll(q, now).hist.clock == now
    ensures RateInvariant(Roll(q, now), e', from, w)
    ensures Allowance(Roll(q, now), e', x, w) <= Allowance(q, e, x, w)
  {
    RollKeepsSound(q, now);
    if q.sustainedEnd.Some? && now < q.sustainedEnd.value {
      e' := e;
    } else {
      e' := now + w;
      RollsDecrease(e, now, x, w);
      ScaledStep(q.cfg.sustainedMaxLimit, RollsBy(e', x, w), RollsBy(e, x, w));
    }
  }

  lemma CheckStep(q: Quota, now: Time, e: Time, from: Time, x: Time, w: Time) returns (e': Time)
    requires w > 0 && RateInvariant(q, e, from, w)
    requires now == q.hist.clock && from <= now <= x
    ensures RateInvariant(CanDispatch(q, now).0, e', from, w)
    ensures Allowance(CanDispatch(q, now).0, e', x, w) <= Allowance(q, e, x, w)
  {
    hide SplitLimit, Roll;
    CheckKeepsSound(q, now);
    if (q.lockdownActive && now < q.lockdownUntil) || !q.calibrated {
      e' := e;
    } else {
      var q1 := Served(q);
      var q2 := Refresh(q1, now).0;
      RefreshKeepsSound(q1, now);
      RefreshFrame(q1, now);
      e' := RollStep(q2, now, e, from, x, w);
    }
  }

  predicate SameSustained(a: Quota, b: Quota) {
    && a.cfg == b.cfg && a.lockdownActive == b.lockdownActive
    && a.sustainedWindowSec == b.sustainedWindowSec && a.sustainedLimit == b.sustainedLimit
    && a.sustainedEnd == b.sustainedEnd && a.sustainedUsed == b.sustainedUsed
    && a.hist.sustainedGrants == b.hist.sustainedGrants && a.hist.clock == b.hist.clock
  }

  /** A refresh leaves the sustained window and the grant counters alone. */
  lemma RefreshFrame(q: Quota, now: Time)
    ensures SameSustained(q, Refresh(q, now).0) && Refresh(q, now).0.calibrated == q.calibrated
  {
  }

  lemma RealignFrame(q: Quota, r: Report)
    ensures SameSustained(q, Realign(q, r)) && Realign(q, r).calibrated == q.calibrated
  {
  }

  lemma ObserveFrame(q: Quota, r: Report)
    ensures SameSustained(q, Observe(q, r).0) && Observe(q, r).0.calibrated
  {
  }

  /** So does a report that carries no penalty, up to calibration. */
  lemma SettleFrame(q: Quota, r: Report)
    ensures SameSustained(q, Settle(q, r)) && Settle(q, r).calibrated
  {
    var q1 := Release(q, r);
    RealignFrame(q1, r);
    ObserveFrame(Realign(q1, r), r);
  }

  lemma FoldStep(q: Quota, r: Report, e: Time, from: Time, x: Time, w: Time)
    requires w > 0 && RateInvariant(q, e, from, w)
    ensures RateInvariant(Settle(q, r), e, from, w)
    ensures Allowance(Settle(q, r), e, x, w) == Allowance(q, e, x, w)
  {
    SettleKeepsSound(q, r);
    SettleFrame(q, r);
  }

  lemma PenaltyStep(q: Quota, retryAfter: int, now: Time, e: Time, from: Time, x: Time, w: Time)
    requires w > 0 && RateInvariant(q, e, from, w) && q.calibrated
    requires now == q.hist.clock && from <= now && (retryAfter > 0 ==> Seconds(retryAfter) >= w)
    ensures RateInvariant(NotePenalty(q, retryAfter, now), e, from, w)
    ensures Allowance(NotePenalty(q, retryAfter, now), e, x, w) <= Allowance(q, e, x, w)
  {
    PenaltyKeepsSound(q, retryAfter, now);
  }

  lemma RateStep(q: Quota, op: QuotaOp, e: Time, from: Time, x: Time, w: Time) returns (e': Time)
    requires w > 0 && RateInvariant(q, e, from, w)
    requires Legal(q, op) && LongPenalty(op, w) && Within(op, from, x)
    ensures RateInvariant(Apply(q, op), e', from, w)
    ensures Allowance(Apply(q, op), e', x, w) <= Allowance(q, e, x, w)
  {
    hide Settle, CanDispatch, NotePenalty, AddDemand, Draw, Issue;
    e' := e;
    match op
    case Check(now) =>
      e' := CheckStep(Ticked(q, now), now, e, from, x, w);
    case Fold(r, now) =>
      FoldStep(Ticked(q, now), r, e, from, x, w);
    case Penalise(r, now) =>
      PenaltyStep(Ticked(q, now), r.retryAfter, now, e, from, x, w);
    case _ =>
      OtherStep(q, op, e, from, x, w);
  }

  lemma OtherStep(q: Quota, op: QuotaOp, e: Time, from: Time, x: Time, w: Time)
    requires w > 0 && RateInvariant(q, e, from, w) && Legal(q, op)
    requires !op.Check? && !op.Fold? && !op.Penalise?
    ensures RateInvariant(Apply(q, op), e, from, w)
    ensures Allowance(Apply(q, op), e, x, w) <= Allowance(q, e, x, w)
  {
    hide RollsBy;
    OpKeepsSound(q, op);
  }

  lemma {:induction false} RateOverOps(q: Quota, ops: seq<QuotaOp>, e: Time, from: Time, x: Time, w: Time)
    requires w > 0 && RateInvariant(q, e, from, w)
    requires LegalAll(q, ops)
    requires forall i :: 0 <= i < |ops| ==> LongPenalty(ops[i], w) && Within(ops[i], from, x)
    ensures ApplyAll(q, ops).hist.sustainedGrants <= Allowance(q, e, x, w)
    decreases ops
  {
    hide Apply, Legal;
    if ops != [] {
      var e' := RateStep(q, ops[0], e, from, x, w);
      RateOverOps(Apply(q, ops[0]), ops[1..], e', from, x, w);
    } else {
      assert q.cfg.sustainedMaxLimit * RollsBy(e, x, w) >= 0;
    }
  }

  /**
   * Whatever happens within a span of length at most t, penalties included, at
   * most (t / w + 2) times the largest sustained limit are issued in it, where
   * w is the shortest sustained window in use.
   */
  lemma {:induction false} RateBoundOps(q: Quota, ops: seq<QuotaOp>, from: Time, t: nat, w: Time)
    requires w > 0 && Sound(q) && Seconds(q.sustainedWindowSec) >= w
    requires LegalAll(q, ops)
    requires forall i :: 0 <= i < |ops| ==> LongPenalty(ops[i], w) && Within(ops[i], from, from + t)
    ensures ApplyAll(q, ops).hist.sustainedGrants - q.hist.sustainedGrants
         <= (t / w + 2) * q.cfg.sustainedMaxLimit
  {
    var m := q.cfg.sustainedMaxLimit;
    assert Room(q) <= m;
    RollsWithin(from, t, w);
    assert m * (t / w + 1) + m == (t / w + 2) * m by { Distribute(m, t / w); }
    RateOverOps(q, ops, from, from, from + t, w);
  }

  lemma RollsWithin(from: Time, t: nat, w: Time)
    requires w > 0
    ensures RollsBy(from, from + t, w) == t / w + 1
  {
  }
}
