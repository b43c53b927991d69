/** Sustained windows do not open more often than the shortest of them lasts. */
module WindowSpacing {
  import opened Clock
  import opened ClassSplit
  import opened QuotaModel
  import opened QuotaInvariant
  import opened RateBound

  /** Consecutive sustained windows open at least w apart. */
  predicate RollsSpaced(q: Quota, w: Time) {
    forall i :: 0 < i < |q.hist.rolls| ==> q.hist.rolls[i] - q.hist.rolls[i - 1] >= w
  }

  predicate RollInvariant(q: Quota, w: Time) {
    && RollsSpaced(q, w)
    && Seconds(q.sustainedWindowSec) >= w
    && (|q.hist.rolls| > 0 ==>
          var last := q.hist.rolls[|q.hist.rolls| - 1];
          && last <= q.hist.clock
          && q.sustainedEnd.Some? && q.sustainedEnd.value >= last + w)
  }

  lemma RefreshKeepsRolls(q: Quota, now: Time)
    ensures Refresh(q, now).0.hist.rolls == q.hist.rolls
  {
    hide SplitLimit, Seconds;
  }

  lemma SettleKeepsRolls(q: Quota, r: Report)
    ensures Settle(q, r).hist.rolls == q.hist.rolls
  {
    hide SplitLimit, Seconds;
    var q1 := Release(q, r);
    var q2 := Realign(q1, r);
    assert q2.hist.rolls == q1.hist.rolls;
  }

  lemma RollKeepsSpacing(q: Quota, now: Time, w: Time)
    requires w > 0 && RollInvariant(q, w) && now == q.hist.clock
    ensures RollInvariant(Roll(q, now), w)
  {
    if !(q.sustainedEnd.Some? && now < q.sustainedEnd.value) {
      var s := Roll(q, now);
      var n := |q.hist.rolls|;
      assert s.hist.rolls == q.hist.rolls + [now];
      if n > 0 {
        assert s.hist.rolls[n] - s.hist.rolls[n - 1] >= w;
      }
    }
  }

  lemma CheckKeepsSpacing(q: Quota, now: Time, w: Time)
    requires w > 0 && RollInvariant(q, w) && now == q.hist.clock
    ensures RollInvariant(CanDispatch(q, now).0, w)
  {
    hide Roll, Refresh, Seconds;
    if !(q.lockdownActive && now < q.lockdownUntil) && q.calibrated {
      var q1 := Served(q);
      RefreshFrame(q1, now);
      RefreshKeepsRolls(q1, now);
      RollKeepsSpacing(Refresh(q1, now).0, now, w);
    }
  }

  lemma SpacingStep(q: Quota, op: QuotaOp, w: Time)
    requires w > 0 && RollInvariant(q, w) && Legal(q, op) && LongPenalty(op, w)
    ensures RollInvariant(Apply(q, op), w)
  {
    hide Settle, CanDispatch, AddDemand, Draw;
    match op
    case Check(now) => CheckKeepsSpacing(Ticked(q, now), now, w);
    case Fold(r, now) =>
      SettleFrame(Ticked(q, now), r);
      SettleKeepsRolls(Ticked(q, now), r);
    case Demand(c, n) => DemandFrame(q, c, n);
    case Take(c) => DrawFrame(q, c);
    case _ =>
  }

  lemma DemandFrame(q: Quota, c: PriorityClass, n: int)
    ensures SameSustained(q, AddDemand(q, c, n)) && AddDemand(q, c, n).hist.rolls == q.hist.rolls
  {
  }

  lemma DrawFrame(q: Quota, c: PriorityClass)
    ensures SameSustained(q, Draw(q, c)) && Draw(q, c).hist.rolls == q.hist.rolls
  {
  }

  /**
   * Penalties replace the end of the running window and its length, yet over
   * any run of operations two windows never open less than w apart.
   */
  lemma {:induction false} WindowsStaySpaced(q: Quota, ops: seq<QuotaOp>, w: Time)
    requires w > 0 && RollInvariant(q, w) && LegalAll(q, ops)
    requires forall i :: 0 <= i < |ops| ==> LongPenalty(ops[i], w)
    ensures RollInvariant(ApplyAll(q, ops), w)
    decreases ops
  {
    hide Apply, Legal, RollInvariant, LongPenalty;
    if ops != [] {
      SpacingStep(q, ops[0], w);
      WindowsStaySpaced(Apply(q, ops[0]), ops[1..], w);
    }
  }
}
