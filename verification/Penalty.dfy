/** Penalties: nothing is granted before the latest one ends, and its end resets both budgets. */
module Penalty {
  import opened Clock
  import opened Optional
  import opened ClassSplit
  import opened QuotaModel
  import opened QuotaInvariant
  import opened RateBound

  /** The end a penalty announced at now would have. */
  function PenaltyEnd(q: Quota, r: Report, now: Time): Time {
    now + Seconds(if r.retryAfter > 0 then r.retryAfter else q.sustainedWindowSec)
  }

  /** The recorded penalty end is that of the latest 429 and of nothing else. */
  lemma LastPenaltyIsLatest(q: Quota, op: QuotaOp)
    ensures Apply(q, op).hist.lastPenaltyEnd ==
            if op.Penalise? then Some(PenaltyEnd(q, op.r, op.now)) else q.hist.lastPenaltyEnd
    ensures Apply(q, op).penalties == q.penalties + if op.Penalise? then 1 else 0
  {
    hide SplitLimit, Settle;
    match op
    case Fold(r, now) => SettlePenaltyFrame(Ticked(q, now), r);
    case _ =>
  }

  lemma SettlePenaltyFrame(q: Quota, r: Report)
    ensures Settle(q, r).hist.lastPenaltyEnd == q.hist.lastPenaltyEnd
    ensures Settle(q, r).penalties == q.penalties
    ensures Settle(q, r).penaltyInWindow == q.penaltyInWindow
  {
    var q1 := Release(q, r);
    RealignPenaltyFrame(q1, r);
    hide Realign;
    ObservePenaltyFrame(Realign(q1, r), r);
    hide Observe;
  }

  predicate SamePenalties(a: Quota, b: Quota) {
    && a.hist.lastPenaltyEnd == b.hist.lastPenaltyEnd && a.penalties == b.penalties
    && a.penaltyInWindow == b.penaltyInWindow
  }

  lemma RealignPenaltyFrame(q: Quota, r: Report)
    ensures SamePenalties(q, Realign(q, r))
  {
    hide SplitLimit;
  }

  lemma ObservePenaltyFrame(q: Quota, r: Report)
    ensures SamePenalties(q, Observe(q, r).0)
  {
    hide Seconds;
  }

  /**
   * The first check at or after the end of a penalty refills the burst view and
   * opens a new sustained window together, and credits nothing for the old one.
   */
  lemma ServedPenaltyResetsBoth(q: Quota, now: Time)
    requires Sound(q) && q.lockdownActive && now >= q.lockdownUntil
    ensures var (s, granted) := CanDispatch(q, now);
      && !s.lockdownActive && !s.penaltyInWindow
      && s.localRemaining == q.bucketLimit == s.bucketLimit
      && s.windowActive && s.windowEnd == now + Seconds(PolicyWindow(q))
      && s.sustainedUsed == 0 && s.sustainedEnd == Some(now + Seconds(q.sustainedWindowSec))
      && s.sustainedLimit == q.sustainedLimit
      && (granted <==> q.inFlight < q.bucketLimit)
  {
    var q1 := Served(q);
    var q2 := Refresh(q1, now).0;
    assert q2.localRemaining == q.bucketLimit && q2.bucketLimit == q.bucketLimit;
    RefreshFrame(q1, now);
  }

  /** During a penalty a check refuses and changes nothing. */
  lemma RunningPenaltyBlocks(q: Quota, now: Time)
    requires q.lockdownActive && now < q.lockdownUntil
    ensures CanDispatch(q, now) == (q, false)
  {
  }
}
