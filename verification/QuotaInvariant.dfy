/** What every quota operation keeps, for operations in the order the engine performs them. */
module QuotaInvariant {
  import opened Clock
  import opened Optional
  import opened ClassSplit
  import opened QuotaModel

  /** The quota operations the engine's lock-held sections are made of. */
  datatype QuotaOp =
    | Tick(now: Time)                    // the clock is read
    | Demand(c: PriorityClass, units: int)   // book demand
    | Check(now: Time)                   // CanDispatch
    | Take(c: PriorityClass)             // class or shared unit for a queued item
    | Grant(now: Time)                   // issue a ticket
    | Fold(r: Report, now: Time)         // a matched report's headers
    | Penalise(r: Report, now: Time)     // its 429
    | Retire(gone: nat)                   // expired or reclaimed tickets

  function Apply(q: Quota, op: QuotaOp): Quota {
    match op
    case Tick(now) => Ticked(q, now)
    case Demand(c, n) => AddDemand(q, c, n)
    case Check(now) => CanDispatch(Ticked(q, now), now).0
    case Take(c) => Draw(q, c)
    case Grant(now) => Issue(q)
    case Fold(r, now) => Settle(Ticked(q, now), r)
    case Penalise(r, now) => NotePenalty(Ticked(q, now), r.retryAfter, now)
    case Retire(n) => q.(inFlight := q.inFlight - n)
  }

  /** The view has not ended; only a window too long for 64 bits can end in the past as it opens. */
  predicate FreshView(q: Quota, now: Time) {
    && q.windowActive
    && (now < q.windowEnd || (PolicyWindow(q) > MAX_SECONDS && q.windowEnd == now + Seconds(PolicyWindow(q))))
  }

  /** What a positive CanDispatch leaves behind. */
  predicate Ready(q: Quota, now: Time) {
    && !q.lockdownActive
    && (if q.calibrated then
          && FreshView(q, now)
          && q.sustainedEnd.Some?
          && q.sustainedUsed < q.sustainedLimit
          && q.localRemaining - q.inFlight > 0
        else q.localRemaining > 0)
  }

  /** When the engine performs an operation; its clock never runs backwards. */
  predicate Legal(q: Quota, op: QuotaOp) {
    match op
    case Tick(now) => now >= q.hist.clock
    case Demand(_, _) => true
    case Check(now) => now >= q.hist.clock
    case Take(c) => HasClassQuota(q, c) || HasSharedQuota(q)
    case Grant(now) => now == q.hist.clock && Ready(q, now)
    case Fold(_, now) => now >= q.hist.clock
    case Penalise(_, now) => now >= q.hist.clock && q.calibrated
    case Retire(_) => true
  }

  function ApplyAll(q: Quota, ops: seq<QuotaOp>): Quota
    decreases ops
  {
    if ops == [] then q else ApplyAll(Apply(q, ops[0]), ops[1..])
  }

  predicate LegalAll(q: Quota, ops: seq<QuotaOp>)
    decreases ops
  {
    ops == [] || (Legal(q, ops[0]) && LegalAll(Apply(q, ops[0]), ops[1..]))
  }

  lemma {:induction false} ApplyConcat(q: Quota, a: seq<QuotaOp>, b: seq<QuotaOp>)
    ensures ApplyAll(q, a + b) == ApplyAll(ApplyAll(q, a), b)
    ensures LegalAll(q, a + b) <==> LegalAll(q, a) && LegalAll(ApplyAll(q, a), b)
    decreases a
  {
    if a == [] {
      assert a + b == b;
    } else {
      assert (a + b)[1..] == a[1..] + b;
      ApplyConcat(Apply(q, a[0]), a[1..], b);
    }
  }

  // ---- the invariant, one concern at a time ----

  /** The adaptive limit stays between its configured bounds; windows have positive lengths. */
  predicate LimitsBounded(q: Quota) {
    && 1 <= q.cfg.sustainedMinLimit <= q.sustainedLimit <= q.cfg.sustainedMaxLimit
    && q.bucketLimit >= 1
    && q.policyWindowSec >= 1
    && q.sustainedWindowSec >= 1
  }

  /** Before calibration nothing but the cold-start unit exists. */
  predicate BootstrapShape(q: Quota) {
    !q.calibrated ==>
      && q.localRemaining == 1
      && !q.windowActive && !q.lockdownActive
      && q.sustainedEnd.None?
      && q.hist.refills == [] && q.hist.rolls == []
  }

  /**
   * Coupling: a running penalty owns the sustained window, which is fully used
   * and marked, and it is the latest one; a finished one lies in the past.
   */
  predicate PenaltyCoupled(q: Quota) {
    && (q.lockdownActive ==>
          && q.calibrated
          && q.sustainedEnd == Some(q.lockdownUntil)
          && q.sustainedUsed == q.sustainedLimit
          && q.penaltyInWindow
          && q.hist.lastPenaltyEnd == Some(q.lockdownUntil))
    && (!q.lockdownActive && q.hist.lastPenaltyEnd.Some? ==> q.hist.lastPenaltyEnd.value <= q.hist.clock)
  }

  /** A sustained window never issues more than the limit it began with. */
  predicate WindowBounded(q: Quota) {
    && q.hist.windowGrants <= q.hist.windowLimit <= q.cfg.sustainedMaxLimit
    && (q.sustainedEnd.None? ==> q.hist.windowGrants == 0)
    && (q.calibrated && q.sustainedEnd.Some? ==>
          && 0 <= q.sustainedUsed <= q.sustainedLimit
          && q.hist.windowGrants + (q.sustainedLimit - q.sustainedUsed) <= q.hist.windowLimit)
  }

  /** Conservation of the class split: what is left and what the queue drew make up the limit. */
  predicate BudgetsConserved(q: Quota) {
    && q.classes.Keys <= KNOWN && q.demand.Keys <= KNOWN
    && (forall c :: c in q.classes ==> q.classes[c] >= 0)
    && q.shared >= 0
    && Total(q.classes) + q.shared + q.hist.queueGrants == q.hist.resetLimit
  }

  predicate Sound(q: Quota) {
    && LimitsBounded(q)
    && BootstrapShape(q)
    && PenaltyCoupled(q)
    && WindowBounded(q)
    && BudgetsConserved(q)
  }

  /** Sound from any raw configuration. */
  lemma BootIsSound(raw: Config, now: Time)
    ensures Sound(Boot(raw, now))
  {
  }

  lemma ResetConserves(q: Quota)
    requires q.bucketLimit >= 0
    ensures BudgetsConserved(ResetClassBudgets(q))
  {
    SplitConserves(q.bucketLimit, q.demand);
  }

  lemma DrawConserves(q: Quota, c: PriorityClass)
    requires BudgetsConserved(q) && (HasClassQuota(q, c) || HasSharedQuota(q))
    ensures BudgetsConserved(Draw(q, c))
  {
  }

  lemma RealignKeepsSound(q: Quota, r: Report)
    requires Sound(q) && q.calibrated
    ensures Sound(Realign(q, r)) && Realign(q, r).calibrated
  {
    hide SplitLimit;
    var q1 := q.(bucketLimit := if r.limit > 0 then r.limit else q.bucketLimit,
                 policyWindowSec := if r.window > 0 then r.window else q.policyWindowSec);
    ResetConserves(q1);
  }

  lemma ObserveKeepsSound(q: Quota, r: Report)
    requires Sound(q) && q.calibrated
    ensures Sound(Observe(q, r).0)
  {
    hide SplitLimit;
  }

  lemma SettleKeepsSound(q: Quota, r: Report)
    requires Sound(q)
    ensures Sound(Settle(q, r))
  {
    hide Realign, Observe;
    var q1 := Release(q, r);
    RealignKeepsSound(q1, r);
    ObserveKeepsSound(Realign(q1, r), r);
  }

  lemma RefreshKeepsSound(q: Quota, now: Time)
    requires Sound(q) && q.calibrated
    ensures Sound(Refresh(q, now).0)
  {
    hide SplitLimit;
    if !(q.windowActive && now < q.windowEnd) {
      var q1 := q.(localRemaining := q.bucketLimit,
                   windowActive := true,
                   windowEnd := now + Seconds(PolicyWindow(q)),
                   hist := q.hist.(refills := q.hist.refills + [Refill(now, q.hist.served)]));
      ResetConserves(q1);
    }
  }

  lemma RollKeepsSound(q: Quota, now: Time)
    requires Sound(q) && q.calibrated && !q.lockdownActive
    ensures Sound(Roll(q, now))
  {
  }

  lemma ServedKeepsSound(q: Quota, now: Time)
    requires Sound(q) && now == q.hist.clock && !(q.lockdownActive && now < q.lockdownUntil)
    ensures Sound(Served(q))
  {
  }

  lemma RefreshedView(q: Quota, now: Time)
    requires PolicyWindow(q) > 0
    ensures var s := Refresh(q, now).0;
      && FreshView(s, now)
      && s.calibrated == q.calibrated && s.lockdownActive == q.lockdownActive && s.hist.clock == q.hist.clock
  {
    hide SplitLimit;
  }

  lemma CheckKeepsSound(q: Quota, now: Time)
    requires Sound(q) && now == q.hist.clock
    ensures Sound(CanDispatch(q, now).0)
    ensures CanDispatch(q, now).1 ==> Ready(CanDispatch(q, now).0, now)
  {
    assert PolicyWindow(q) > 0;
    hide Sound, Refresh;
    if !(q.lockdownActive && now < q.lockdownUntil) {
      ServedKeepsSound(q, now);
      if q.calibrated {
        var q2 := Refresh(Served(q), now).0;
        RefreshKeepsSound(Served(q), now);
        RefreshedView(Served(q), now);
        RollKeepsSound(q2, now);
      }
    }
  }

  lemma PenaltyKeepsSound(q: Quota, retryAfter: int, now: Time)
    requires Sound(q) && q.calibrated
    ensures Sound(NotePenalty(q, retryAfter, now))
  {
  }

  /** Every operation keeps the invariant. */
  lemma OpKeepsSound(q: Quota, op: QuotaOp)
    requires Sound(q) && Legal(q, op)
    ensures Sound(Apply(q, op))
  {
    hide Settle, CanDispatch, NotePenalty;
    match op
    case Check(now) => CheckKeepsSound(Ticked(q, now), now);
    case Take(c) => DrawConserves(q, c);
    case Fold(r, now) => SettleKeepsSound(Ticked(q, now), r);
    case Penalise(r, now) => PenaltyKeepsSound(Ticked(q, now), r.retryAfter, now);
    case _ =>
  }

  lemma {:induction false} OpsKeepSound(q: Quota, ops: seq<QuotaOp>)
    requires Sound(q) && LegalAll(q, ops)
    ensures Sound(ApplyAll(q, ops))
    decreases ops
  {
    hide Sound, Apply, Legal;
    if ops != [] {
      OpKeepsSound(q, ops[0]);
      OpsKeepSound(Apply(q, ops[0]), ops[1..]);
    }
  }
}
