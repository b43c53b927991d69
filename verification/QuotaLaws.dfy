/** What each quota operation decides and leaves behind, said without naming the functions that compute it. */
module QuotaLaws {
  import opened Clock
  import opened Optional
  import opened ClassSplit
  import opened QuotaModel
  import opened QuotaInvariant
  import opened RateBound
  import opened Refill

  // ---- configuration ----

  /** Positive lengths and limits, with the initial limit between the floor and the ceiling. */
  predicate InRange(raw: Config) {
    && raw.bucketLimit > 0 && raw.policyWindowSec > 0 && raw.sustainedWindowSec > 0
    && 0 < raw.sustainedMinLimit <= raw.sustainedLimit <= raw.sustainedMaxLimit
  }

  /**
   * A configuration in range is taken over unchanged. Otherwise missing lengths
   * and limits get 50, 30 and 900, the floor is at least 1, the ceiling at least
   * the floor, and the initial limit is the one nearest to what was asked for.
   */
  lemma ClampsToNearest(raw: Config)
    ensures InRange(Clamped(raw))
    ensures InRange(raw) ==> Clamped(raw) == raw
    ensures Clamped(raw).bucketLimit == if raw.bucketLimit > 0 then raw.bucketLimit else 50
    ensures Clamped(raw).policyWindowSec == if raw.policyWindowSec > 0 then raw.policyWindowSec else 30
    ensures Clamped(raw).sustainedWindowSec == if raw.sustainedWindowSec > 0 then raw.sustainedWindowSec else 900
    ensures var low, high := Clamped(raw).sustainedMinLimit, Clamped(raw).sustainedMaxLimit;
      && low == (if raw.sustainedMinLimit > 0 then raw.sustainedMinLimit else 1)
      && high == (if raw.sustainedMaxLimit > low then raw.sustainedMaxLimit else low)
      && Clamped(raw).sustainedLimit ==
         if raw.sustainedLimit < low then low else if raw.sustainedLimit > high then high else raw.sustainedLimit
  {
  }

  /** A fresh server: one cold-start unit, nothing booked, drawn, out or running, and the whole limit shared. */
  lemma FreshServer(raw: Config, now: Time)
    ensures var q := Boot(raw, now);
      && q.cfg == Clamped(raw) && q.bucketLimit == q.cfg.bucketLimit && q.sustainedLimit == q.cfg.sustainedLimit
      && PolicyWindow(q) == q.cfg.policyWindowSec && q.sustainedWindowSec == q.cfg.sustainedWindowSec
      && !q.calibrated && q.localRemaining == 1 && q.inFlight == 0 && q.penalties == 0
      && !q.windowActive && q.sustainedEnd.None? && !q.penaltyInWindow && !q.lockdownActive
      && (forall k :: At(q.demand, k) == 0 && At(q.classes, k) == 0) && q.shared == q.bucketLimit
  {
  }

  // ---- the sustained window ----

  /** A sustained window is running, so its budget binds. */
  predicate WindowRuns(q: Quota, now: Time) {
    q.sustainedEnd.Some? && now < q.sustainedEnd.value
  }

  /** The running sustained window has ended. */
  predicate WindowOver(q: Quota, now: Time) {
    q.sustainedEnd.Some? && q.sustainedEnd.value <= now
  }

  /** The limit after a window has ended: one more, up to the ceiling, unless it saw a penalty. */
  function LimitAfterWindow(q: Quota, penalised: bool): (limit: int) {
    if penalised then q.sustainedLimit else Min(q.cfg.sustainedMaxLimit, q.sustainedLimit + 1)
  }

  /**
   * A running window is kept. Otherwise a full new one of the learned length
   * opens, unmarked; a window that ended clean raises the limit by one up to the
   * ceiling, and a penalised one, or none at all, leaves it.
   */
  lemma RollCreditsCleanWindows(q: Quota, now: Time)
    requires Sound(q)
    ensures var s := Roll(q, now);
      if WindowRuns(q, now) then s == q
      else
        && s.sustainedUsed == 0 && !s.penaltyInWindow
        && s.sustainedEnd == Some(now + Seconds(q.sustainedWindowSec))
        && s.sustainedWindowSec == q.sustainedWindowSec
        && s.sustainedLimit ==
           if q.sustainedEnd.Some? && !q.penaltyInWindow && q.sustainedLimit < q.cfg.sustainedMaxLimit
           then q.sustainedLimit + 1 else q.sustainedLimit
  {
  }

  // ---- a check ----

  /** A penalty is running. */
  predicate Locked(q: Quota, now: Time) {
    q.lockdownActive && now < q.lockdownUntil
  }

  /** The reported remaining is still to be trusted: the view runs, and no penalty has ended on it. */
  predicate ViewRuns(q: Quota, now: Time) {
    q.windowActive && now < q.windowEnd && !q.lockdownActive
  }

  /** What upstream is believed to have left at now. */
  function Believed(q: Quota, now: Time): int {
    if ViewRuns(q, now) then q.localRemaining else q.bucketLimit
  }

  /**
   * Room for a ticket: no penalty runs and, before calibration, the cold-start
   * unit is there; after it, a running sustained window is not used up and fewer
   * tickets are out than upstream is believed to have left.
   */
  predicate MayDispatch(q: Quota, now: Time) {
    && !Locked(q, now)
    && (if q.calibrated
        then (WindowRuns(q, now) ==> q.sustainedUsed < q.sustainedLimit) && q.inFlight < Believed(q, now)
        else q.localRemaining > 0)
  }

  /** A penalty owns the sustained window, and the limit is positive. */
  predicate Coupled(q: Quota) {
    q.sustainedLimit >= 1 && (q.lockdownActive ==> q.sustainedEnd == Some(q.lockdownUntil))
  }

  /** A check answers yes exactly when there is room for a ticket. */
  lemma DispatchesExactlyWithRoom(q: Quota, now: Time)
    requires Coupled(q)
    ensures CanDispatch(q, now).1 <==> MayDispatch(q, now)
  {
    hide SplitLimit, Seconds;
    if q.calibrated && !Locked(q, now) {
      var q1 := Served(q);
      RefreshedBelief(q1, now);
      RefreshFrame(q1, now);
      var q2 := Refresh(q1, now).0;
      RollKeepsView(q2, now);
      RollRoom(q2, now);
    }
  }

  /**
   * Inside a running view and a running sustained window with room, a check says
   * yes exactly when fewer tickets are out than the remaining reported.
   */
  lemma DispatchesInsideView(q: Quota, now: Time)
    requires Coupled(q) && q.calibrated && !q.lockdownActive
    requires q.windowActive && now < q.windowEnd
    requires q.sustainedEnd.Some? && now < q.sustainedEnd.value && q.sustainedUsed < q.sustainedLimit
    ensures CanDispatch(q, now).1 <==> q.inFlight < q.localRemaining
  {
    hide CanDispatch;
    DispatchesExactlyWithRoom(q, now);
  }

  lemma RefreshedBelief(q: Quota, now: Time)
    ensures var s := Refresh(q, now).0;
      && s.localRemaining == (if q.windowActive && now < q.windowEnd then q.localRemaining else q.bucketLimit)
      && s.inFlight == q.inFlight && s.bucketLimit == q.bucketLimit && s.cfg == q.cfg
  {
    hide SplitLimit, Seconds;
  }

  lemma RollKeepsView(q: Quota, now: Time)
    ensures Roll(q, now).localRemaining == q.localRemaining && Roll(q, now).inFlight == q.inFlight
  {
    hide Seconds;
  }

  lemma RollRoom(q: Quota, now: Time)
    requires q.sustainedLimit >= 1
    ensures Roll(q, now).sustainedUsed < Roll(q, now).sustainedLimit
       <==> (WindowRuns(q, now) ==> q.sustainedUsed < q.sustainedLimit)
  {
    hide Seconds;
  }

  /**
   * What a check leaves behind. A penalty that runs, or a missing calibration,
   * leaves budgets and learned values alone; otherwise an ended view is refilled
   * and an ended window rolled, independently of each other.
   */
  lemma CheckEffects(q: Quota, now: Time)
    requires Sound(q)
    ensures var s := CanDispatch(q, now).0;
      && s.cfg == q.cfg && s.inFlight == q.inFlight && s.calibrated == q.calibrated && s.bucketLimit == q.bucketLimit
      && s.policyWindowSec == q.policyWindowSec && s.sustainedWindowSec == q.sustainedWindowSec
      && s.penalties == q.penalties && s.lockdownActive == Locked(q, now)
      && (Locked(q, now) ==> s == q)
      && (!Locked(q, now) && q.calibrated ==>
            && s.localRemaining == Believed(q, now)
            && s.windowEnd == (if ViewRuns(q, now) then q.windowEnd else now + Seconds(PolicyWindow(q)))
            && s.windowActive
            && (if WindowRuns(q, now) then SameWindow(q, s)
                else
                  && s.sustainedUsed == 0 && !s.penaltyInWindow
                  && s.sustainedEnd == Some(now + Seconds(q.sustainedWindowSec))
                  && s.sustainedLimit ==
                     if q.sustainedEnd.Some? then LimitAfterWindow(q, q.penaltyInWindow) else q.sustainedLimit))
      && (!Locked(q, now) && !q.calibrated ==> SameWindow(q, s) && s.localRemaining == q.localRemaining)
  {
    hide SplitLimit, Seconds;
    if q.calibrated && !Locked(q, now) {
      var q1 := Served(q);
      RefreshEffects(q1, now);
      var q2 := Refresh(q1, now).0;
      RollEffects(q2, now);
      RollView(q2, now);
      RollKeepsView(q2, now);
      hide Refresh, Roll;
    }
  }

  predicate SameWindow(a: Quota, b: Quota) {
    && a.sustainedUsed == b.sustainedUsed && a.penaltyInWindow == b.penaltyInWindow
    && a.sustainedEnd == b.sustainedEnd && a.sustainedLimit == b.sustainedLimit
    && a.sustainedWindowSec == b.sustainedWindowSec && a.penalties == b.penalties && a.cfg == b.cfg
  }

  predicate SameStanding(a: Quota, b: Quota) {
    a.inFlight == b.inFlight && a.calibrated == b.calibrated && a.bucketLimit == b.bucketLimit
    && a.policyWindowSec == b.policyWindowSec && a.lockdownActive == b.lockdownActive && a.cfg == b.cfg
  }

  lemma RefreshEffects(q: Quota, now: Time)
    ensures var s := Refresh(q, now).0;
            var kept := q.windowActive && now < q.windowEnd;
      && SameWindow(q, s) && SameStanding(q, s)
      && s.localRemaining == (if kept then q.localRemaining else q.bucketLimit)
      && s.windowActive && s.windowEnd == (if kept then q.windowEnd else now + Seconds(PolicyWindow(q)))
  {
    hide SplitLimit, Seconds;
  }

  lemma RollEffects(q: Quota, now: Time)
    requires q.sustainedLimit <= q.cfg.sustainedMaxLimit
    ensures var s := Roll(q, now);
      && SameStanding(q, s) && s.penalties == q.penalties && s.sustainedWindowSec == q.sustainedWindowSec
      && (if WindowRuns(q, now) then SameWindow(q, s)
          else
            && s.sustainedUsed == 0 && !s.penaltyInWindow
            && s.sustainedEnd == Some(now + Seconds(q.sustainedWindowSec))
            && s.sustainedLimit ==
               if q.sustainedEnd.Some? then LimitAfterWindow(q, q.penaltyInWindow) else q.sustainedLimit)
  {
    hide Seconds;
  }

  // ---- a penalty ----

  /**
   * A 429 adopts a positive Retry-After as the window length and keeps the
   * learned one otherwise; the penalty lasts that long, takes the place of the
   * sustained window, which it marks and uses up, and halves the limit down to
   * the floor. The burst view, the class budgets and the tickets are not touched.
   */
  lemma PenaltyAdoptsRetryAfter(q: Quota, n: int, now: Time)
    requires Sound(q)
    ensures var s := NotePenalty(q, n, now);
            var length := if n > 0 then n else q.sustainedWindowSec;
      && s.sustainedWindowSec == length
      && s.lockdownActive && s.lockdownUntil == now + Seconds(length) && s.sustainedEnd == Some(s.lockdownUntil)
      && s.penaltyInWindow && s.sustainedUsed == s.sustainedLimit
      && s.sustainedLimit ==
         (if q.sustainedLimit / 2 < q.cfg.sustainedMinLimit then q.cfg.sustainedMinLimit else q.sustainedLimit / 2)
      && s.penalties == q.penalties + 1
      && SameView(q, s) && s.inFlight == q.inFlight && s.calibrated == q.calibrated
  {
  }

  predicate SameView(a: Quota, b: Quota) {
    && a.bucketLimit == b.bucketLimit && a.localRemaining == b.localRemaining
    && a.policyWindowSec == b.policyWindowSec && a.windowActive == b.windowActive && a.windowEnd == b.windowEnd
    && a.demand == b.demand && a.classes == b.classes && a.shared == b.shared && a.cfg == b.cfg
  }

  // ---- the first report ----

  /**
   * The first report ever replaces the cold-start unit by what it reports, opens
   * a view exactly when it carries a remaining, and leaves the class budgets as
   * they were handed out at the start.
   */
  lemma FirstReportCalibrates(q: Quota, r: Report)
    requires Sound(q) && !q.calibrated
    ensures var s := Settle(q, r);
            var limit := if r.limit > 0 then r.limit else q.bucketLimit;
      && s.calibrated && s.bucketLimit == limit && s.inFlight == q.inFlight - 1
      && s.localRemaining == (if r.remaining > limit then limit else r.remaining)
      && (s.windowActive <==> r.remaining >= 0)
      && (r.remaining >= 0 ==>
            s.windowEnd == r.recvAt + Seconds(if r.window > 0 then r.window else PolicyWindow(q)))
      && s.classes == q.classes && s.shared == q.shared && s.demand == q.demand
  {
    hide SplitLimit, Seconds;
  }

  /** Every settled report frees one slot and takes over the limit and policy window it names. */
  lemma ReportNamesLimits(q: Quota, r: Report)
    ensures var s := Settle(q, r);
      && s.calibrated && s.inFlight == q.inFlight - 1
      && s.bucketLimit == (if r.limit > 0 then r.limit else q.bucketLimit)
      && PolicyWindow(s) == (if r.window > 0 then r.window else PolicyWindow(q))
      && SameWindow(q, s) && s.lockdownActive == q.lockdownActive && s.lockdownUntil == q.lockdownUntil
  {
    var q1 := Release(q, r);
    RealignView(q1, r);
    ObserveView(Realign(q1, r), r);
    RealignStanding(q1, r);
    ObserveStanding(Realign(q1, r), r);
    hide Realign, Observe;
  }

  lemma RealignStanding(q: Quota, r: Report)
    ensures var s := Realign(q, r);
      SameWindow(q, s) && s.inFlight == q.inFlight && s.calibrated == q.calibrated
      && s.lockdownActive == q.lockdownActive && s.lockdownUntil == q.lockdownUntil
  {
    hide SplitLimit;
  }

  lemma ObserveStanding(q: Quota, r: Report)
    ensures var s := Observe(q, r).0;
      SameWindow(q, s) && s.inFlight == q.inFlight && s.calibrated
      && s.lockdownActive == q.lockdownActive && s.lockdownUntil == q.lockdownUntil
  {
    hide Seconds;
  }

  /** A ticket takes one slot and one unit of the sustained budget, and leaves the view alone. */
  lemma TicketCostsOne(q: Quota)
    ensures var s := Issue(q);
      && s.inFlight == q.inFlight + 1 && s.sustainedUsed == q.sustainedUsed + 1
      && s.sustainedLimit == q.sustainedLimit && s.sustainedEnd == q.sustainedEnd && SameView(q, s)
  {
  }
}
