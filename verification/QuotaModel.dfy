/**
 * The quota state as a value, and the function each State method computes.
 * The hist component records the past of a run; no decision reads it.
 */
module QuotaModel {
  import opened Clock
  import opened Optional
  import opened ClassSplit

  datatype Config = Config(
    bucketLimit: int,
    policyWindowSec: int,
    sustainedLimit: int,
    sustainedWindowSec: int,
    sustainedMinLimit: int,
    sustainedMaxLimit: int)

  /**
   * A POST /report payload: the headers of one upstream response and the ticket
   * it settles. window is the parsed w= of the policy header, 0 when it has none.
   */
  datatype Report = Report(
    token: nat,
    appliance: string,
    nextClass: PriorityClass,
    backlog: int,
    recvAt: Time,
    remaining: int,
    limit: int,
    window: nat,
    status: int,
    retryAfter: int)

  /** A refresh of an aged view, with the number of penalties served by then. */
  datatype Refill = Refill(at: Time, served: nat)

  datatype History = History(
    clock: Time,
    sustainedGrants: nat,      // tickets issued while calibrated
    bootstrapGrants: nat,      // tickets issued before calibration
    rolls: seq<Time>,          // sustained windows opened
    windowLimit: int,          // sustained limit the current window began with
    windowGrants: nat,         // sustained tickets of the current window
    refills: seq<Refill>,
    served: nat,               // penalties that have run out
    lastPenaltyEnd: Option<Time>,
    resetLimit: nat,           // bucket limit at the last class reset
    queueGrants: nat)          // queue draws since the last class reset

  datatype Quota = Quota(
    cfg: Config,
    bucketLimit: nat,
    localRemaining: int,
    inFlight: int,
    policyWindowSec: int,
    calibrated: bool,
    windowActive: bool,
    windowEnd: Time,
    sustainedWindowSec: int,
    sustainedLimit: int,
    sustainedEnd: Option<Time>,
    sustainedUsed: int,
    penaltyInWindow: bool,
    penalties: nat,
    lockdownActive: bool,
    lockdownUntil: Time,
    demand: Tally,
    classes: Tally,
    shared: int,
    hist: History)

  function Positive(n: int, fallback: int): (p: int)
    ensures fallback > 0 ==> p > 0
  {
    if n <= 0 then fallback else n
  }

  /** The clamps New applies, in its order. */
  function Clamped(raw: Config): (cfg: Config)
    ensures 1 <= cfg.sustainedMinLimit <= cfg.sustainedLimit <= cfg.sustainedMaxLimit
    ensures cfg.bucketLimit >= 1 && cfg.policyWindowSec >= 1 && cfg.sustainedWindowSec >= 1
  {
    var low := Positive(raw.sustainedMinLimit, 1);
    var high := if raw.sustainedMaxLimit < low then low else raw.sustainedMaxLimit;
    var limit := Positive(raw.sustainedLimit, 1);
    var raised := if limit < low then low else limit;
    Config(
      Positive(raw.bucketLimit, 50),
      Positive(raw.policyWindowSec, 30),
      if raised > high then high else raised,
      Positive(raw.sustainedWindowSec, 900),
      low,
      high)
  }

  function Boot(raw: Config, now: Time): Quota {
    var cfg := Clamped(raw);
    Quota(cfg, cfg.bucketLimit, 1, 0, cfg.policyWindowSec, false, false, 0,
          cfg.sustainedWindowSec, cfg.sustainedLimit, None, 0, false, 0, false, 0,
          map[], map[], cfg.bucketLimit,
          History(now, 0, 0, [], cfg.sustainedLimit, 0, [], 0, None, cfg.bucketLimit, 0))
  }

  function PolicyWindow(q: Quota): (seconds: int) {
    if q.policyWindowSec > 0 then q.policyWindowSec else q.cfg.policyWindowSec
  }

  function Ticked(q: Quota, now: Time): Quota {
    q.(hist := q.hist.(clock := now))
  }

  // ---- class budgets ----

  function AddDemand(q: Quota, c: PriorityClass, n: int): Quota {
    var k := Normalise(c);
    q.(demand := q.demand[k := At(q.demand, k) + n])
  }

  function ResetClassBudgets(q: Quota): Quota {
    var b := SplitLimit(q.bucketLimit, q.demand);
    q.(demand := map[], classes := b.classes, shared := b.shared,
       hist := q.hist.(resetLimit := q.bucketLimit, queueGrants := 0))
  }

  predicate HasClassQuota(q: Quota, c: PriorityClass) {
    At(q.classes, c) > 0
  }

  predicate HasSharedQuota(q: Quota) {
    q.shared > 0
  }

  /** One unit for a queued item: its class first, then the shared pool. */
  function Draw(q: Quota, c: PriorityClass): Quota {
    var h := q.hist.(queueGrants := q.hist.queueGrants + 1);
    if HasClassQuota(q, c)
    then q.(classes := q.classes[c := At(q.classes, c) - 1], hist := h)
    else q.(shared := q.shared - 1, hist := h)
  }

  // ---- burst view ----

  /** The reported view has aged out by the time the response was received. */
  predicate Stale(q: Quota, at: Time) {
    q.windowActive && at >= q.windowEnd
  }

  /** Limit and policy window taken over, and the class split redone for a stale view. */
  function Realign(q: Quota, r: Report): Quota {
    var q1 := q.(bucketLimit := if r.limit > 0 then r.limit else q.bucketLimit,
                 policyWindowSec := if r.window > 0 then r.window else q.policyWindowSec);
    if !q.calibrated || Stale(q, r.recvAt) then ResetClassBudgets(q1) else q1
  }

  /** The reported remaining taken over; the view is re-anchored only when a fresh one opens. */
  function Observe(q: Quota, r: Report): (stateAndReopened: (Quota, bool)) {
    if r.remaining >= 0 then
      var remaining := Min(r.remaining, q.bucketLimit);
      var reopened := !q.windowActive || Stale(q, r.recvAt) || remaining > q.localRemaining;
      var q1 := q.(localRemaining := remaining, calibrated := true);
      (if reopened
       then q1.(windowActive := true, windowEnd := r.recvAt + Seconds(PolicyWindow(q)))
       else q1,
       reopened)
    else
      (q.(calibrated := true), false)
  }

  function NoteHeaders(q: Quota, r: Report): (stateAndReopened: (Quota, bool)) {
    Observe(Realign(q, r), r)
  }

  function Refresh(q: Quota, now: Time): (stateAndRefilled: (Quota, bool)) {
    if q.windowActive && now < q.windowEnd then (q, false)
    else
      var q1 := q.(localRemaining := q.bucketLimit,
                   windowActive := true,
                   windowEnd := now + Seconds(PolicyWindow(q)),
                   hist := q.hist.(refills := q.hist.refills + [Refill(now, q.hist.served)]));
      (ResetClassBudgets(q1), true)
  }

  // ---- sustained window ----

  function Credit(q: Quota): Quota {
    if q.sustainedLimit < q.cfg.sustainedMaxLimit then q.(sustainedLimit := q.sustainedLimit + 1) else q
  }

  function Roll(q: Quota, now: Time): Quota {
    if q.sustainedEnd.Some? && now < q.sustainedEnd.value then q
    else
      var clean := q.sustainedEnd.Some? && !q.penaltyInWindow;
      var q1 := if clean then Credit(q) else q;
      q1.(penaltyInWindow := false,
          sustainedUsed := 0,
          sustainedEnd := Some(now + Seconds(q.sustainedWindowSec)),
          hist := q.hist.(rolls := q.hist.rolls + [now],
                          windowLimit := q1.sustainedLimit,
                          windowGrants := 0))
  }

  /** A penalty that has run out: its flag is lowered and the view it left is dropped. */
  function Served(q: Quota): Quota {
    if q.lockdownActive
    then q.(lockdownActive := false, windowActive := false,
            hist := q.hist.(served := q.hist.served + 1))
    else q
  }

  function CanDispatch(q: Quota, now: Time): (stateAndAnswer: (Quota, bool)) {
    if q.lockdownActive && now < q.lockdownUntil then (q, false)
    else
      var q1 := Served(q);
      if !q1.calibrated then (q1, q1.localRemaining > 0)
      else
        var q2 := Roll(Refresh(q1, now).0, now);
        (q2, q2.sustainedUsed < q2.sustainedLimit && q2.localRemaining - q2.inFlight > 0)
  }

  /** A cut never goes below the floor, and never raises a limit that respects it. */
  function Halved(limit: int, low: int): (cut: int)
    ensures low <= limit && 0 <= limit ==> low <= cut <= limit
  {
    if limit > low then (if limit / 2 < low then low else limit / 2) else limit
  }

  function NotePenalty(q: Quota, retryAfter: int, now: Time): Quota {
    var sec := if retryAfter > 0 then retryAfter else q.sustainedWindowSec;
    var limit := Halved(q.sustainedLimit, q.cfg.sustainedMinLimit);
    var until := now + Seconds(sec);
    q.(sustainedWindowSec := sec,
       sustainedLimit := limit,
       sustainedEnd := Some(until),
       sustainedUsed := limit,
       penaltyInWindow := true,
       penalties := q.penalties + 1,
       lockdownActive := true,
       lockdownUntil := until,
       hist := q.hist.(lastPenaltyEnd := Some(until)))
  }

  // ---- ticket accounting ----

  /** One unit of the sustained budget. */
  function Spend(q: Quota): Quota {
    q.(sustainedUsed := q.sustainedUsed + 1,
       hist := if q.calibrated
               then q.hist.(sustainedGrants := q.hist.sustainedGrants + 1, windowGrants := q.hist.windowGrants + 1)
               else q.hist.(bootstrapGrants := q.hist.bootstrapGrants + 1))
  }

  /** One ticket issued: a slot in flight and a unit of the sustained budget. */
  function Issue(q: Quota): Quota {
    Spend(q.(inFlight := q.inFlight + 1))
  }

  /** A matched report frees its slot; the first one ever calibrates. */
  function Release(q: Quota, r: Report): Quota {
    var q1 := q.(inFlight := q.inFlight - 1,
                 bucketLimit := if r.limit > 0 then r.limit else q.bucketLimit);
    if q1.calibrated then q1 else q1.(localRemaining := r.remaining, calibrated := true)
  }

  /** A matched report, up to its headers. */
  function Settle(q: Quota, r: Report): Quota {
    NoteHeaders(Release(q, r), r).0
  }
}
