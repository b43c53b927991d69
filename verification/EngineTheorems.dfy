/** The guarantees of the server, for every configuration and every run. */
module EngineTheorems {
  import opened Clock
  import opened Optional
  import opened ClassSplit
  import opened AgingQueue
  import opened QuotaModel
  import opened QuotaInvariant
  import opened QuotaLaws
  import opened EngineModel
  import opened EngineInvariant
  import opened EngineTrace
  import Rate = RateBound
  import Pen = Penalty
  import Ref = Refill
  import Win = WindowSpacing

  // ---- runs ----

  lemma {:induction false} ExecConcat(c: Cas, a: seq<Event>, b: seq<Event>)
    ensures Exec(c, a + b) == Exec(Exec(c, a), b)
    ensures Timed(c.q.hist.clock, a + b) <==> Timed(c.q.hist.clock, a) && Timed(Exec(c, a).q.hist.clock, b)
    decreases a
  {
    if a == [] {
      assert a + b == b;
    } else {
      assert (a + b)[1..] == a[1..] + b;
      assert Next(c, a[0]).q.hist.clock == a[0].now;
      hide Next;
      ExecConcat(Next(c, a[0]), a[1..], b);
    }
  }

  lemma ExecOne(c: Cas, e: Event)
    ensures Exec(c, [e]) == Next(c, e)
  {
    hide Next;
    assert [e][1..] == [];
  }

  function ReportOf(e: Event): Option<Report> {
    match e.act
    case Settlement(r) => Some(r)
    case Combined(r) => Some(r)
    case _ => None
  }

  // ---- the sustained rate ----

  /** A penalty this event reports lasts at least w. */
  predicate LongPenaltyEvent(e: Event, w: Time) {
    ReportOf(e).Some? && ReportOf(e).value.status == 429 && ReportOf(e).value.retryAfter > 0 ==>
      Seconds(ReportOf(e).value.retryAfter) >= w
  }

  lemma {:induction false} WindowsStayLong(q: Quota, ops: seq<QuotaOp>, w: Time)
    requires Seconds(q.sustainedWindowSec) >= w
    requires forall i :: 0 <= i < |ops| ==> Rate.LongPenalty(ops[i], w)
    ensures Seconds(ApplyAll(q, ops).sustainedWindowSec) >= w
    decreases ops
  {
    if ops != [] {
      WindowStep(q, ops[0], w);
      hide Apply;
      WindowsStayLong(Apply(q, ops[0]), ops[1..], w);
    }
  }

  lemma WindowStep(q: Quota, op: QuotaOp, w: Time)
    requires Seconds(q.sustainedWindowSec) >= w && Rate.LongPenalty(op, w)
    ensures Seconds(Apply(q, op).sustainedWindowSec) >= w
  {
    hide Settle, CanDispatch;
    match op
    case Fold(r, now) => Rate.SettleFrame(Ticked(q, now), r);
    case Check(now) => CheckKeepsWindow(Ticked(q, now), now);
    case _ =>
  }

  lemma CheckKeepsWindow(q: Quota, now: Time)
    ensures CanDispatch(q, now).0.sustainedWindowSec == q.sustainedWindowSec
  {
    hide Refresh;
    Rate.RefreshFrame(Served(q), now);
  }

  lemma {:induction false} LongPenaltyOps(c: Cas, evs: seq<Event>, w: Time)
    requires Inv(c) && Timed(c.q.hist.clock, evs)
    requires forall k :: 0 <= k < |evs| ==> LongPenaltyEvent(evs[k], w)
    ensures forall i :: 0 <= i < |RunOps(c, evs)| ==> Rate.LongPenalty(RunOps(c, evs)[i], w)
  {
    hide RunOps, Inv, Exec, Timed, ApplyAll, LegalAll;
    RunQuota(c, evs);
    forall i | 0 <= i < |RunOps(c, evs)| ensures Rate.LongPenalty(RunOps(c, evs)[i], w) {
      var k :| 0 <= k < |evs| && From(RunOps(c, evs)[i], evs[k]);
      assert LongPenaltyEvent(evs[k], w);
    }
  }

  lemma {:induction false} OpsWithin(c: Cas, evs: seq<Event>, from: Time, until: Time)
    requires Inv(c) && Timed(c.q.hist.clock, evs)
    requires forall k :: 0 <= k < |evs| ==> from <= evs[k].now <= until
    ensures forall i :: 0 <= i < |RunOps(c, evs)| ==> Rate.Within(RunOps(c, evs)[i], from, until)
  {
    hide RunOps, Inv, Exec, Timed, ApplyAll, LegalAll;
    RunQuota(c, evs);
    forall i | 0 <= i < |RunOps(c, evs)| ensures Rate.Within(RunOps(c, evs)[i], from, until) {
      var k :| 0 <= k < |evs| && From(RunOps(c, evs)[i], evs[k]);
    }
  }

  lemma {:induction false} ConfigIsFixed(c: Cas, evs: seq<Event>)
    requires Inv(c) && Timed(c.q.hist.clock, evs)
    ensures Exec(c, evs).q.cfg == c.q.cfg
  {
    RunQuota(c, evs);
    OpsKeepConfig(c.q, RunOps(c, evs));
  }

  lemma {:induction false} OpsKeepConfig(q: Quota, ops: seq<QuotaOp>)
    ensures ApplyAll(q, ops).cfg == q.cfg
    decreases ops
  {
    if ops != [] {
      OpKeepsConfig(q, ops[0]);
      hide Apply;
      OpsKeepConfig(Apply(q, ops[0]), ops[1..]);
    }
  }

  lemma OpKeepsConfig(q: Quota, op: QuotaOp)
    ensures Apply(q, op).cfg == q.cfg
  {
    hide Settle;
    match op
    case Fold(r, now) => Rate.SettleFrame(Ticked(q, now), r);
    case Check(now) => CheckKeepsConfig(Ticked(q, now), now);
    case _ =>
  }

  lemma CheckKeepsConfig(q: Quota, now: Time)
    ensures CanDispatch(q, now).0.cfg == q.cfg
  {
    hide Refresh;
    Rate.RefreshFrame(Served(q), now);
  }

  /** Tickets issued under the sustained budget: all but the bootstrap ones. */
  function SustainedTickets(c: Cas): int {
    |c.ledger.issued| - c.q.hist.bootstrapGrants
  }

  /**
   * Rate bound. In any run, over any span of length t, all three grant paths
   * together issue at most (t / w + 2) times the configured maximum of the
   * sustained limit, when no sustained window in use is shorter than w. This
   * holds across penalties, reaping, calibration and every interleaving.
   */
  lemma {:induction false} RateBoundOverRuns(raw: Config, omega: real, maxQueue: int, boot: Time,
      before: seq<Event>, span: seq<Event>, from: Time, t: nat, w: Time)
    requires w > 0 && Seconds(Clamped(raw).sustainedWindowSec) >= w
    requires Timed(boot, before + span)
    requires forall k :: 0 <= k < |before + span| ==> LongPenaltyEvent((before + span)[k], w)
    requires forall k :: 0 <= k < |span| ==> from <= span[k].now <= from + t
    ensures var c := Exec(Start(raw, omega, maxQueue, boot), before);
      SustainedTickets(Exec(c, span)) - SustainedTickets(c) <= (t / w + 2) * Clamped(raw).sustainedMaxLimit
  {
    var s := Start(raw, omega, maxQueue, boot);
    assert s.q.sustainedWindowSec == Clamped(raw).sustainedWindowSec && s.q.cfg == Clamped(raw);
    StartHolds(raw, omega, maxQueue, boot);
    StartClock(raw, omega, maxQueue, boot);
    hide Start, Clamped, Inv, LongPenaltyEvent, Exec, Timed;
    var c := Exec(s, before);
    ExecConcat(s, before, span);
    forall k | 0 <= k < |before| ensures LongPenaltyEvent(before[k], w) {
      assert (before + span)[k] == before[k];
    }
    forall k | 0 <= k < |span| ensures LongPenaltyEvent(span[k], w) {
      assert (before + span)[|before| + k] == span[k];
    }
    RunHolds(s, before);
    WindowsLongOverRun(s, before, w);
    ConfigIsFixed(s, before);
    RateBoundFrom(c, span, from, t, w);
  }

  lemma {:induction false} WindowsLongOverRun(c: Cas, evs: seq<Event>, w: Time)
    requires Inv(c) && Timed(c.q.hist.clock, evs) && Seconds(c.q.sustainedWindowSec) >= w
    requires forall k :: 0 <= k < |evs| ==> LongPenaltyEvent(evs[k], w)
    ensures Seconds(Exec(c, evs).q.sustainedWindowSec) >= w
  {
    hide RunOps, Inv, LongPenaltyEvent, Exec, Timed, ApplyAll, LegalAll;
    RunQuota(c, evs);
    LongPenaltyOps(c, evs, w);
    WindowsStayLong(c.q, RunOps(c, evs), w);
  }

  lemma TicketsAreGrants(c: Cas)
    requires Inv(c)
    ensures Sound(c.q) && SustainedTickets(c) == c.q.hist.sustainedGrants
  {
  }

  /** The rate bound for a span that starts in any proper state. */
  lemma {:induction false} RateBoundFrom(c: Cas, span: seq<Event>, from: Time, t: nat, w: Time)
    requires w > 0 && Inv(c) && Seconds(c.q.sustainedWindowSec) >= w && Timed(c.q.hist.clock, span)
    requires forall k :: 0 <= k < |span| ==> LongPenaltyEvent(span[k], w) && from <= span[k].now <= from + t
    ensures SustainedTickets(Exec(c, span)) - SustainedTickets(c) <= (t / w + 2) * c.q.cfg.sustainedMaxLimit
  {
    hide RunOps, Inv, Sound, LongPenaltyEvent, SustainedTickets, Exec, Timed, ApplyAll, LegalAll;
    RunHolds(c, span);
    TicketsAreGrants(c);
    TicketsAreGrants(Exec(c, span));
    RunQuota(c, span);
    LongPenaltyOps(c, span, w);
    OpsWithin(c, span, from, from + t);
    Rate.RateBoundOps(c.q, RunOps(c, span), from, t, w);
  }

  lemma StartClock(raw: Config, omega: real, maxQueue: int, boot: Time)
    ensures Start(raw, omega, maxQueue, boot).q.hist.clock == boot
  {
  }

  /** Within one sustained window at most the limit it began with is issued. */
  lemma {:induction false} WindowNeverExceeded(raw: Config, omega: real, maxQueue: int, boot: Time, evs: seq<Event>)
    requires Timed(boot, evs)
    ensures var q := Exec(Start(raw, omega, maxQueue, boot), evs).q;
      && q.hist.windowGrants <= q.hist.windowLimit <= Clamped(raw).sustainedMaxLimit
      && 1 <= Clamped(raw).sustainedMinLimit <= q.sustainedLimit <= Clamped(raw).sustainedMaxLimit
  {
    var s := Start(raw, omega, maxQueue, boot);
    assert s.q.cfg == Clamped(raw);
    hide Start;
    StartHolds(raw, omega, maxQueue, boot);
    StartClock(raw, omega, maxQueue, boot);
    RunHolds(s, evs);
    ConfigIsFixed(s, evs);
  }

  /** In any run, penalties included, two sustained windows never open less than w apart. */
  lemma {:induction false} WindowsSpacedOverRuns(raw: Config, omega: real, maxQueue: int, boot: Time,
      evs: seq<Event>, w: Time)
    requires w > 0 && Seconds(Clamped(raw).sustainedWindowSec) >= w
    requires Timed(boot, evs)
    requires forall k :: 0 <= k < |evs| ==> LongPenaltyEvent(evs[k], w)
    ensures Win.RollsSpaced(Exec(Start(raw, omega, maxQueue, boot), evs).q, w)
  {
    var s := Start(raw, omega, maxQueue, boot);
    assert Win.RollInvariant(s.q, w);
    StartHolds(raw, omega, maxQueue, boot);
    StartClock(raw, omega, maxQueue, boot);
    hide Start, RunOps, Inv, LongPenaltyEvent, Exec, Timed, ApplyAll, LegalAll;
    RunQuota(s, evs);
    LongPenaltyOps(s, evs, w);
    Win.WindowsStaySpaced(s.q, RunOps(s, evs), w);
  }

  // ---- refills ----

  /** The event's report is processed at most lag after it was received and names a window of at least p. */
  predicate PromptEvent(e: Event, p: Time, lag: Time) {
    ReportOf(e).Some? ==>
      && ReportOf(e).value.recvAt >= e.now - lag
      && (ReportOf(e).value.window > 0 ==> Seconds(ReportOf(e).value.window) >= p)
  }

  lemma {:induction false} PromptOps(c: Cas, evs: seq<Event>, p: Time, lag: Time)
    requires Inv(c) && Timed(c.q.hist.clock, evs)
    requires forall k :: 0 <= k < |evs| ==> PromptEvent(evs[k], p, lag)
    ensures forall i :: 0 <= i < |RunOps(c, evs)| ==> Ref.Prompt(RunOps(c, evs)[i], p, lag)
  {
    hide RunOps, Inv, Exec, Timed, ApplyAll, LegalAll;
    RunQuota(c, evs);
    forall i | 0 <= i < |RunOps(c, evs)| ensures Ref.Prompt(RunOps(c, evs)[i], p, lag) {
      var k :| 0 <= k < |evs| && From(RunOps(c, evs)[i], evs[k]);
      assert PromptEvent(evs[k], p, lag);
    }
  }

  lemma {:induction false} RefillsSpacedFrom(c: Cas, evs: seq<Event>, p: Time, lag: Time)
    requires lag >= 0 && Inv(c) && Timed(c.q.hist.clock, evs) && Ref.RefillInvariant(c.q, p, lag)
    requires forall k :: 0 <= k < |evs| ==> PromptEvent(evs[k], p, lag)
    ensures Ref.RefillInvariant(Exec(c, evs).q, p, lag)
  {
    TicketsAreGrants(c);
    hide Sound, Inv, RunOps, Exec, Timed, ApplyAll, LegalAll, PromptEvent;
    RunQuota(c, evs);
    PromptOps(c, evs, p, lag);
    Ref.RefillsStaySpaced(c.q, RunOps(c, evs), p, lag);
  }

  /** Refill spacing: without a served penalty between them, refills are at least p - lag apart. */
  lemma {:induction false} RefillsSpacedOverRuns(raw: Config, omega: real, maxQueue: int, boot: Time,
      evs: seq<Event>, p: Time, lag: Time)
    requires lag >= 0 && Seconds(Clamped(raw).policyWindowSec) >= p
    requires Timed(boot, evs)
    requires forall k :: 0 <= k < |evs| ==> PromptEvent(evs[k], p, lag)
    ensures Ref.RefillsSpaced(Exec(Start(raw, omega, maxQueue, boot), evs).q, p, lag)
  {
    hide Exec, Timed, PromptEvent, Inv;
    assert Ref.RefillInvariant(Start(raw, omega, maxQueue, boot).q, p, lag);
    StartHolds(raw, omega, maxQueue, boot);
    StartClock(raw, omega, maxQueue, boot);
    RefillsSpacedFrom(Start(raw, omega, maxQueue, boot), evs, p, lag);
  }

  /** The event's report, if any, carries a remaining. */
  predicate CountedEvent(e: Event) {
    ReportOf(e).Some? ==> ReportOf(e).value.remaining >= 0
  }

  /** While every report carries a remaining, what is believed to remain never exceeds the limit. */
  lemma {:induction false} WithinLimitOverRuns(raw: Config, omega: real, maxQueue: int, boot: Time, evs: seq<Event>)
    requires Timed(boot, evs) && forall k :: 0 <= k < |evs| ==> CountedEvent(evs[k])
    ensures Ref.WithinLimit(Exec(Start(raw, omega, maxQueue, boot), evs).q)
  {
    var s := Start(raw, omega, maxQueue, boot);
    assert Ref.WithinLimit(s.q);
    StartHolds(raw, omega, maxQueue, boot);
    StartClock(raw, omega, maxQueue, boot);
    TicketsAreGrants(s);
    hide Start, Sound, Inv, RunOps, Exec, Timed, ApplyAll, LegalAll, CountedEvent;
    RunQuota(s, evs);
    CountedOps(s, evs);
    Ref.WithinLimitStays(s.q, RunOps(s, evs));
  }

  lemma {:induction false} CountedOps(c: Cas, evs: seq<Event>)
    requires Inv(c) && Timed(c.q.hist.clock, evs) && forall k :: 0 <= k < |evs| ==> CountedEvent(evs[k])
    ensures forall i :: 0 <= i < |RunOps(c, evs)| ==> Ref.Counted(RunOps(c, evs)[i])
  {
    hide RunOps, Inv, Exec, Timed, ApplyAll, LegalAll;
    RunQuota(c, evs);
    forall i | 0 <= i < |RunOps(c, evs)| ensures Ref.Counted(RunOps(c, evs)[i]) {
      var k :| 0 <= k < |evs| && From(RunOps(c, evs)[i], evs[k]);
      assert CountedEvent(evs[k]);
    }
  }

  // ---- what a grant means ----

  /** The state right after a ticket is issued. */
  predicate Justified(q: Quota, now: Time) {
    && !q.lockdownActive
    && (q.calibrated ==>
          && FreshView(q, now)
          && q.sustainedUsed <= q.sustainedLimit
          && 0 <= q.inFlight <= q.localRemaining)
  }

  /** Some appliance holds the ticket just issued, stamped with the headroom left. */
  predicate FreshTicket(d: Cas, token: Token, now: Time) {
    exists a :: a in d.tickets && d.tickets[a] == Ticket(token, now, d.q.localRemaining - d.q.inFlight)
  }

  lemma IssueJustified(c: Cas, a: ApplianceId, now: Time)
    requires Ready(c.q, now) && c.q.inFlight >= 0
    ensures var d := Issued(c, a, now);
      && Justified(d.q, now)
      && |d.ledger.issued| == |c.ledger.issued| + 1
      && FreshTicket(d, c.nextToken, now)
  {
    var d := Issued(c, a, now);
    assert a in d.tickets && d.tickets[a] == Ticket(c.nextToken, now, d.q.localRemaining - d.q.inFlight);
  }

  lemma AdmitJustified(c: Cas, a: ApplianceId, k: PriorityClass, backlog: int, now: Time)
    requires Sound(c.q) && c.q.inFlight >= 0 && c.q.hist.clock == now
    ensures var (d, out) := Admit(c, a, k, backlog, now);
      && (out.Granted? <==> |d.ledger.issued| > |c.ledger.issued|)
      && (out.Granted? ==> Justified(d.q, now) && FreshTicket(d, c.nextToken, now))
  {
    hide Sound, CanDispatch, Justified, Issue;
    var (q, ok) := CanDispatch(c.q, now);
    CheckKeepsSound(c.q, now);
    CheckCounts(c.q, now);
    if ok {
      var c1 := c.(q := q);
      IssueJustified(c1, a, now);
    }
  }

  lemma DispatchJustified(c: Cas, now: Time)
    requires Inv(c) && c.q.hist.clock <= now
    ensures var (d, out) := Dispatch(c, now);
      && (out.Granted? <==> |d.ledger.issued| > |c.ledger.issued|)
      && (out.Granted? ==> Justified(d.q, now) && FreshTicket(d, c.nextToken, now))
  {
    hide CanDispatch, Draw, Pop, Dispatch, Justified, Issue;
    var q0 := Ticked(c.q, now);
    OpKeepsSound(c.q, Tick(now));
    CheckKeepsSound(q0, now);
    CheckCounts(q0, now);
    DispatchGrants(c, now);
    var (q, ok) := CanDispatch(q0, now);
    if ok && c.waiting != [] {
      var (item, rest) := Pop(c.omega, c.waiting, now);
      DrawStaysReady(q, item.class_, now);
      DrawCounts(q, item.class_);
      IssueJustified(c.(q := Draw(q, item.class_), waiting := rest), item.appliance, now);
    }
  }

  lemma DrawCounts(q: Quota, k: PriorityClass)
    ensures Draw(q, k).inFlight == q.inFlight
  {
  }

  lemma AcquireJustified(c: Cas, req: AcquireRequest, now: Time)
    requires Inv(c) && c.q.hist.clock <= now
    ensures var (d, out) := TryAcquire(c, req, now);
      && (out.Granted? <==> |d.ledger.issued| > |c.ledger.issued|)
      && (out.Granted? ==> Justified(d.q, now) && FreshTicket(d, c.nextToken, now))
  {
    hide Admit, TryAcquire, Justified;
    if req.appliance in c.tickets || HasAppliance(c.waiting, req.appliance) {
      AcquireRefused(c, req, now);
    } else {
      BookHolds(c, req.class_, 1 + req.backlog, now);
      AcquireAdmits(c, req, now);
      AdmitJustified(c.(q := AddDemand(Ticked(c.q, now), req.class_, 1 + req.backlog)),
                     req.appliance, req.class_, req.backlog, now);
    }
  }

  lemma CombinedJustified(c: Cas, r: Report, now: Time)
    requires Inv(c) && c.q.hist.clock <= now
    ensures var (d, out) := TryReportAndAcquire(c, r, now);
      && (out.Granted? <==> |d.ledger.issued| > |c.ledger.issued|)
      && (out.Granted? ==> Justified(d.q, now) && FreshTicket(d, c.nextToken, now))
  {
    if Matched(c, r) && r.status != 429 {
      var d := Accept(c, r, now);
      assert d.ledger.issued == c.ledger.issued;
      AcceptHolds(c, r, now);
      DemandHolds(d, NextClass(r), 1 + r.backlog);
      assert AddDemand(d.q, NextClass(r), 1 + r.backlog).hist.clock == now;
      hide Admit, TryReportAndAcquire, Justified, Accept, AddDemand;
      CombinedAdmits(c, r, now);
      AdmitJustified(d.(q := AddDemand(d.q, NextClass(r), 1 + r.backlog)), r.appliance, NextClass(r), r.backlog, now);
    } else {
      CombinedRefuses(c, r, now);
      hide TryReportAndAcquire;
    }
  }

  /**
   * Every grant is justified at its instant: no penalty runs, and once
   * calibrated the view is fresh and both budgets cover the ticket. It issues
   * one ticket, with a token never used before.
   */
  lemma EveryGrantIsJustified(c: Cas, e: Event)
    requires Inv(c) && c.q.hist.clock <= e.now
    requires |Next(c, e).ledger.issued| > |c.ledger.issued|
    ensures Justified(Next(c, e).q, e.now)
    ensures FreshTicket(Next(c, e), c.nextToken, e.now)
    ensures Next(c, e).ledger.issued == c.ledger.issued + [e.now]
  {
    IssuesAreRecorded(c, e);
    hide Inv, TryAcquire, TryReportAndAcquire, Dispatch;
    match e.act
    case Acquire(req) => AcquireJustified(c, req, e.now);
    case Combined(r) => CombinedJustified(c, r, e.now);
    case DispatchOne => DispatchJustified(c, e.now);
    case _ =>
  }

  lemma IssuesAreRecorded(c: Cas, e: Event)
    ensures Next(c, e).ledger.issued == c.ledger.issued || Next(c, e).ledger.issued == c.ledger.issued + [e.now]
  {
    hide CanDispatch, Issue, Draw, AddDemand, Settle, NotePenalty, HasAppliance, Pop;
  }

  lemma {:induction false} IssuedGrowsOverRuns(c: Cas, evs: seq<Event>)
    ensures c.ledger.issued <= Exec(c, evs).ledger.issued
    decreases evs
  {
    hide Next;
    if evs != [] {
      IssuesAreRecorded(c, evs[0]);
      IssuedGrowsOverRuns(Next(c, evs[0]), evs[1..]);
    }
  }

  // ---- cold start ----

  /** Before the first report every request of a fresh appliance is granted at once. */
  lemma ColdStartGrantsEveryRequest(c: Cas, req: AcquireRequest, now: Time)
    requires Inv(c) && !c.q.calibrated
    ensures TryAcquire(c, req, now).1.Granted?
       <==> req.appliance !in c.tickets && !HasAppliance(c.waiting, req.appliance)
  {
    hide Inv, Admit, HasAppliance;
    assert c.q.localRemaining == 1 && !c.q.lockdownActive by { ColdState(c); }
    if req.appliance in c.tickets || HasAppliance(c.waiting, req.appliance) {
      AcquireRefused(c, req, now);
    } else {
      AcquireAdmits(c, req, now);
      ColdAdmit(c.(q := AddDemand(Ticked(c.q, now), req.class_, 1 + req.backlog)),
                req.appliance, req.class_, req.backlog, now);
    }
  }

  lemma ColdState(c: Cas)
    requires Inv(c) && !c.q.calibrated
    ensures c.q.localRemaining == 1 && !c.q.lockdownActive
  {
  }

  lemma ColdAdmit(c: Cas, a: ApplianceId, k: PriorityClass, backlog: int, now: Time)
    requires !c.q.calibrated && c.q.localRemaining > 0 && !c.q.lockdownActive
    ensures Admit(c, a, k, backlog, now).1 == Granted(c.nextToken)
    ensures !Admit(c, a, k, backlog, now).0.q.calibrated
    ensures Admit(c, a, k, backlog, now).0.tickets.Keys == c.tickets.Keys + {a}
    ensures Admit(c, a, k, backlog, now).0.waiting == c.waiting
  {
    hide Refresh, Roll;
  }

  // ---- penalties ----

  /** The end of the penalty an event announces, if it is an accepted 429. */
  function AnnouncedPenalty(c: Cas, e: Event): Option<Time> {
    if ReportOf(e).Some? && Matched(c, ReportOf(e).value) && ReportOf(e).value.status == 429
    then Some(Pen.PenaltyEnd(c.q, ReportOf(e).value, e.now))
    else None
  }

  /** The end of the latest penalty announced in a run, given the one before it. */
  function LatestPenalty(c: Cas, evs: seq<Event>, previous: Option<Time>): Option<Time>
    decreases evs
  {
    if evs == [] then previous
    else
      var p := AnnouncedPenalty(c, evs[0]);
      LatestPenalty(Next(c, evs[0]), evs[1..], if p.Some? then p else previous)
  }

  lemma {:induction false} NoPenaltyInOps(q: Quota, ops: seq<QuotaOp>)
    requires forall i :: 0 <= i < |ops| ==> !ops[i].Penalise?
    ensures ApplyAll(q, ops).hist.lastPenaltyEnd == q.hist.lastPenaltyEnd
    decreases ops
  {
    if ops != [] {
      Pen.LastPenaltyIsLatest(q, ops[0]);
      hide Apply;
      NoPenaltyInOps(Apply(q, ops[0]), ops[1..]);
    }
  }

  lemma OnlyPenaltiesPenalise(c: Cas, e: Event)
    requires AnnouncedPenalty(c, e).None?
    ensures forall i :: 0 <= i < |EventOps(c, e)| ==> !EventOps(c, e)[i].Penalise?
  {
    hide HasAppliance, CanDispatch, AddDemand, Accept, Pop, HasClassQuota, HasSharedQuota;
  }

  lemma PenaltyEventOps(c: Cas, e: Event)
    requires AnnouncedPenalty(c, e).Some?
    ensures EventOps(c, e) == [Fold(ReportOf(e).value, e.now), Penalise(ReportOf(e).value, e.now), Tick(e.now)]
  {
  }

  lemma EventPenalty(c: Cas, e: Event)
    requires Inv(c) && c.q.hist.clock <= e.now
    ensures Next(c, e).q.hist.lastPenaltyEnd ==
            if AnnouncedPenalty(c, e).Some? then AnnouncedPenalty(c, e) else c.q.hist.lastPenaltyEnd
  {
    hide Inv, Next, EventOps, Apply;
    EventQuota(c, e);
    if AnnouncedPenalty(c, e).None? {
      OnlyPenaltiesPenalise(c, e);
      NoPenaltyInOps(c.q, EventOps(c, e));
    } else {
      var r := ReportOf(e).value;
      PenaltyEventOps(c, e);
      var q1 := Apply(c.q, Fold(r, e.now));
      ApplyThree(c.q, Fold(r, e.now), Penalise(r, e.now), Tick(e.now));
      Pen.LastPenaltyIsLatest(q1, Penalise(r, e.now));
      Pen.LastPenaltyIsLatest(Apply(q1, Penalise(r, e.now)), Tick(e.now));
      assert q1.sustainedWindowSec == c.q.sustainedWindowSec by { FoldKeepsWindow(c.q, r, e.now); }
    }
  }

  lemma FoldKeepsWindow(q: Quota, r: Report, now: Time)
    ensures Apply(q, Fold(r, now)).sustainedWindowSec == q.sustainedWindowSec
  {
    hide Settle;
    Rate.SettleFrame(Ticked(q, now), r);
  }

  lemma {:induction false} RunPenalty(c: Cas, evs: seq<Event>)
    requires Inv(c) && Timed(c.q.hist.clock, evs)
    ensures Exec(c, evs).q.hist.lastPenaltyEnd == LatestPenalty(c, evs, c.q.hist.lastPenaltyEnd)
    decreases evs
  {
    hide Inv, Next, AnnouncedPenalty;
    if evs != [] {
      EventPenalty(c, evs[0]);
      NextHolds(c, evs[0]);
      RunPenalty(Next(c, evs[0]), evs[1..]);
    }
  }

  /**
   * Penalty safety: in any run, when an event issues a ticket, the latest
   * penalty announced so far has ended by that event's clock.
   */
  lemma {:induction false} NoGrantDuringPenalty(raw: Config, omega: real, maxQueue: int, boot: Time,
      evs: seq<Event>, e: Event)
    requires Timed(boot, evs + [e])
    requires var c := Exec(Start(raw, omega, maxQueue, boot), evs); |Next(c, e).ledger.issued| > |c.ledger.issued|
    ensures var latest := LatestPenalty(Start(raw, omega, maxQueue, boot), evs + [e], None);
      latest.Some? ==> latest.value <= e.now
  {
    var s := Start(raw, omega, maxQueue, boot);
    assert s.q.hist.lastPenaltyEnd == None;
    var c := Exec(s, evs);
    StartHolds(raw, omega, maxQueue, boot);
    StartClock(raw, omega, maxQueue, boot);
    hide Start, Next, LatestPenalty;
    ExecConcat(s, evs, [e]);
    ExecOne(c, e);
    RunHolds(s, evs);
    assert Timed(c.q.hist.clock, [e]);
    NextHolds(c, e);
    EveryGrantIsJustified(c, e);
    RunPenalty(s, evs + [e]);
  }

  // ---- the answers of an acquire ----

  /**
   * What each answer means for the appliance: granted, it holds the ticket and
   * does not wait; queued, it waits last in line and no dispatch was possible;
   * 503, no dispatch was possible and the queue was full; 409, it held a ticket
   * or waited, and nothing changed.
   */
  predicate AnswerKept(c: Cas, req: AcquireRequest, now: Time, d: Cas, out: Outcome) {
    var blocked := !MayDispatch(c.q, now);
    var a := req.appliance;
    match out
    case Granted(token) =>
      && !blocked && a in d.tickets && d.tickets[a].token == token == c.nextToken
      && d.tickets.Keys == c.tickets.Keys + {a} && d.waiting == c.waiting && !HasAppliance(d.waiting, a)
    case Queued(ch) =>
      && blocked && |c.waiting| < c.maxQueue && d.tickets == c.tickets && a !in d.tickets
      && |d.waiting| == |c.waiting| + 1 && d.waiting[..|c.waiting|] == c.waiting
      && d.waiting[|c.waiting|] == Item(a, req.class_, BasePriority(req.class_), now, req.backlog, ch)
      && ch == c.nextChan && ch !in d.full
    case Refused(code) =>
      && d.tickets == c.tickets && d.waiting == c.waiting
      && (code == 409 ==> d == c && (a in c.tickets || HasAppliance(c.waiting, a)))
      && (code != 409 ==> code == 503 && blocked && |c.waiting| >= c.maxQueue)
    case Done => false
  }

  /** Booking demand makes no room and takes none. */
  lemma BookingKeepsRoom(q: Quota, k: PriorityClass, units: int, now: Time)
    requires Coupled(q)
    ensures CanDispatch(AddDemand(Ticked(q, now), k, units), now).1 <==> MayDispatch(q, now)
  {
    DispatchesExactlyWithRoom(AddDemand(Ticked(q, now), k, units), now);
    hide CanDispatch;
  }

  lemma AdmitAnswers(c: Cas, req: AcquireRequest, now: Time)
    requires req.appliance !in c.tickets && !HasAppliance(c.waiting, req.appliance) && c.nextChan !in c.full
    requires Coupled(c.q)
    ensures var (d, out) := Admit(c.(q := AddDemand(Ticked(c.q, now), req.class_, 1 + req.backlog)),
                                  req.appliance, req.class_, req.backlog, now);
      AnswerKept(c, req, now, d, out)
  {
    BookingKeepsRoom(c.q, req.class_, 1 + req.backlog, now);
    hide AddDemand, CanDispatch, MayDispatch, HasAppliance, BasePriority, Issue;
  }

  lemma RefusalKept(c: Cas, req: AcquireRequest, now: Time)
    requires req.appliance in c.tickets || HasAppliance(c.waiting, req.appliance)
    ensures AnswerKept(c, req, now, c, Refused(409))
  {
    hide AddDemand, MayDispatch, HasAppliance;
  }

  lemma AcquireAnswers(c: Cas, req: AcquireRequest, now: Time)
    requires Inv(c)
    ensures var (d, out) := TryAcquire(c, req, now); AnswerKept(c, req, now, d, out)
  {
    assert c.nextChan !in c.full && Coupled(c.q);
    hide Inv, TryAcquire, Admit, AddDemand, CanDispatch, HasAppliance, AnswerKept, Coupled;
    if req.appliance in c.tickets || HasAppliance(c.waiting, req.appliance) {
      AcquireRefused(c, req, now);
      RefusalKept(c, req, now);
    } else {
      AcquireAdmits(c, req, now);
      AdmitAnswers(c, req, now);
    }
  }

  // ---- demand ----

  /** The demand of each class with this request booked: unknown labels count as Medium. */
  predicate Booked(before: Tally, after: Tally, k: PriorityClass, units: int) {
    && (forall x :: x in KNOWN ==>
          At(after, x) == At(before, x) + if x == k || (x == Medium && k !in KNOWN) then units else 0)
    && (forall x :: x in after && x !in KNOWN ==> x in before && after[x] == before[x])
  }

  lemma BookingIsExact(q: Quota, k: PriorityClass, units: int)
    ensures Booked(q.demand, AddDemand(q, k, units).demand, k, units)
  {
  }

  lemma AdmitSplits(c: Cas, a: ApplianceId, k: PriorityClass, backlog: int, now: Time)
    ensures var d := Admit(c, a, k, backlog, now).0;
      if d.q.hist.refills == c.q.hist.refills
      then d.q.classes == c.q.classes && d.q.shared == c.q.shared && d.q.demand == c.q.demand
      else Ref.FreshSplit(d.q, c.q.bucketLimit, c.q.demand)
  {
    Ref.CheckKeepsOrRedoesSplit(c.q, now);
    hide CanDispatch, Active, Cap, BasePriority;
  }

  /**
   * A request that is not turned away as a duplicate books itself and its
   * backlog under its class, whatever the answer. The booking waits for the next
   * split, unless this very request refreshes the view: then the split already
   * counts it and starts the next tally from nothing.
   */
  lemma AcquireBooksDemand(c: Cas, req: AcquireRequest, now: Time) returns (booked: Tally)
    requires req.appliance !in c.tickets && !HasAppliance(c.waiting, req.appliance)
    ensures Booked(c.q.demand, booked, req.class_, 1 + req.backlog)
    ensures var d := TryAcquire(c, req, now).0;
      if d.q.hist.refills == c.q.hist.refills
      then d.q.demand == booked && d.q.classes == c.q.classes && d.q.shared == c.q.shared
      else Ref.FreshSplit(d.q, c.q.bucketLimit, booked)
  {
    var q := AddDemand(Ticked(c.q, now), req.class_, 1 + req.backlog);
    booked := q.demand;
    BookingIsExact(Ticked(c.q, now), req.class_, 1 + req.backlog);
    AcquireAdmits(c, req, now);
    AdmitSplits(c.(q := q), req.appliance, req.class_, req.backlog, now);
    hide TryAcquire, Admit, Ref.FreshSplit, Booked;
  }

  // ---- the combined call ----

  /**
   * Refinement: for a matched report other than a 429, report-and-acquire leaves
   * the same state and gives the same answer as the report followed at once by
   * an acquire with the backlog and the class it names next, medium for none.
   */
  lemma CombinedRefinesReportThenAcquire(c: Cas, r: Report, now: Time)
    requires Inv(c) && c.q.hist.clock <= now && Matched(c, r) && r.status != 429
    ensures TryReportAndAcquire(c, r, now)
         == TryAcquire(HandleReport(c, r, now).0,
                       AcquireRequest(r.appliance, if r.nextClass == Other("") then Medium else r.nextClass, r.backlog),
                       now)
  {
    hide Inv, Accept, TryReportAndAcquire, TryAcquire, Admit, AddDemand, HasAppliance, NextClass, Matched;
    NamedClass(r);
    var k := NextClass(r);
    assert k == if r.nextClass == Other("") then Medium else r.nextClass;
    var d := Accept(c, r, now);
    AcceptFreesAppliance(c, r, now);
    CombinedAdmits(c, r, now);
    AcquireAdmits(d, AcquireRequest(r.appliance, k, r.backlog), now);
  }

  lemma NamedClass(r: Report)
    ensures NextClass(r) == if r.nextClass == Other("") then Medium else r.nextClass
  {
  }

  /** After its report an appliance neither holds a ticket nor waits. */
  lemma AcceptFreesAppliance(c: Cas, r: Report, now: Time)
    requires Inv(c) && c.q.hist.clock <= now && Matched(c, r)
    ensures var d := Accept(c, r, now);
      r.appliance !in d.tickets && !HasAppliance(d.waiting, r.appliance) && Ticked(d.q, now) == d.q
  {
    hide Inv, Accept;
    AcceptHolds(c, r, now);
    HoldersDoNotWait(c, r.appliance);
  }

  /** A combined 429 is the report alone, answered 429; an unmatched one changes nothing and is answered 409. */
  lemma CombinedWithoutAcquire(c: Cas, r: Report, now: Time)
    requires !Matched(c, r) || r.status == 429
    ensures TryReportAndAcquire(c, r, now) == (HandleReport(c, r, now).0, Refused(if Matched(c, r) then 429 else 409))
    ensures !Matched(c, r) ==> HandleReport(c, r, now).0 == c
  {
    hide Accept;
  }

  /**
   * A report is heard exactly when its appliance holds the ticket it names; then
   * that ticket is retired and its token recorded, and no other ticket, waiter or
   * channel is touched.
   */
  lemma ReportSettlesItsTicket(c: Cas, r: Report, now: Time)
    requires Inv(c) && c.q.hist.clock <= now
    ensures var d := HandleReport(c, r, now).0;
      if r.appliance in c.tickets && c.tickets[r.appliance].token == r.token then
        && d.tickets == c.tickets - {r.appliance} && d.q.inFlight == c.q.inFlight - 1
        && d.ledger.accepted == c.ledger.accepted + [r.token]
        && d.waiting == c.waiting && d.full == c.full && d.ledger.issued == c.ledger.issued
      else d == c
  {
    if Matched(c, r) {
      AcceptCounts(c, r, now);
    }
    hide Settle, NotePenalty;
  }

  // ---- the ledger ----

  /** An unmatched report changes no quota, ticket or queue field. */
  lemma UnmatchedChangesNothing(c: Cas, e: Event)
    requires ReportOf(e).Some? && !Matched(c, ReportOf(e).value)
    ensures Next(c, e) == c.(q := Ticked(c.q, e.now))
    ensures Step(c, e).1 == if e.act.Combined? then Refused(409) else Done
  {
  }

  lemma AcceptedOnlyGrows(c: Cas, e: Event)
    ensures c.ledger.accepted <= Next(c, e).ledger.accepted
    ensures ReportOf(e).Some? && Matched(c, ReportOf(e).value) ==>
      Next(c, e).ledger.accepted == c.ledger.accepted + [ReportOf(e).value.token]
  {
    hide CanDispatch, Issue, Draw, AddDemand, Settle, NotePenalty, HasAppliance, Pop;
  }

  lemma {:induction false} AcceptedGrowsOverRuns(c: Cas, evs: seq<Event>)
    ensures c.ledger.accepted <= Exec(c, evs).ledger.accepted
    decreases evs
  {
    hide Next;
    if evs != [] {
      AcceptedOnlyGrows(c, evs[0]);
      AcceptedGrowsOverRuns(Next(c, evs[0]), evs[1..]);
    }
  }

  /** A token is accepted at most once: any later report that carries it is unmatched. */
  lemma {:induction false} ReplayIsUnmatched(c: Cas, e: Event, between: seq<Event>, replay: Report)
    requires Inv(c) && Timed(c.q.hist.clock, [e] + between)
    requires ReportOf(e).Some? && Matched(c, ReportOf(e).value)
    requires replay.token == ReportOf(e).value.token
    ensures !Matched(Exec(Next(c, e), between), replay)
  {
    hide Exec, Step;
    assert ([e] + between)[1..] == between;
    NextHolds(c, e);
    AcceptedOnlyGrows(c, e);
    hide Next;
    var d := Exec(Next(c, e), between);
    RunHolds(Next(c, e), between);
    AcceptedGrowsOverRuns(Next(c, e), between);
    assert d.ledger.accepted[|c.ledger.accepted|] == replay.token;
  }

  /** Ticket ledger: tickets issued are the reports accepted, the tickets reaped and the active ones. */
  lemma {:induction false} LedgerOverRuns(raw: Config, omega: real, maxQueue: int, boot: Time, evs: seq<Event>)
    requires Timed(boot, evs)
    ensures var c := Exec(Start(raw, omega, maxQueue, boot), evs);
      && |c.ledger.issued| == |c.ledger.accepted| + c.ledger.reaped + |c.tickets|
      && c.q.inFlight == |c.tickets|
      && c.ledger.reclaimed == 0
      && (forall i, j :: 0 <= i < j < |c.ledger.accepted| ==> c.ledger.accepted[i] != c.ledger.accepted[j])
  {
    hide Exec, Timed, Start;
    ReachableHolds(raw, omega, maxQueue, boot, evs);
  }

  // ---- the reaper ----

  /** The tokens issued in the last ten seconds before now. */
  function RecentTokens(c: Cas, now: Time): set<Token> {
    set k | 0 <= k < |c.ledger.issued| && now - c.ledger.issued[k] <= 10_000_000_000
  }

  lemma {:induction false} TokensCount(tickets: map<ApplianceId, Ticket>, tokens: set<Token>)
    requires forall a :: a in tickets ==> tickets[a].token in tokens
    requires forall a, b :: a in tickets && b in tickets && a != b ==> tickets[a].token != tickets[b].token
    ensures |tickets| <= |tokens|
    decreases |tickets|
  {
    if tickets != map[] {
      var a :| a in tickets;
      var rest := tickets - {a};
      DropShrinks(tickets, {a});
      TokensCount(rest, tokens - {tickets[a].token});
    }
  }

  /**
   * A reaper pass removes exactly the tickets older than the expiry, lowers the
   * count by exactly their number, and leaves at most as many tickets as were
   * issued within the expiry.
   */
  lemma ReaperLeavesRecentTickets(c: Cas, now: Time)
    requires Inv(c)
    ensures var d := Reap(c, now);
      && (forall a :: a in d.tickets <==> a in c.tickets && now - c.tickets[a].issuedAt <= 10_000_000_000)
      && (forall a :: a in d.tickets ==> d.tickets[a] == c.tickets[a])
      && d.q.inFlight == |d.tickets| <= |RecentTokens(c, now)|
      && d.ledger.reaped - c.ledger.reaped == |c.tickets| - |d.tickets|
  {
    var d := Reap(c, now);
    ReapHolds(c, now);
    DropShrinks(c.tickets, ExpiredHolders(c.tickets, now));
    TokensCount(d.tickets, RecentTokens(c, now));
  }

  // ---- the queue ----

  /**
   * Bounded overtaking: an item granted from the queue while another keeps
   * waiting was queued at most (its base - the other's base) / omega seconds
   * after it, hence at most 99 / omega.
   */
  lemma BoundedOvertaking(c: Cas, now: Time, y: Item)
    requires Inv(c) && c.omega > 0.0 && c.waiting != []
    requires Dispatch(c, now).1.Granted? && y in Dispatch(c, now).0.waiting
    ensures var x := Pop(c.omega, c.waiting, now).0;
      && Dispatch(c, now).0.tickets.Keys == c.tickets.Keys + {x.appliance}
      && (x.queuedAt - y.queuedAt) as real / 1_000_000_000.0 <= (x.base - y.base) / c.omega
      && (x.queuedAt - y.queuedAt) as real / 1_000_000_000.0 <= 99.0 / c.omega
  {
    hide Pop, Inv, Dispatch, Effective, QueueProper;
    ProperQueue(c);
    GrantedItem(c, now);
    PopSplits(c, now);
    PoppedRanksHighest(c, now);
    RankBound(c.omega, Pop(c.omega, c.waiting, now).0, y, now);
  }

  lemma ProperQueue(c: Cas)
    requires Inv(c)
    ensures QueueProper(c)
  {
  }

  /** A granted item is the popped one; the others are what the pop leaves. */
  lemma GrantedItem(c: Cas, now: Time)
    requires Inv(c) && c.waiting != [] && Dispatch(c, now).1.Granted?
    ensures var (x, rest) := Pop(c.omega, c.waiting, now);
      && Dispatch(c, now).0.waiting == rest
      && Dispatch(c, now).0.tickets.Keys == c.tickets.Keys + {x.appliance}
  {
    hide Pop, Inv, Dispatch, CanDispatch, Draw, Issue, HasClassQuota, HasSharedQuota;
    DispatchGrants(c, now);
  }

  /** The same over runs: in every reachable state, for every item that keeps waiting. */
  lemma {:induction false} BoundedOvertakingOverRuns(raw: Config, omega: real, maxQueue: int, boot: Time,
      evs: seq<Event>, now: Time, y: Item)
    requires omega > 0.0 && Timed(boot, evs)
    requires var c := Exec(Start(raw, omega, maxQueue, boot), evs);
      && c.waiting != [] && Dispatch(c, now).1.Granted? && y in Dispatch(c, now).0.waiting
    ensures var c := Exec(Start(raw, omega, maxQueue, boot), evs);
            var x := Pop(omega, c.waiting, now).0;
      && Dispatch(c, now).0.tickets.Keys == c.tickets.Keys + {x.appliance}
      && (x.queuedAt - y.queuedAt) as real / 1_000_000_000.0 <= (x.base - y.base) / omega
      && (x.queuedAt - y.queuedAt) as real / 1_000_000_000.0 <= 99.0 / omega
  {
    hide Start, Exec, Inv, Dispatch, Pop, Timed;
    var s := Start(raw, omega, maxQueue, boot);
    StartOmega(raw, omega, maxQueue, boot);
    ReachableHolds(raw, omega, maxQueue, boot, evs);
    SettingsAreFixed(s, evs);
    BoundedOvertaking(Exec(s, evs), now, y);
  }

  lemma StartOmega(raw: Config, omega: real, maxQueue: int, boot: Time)
    ensures Start(raw, omega, maxQueue, boot).omega == omega
  {
  }

  lemma PoppedRanksHighest(c: Cas, now: Time)
    requires Inv(c) && c.waiting != []
    ensures forall y :: y in c.waiting ==>
      Effective(c.omega, Pop(c.omega, c.waiting, now).0, now) >= Effective(c.omega, y, now)
      && 1.0 <= y.base <= 100.0
  {
    PopTakesFirstMaximum(c.omega, c.waiting, now);
    hide Pop, Effective;
    forall y | y in c.waiting ensures 1.0 <= y.base <= 100.0 {
      assert WaitsProperly(c, y);
    }
  }

  lemma RankBound(omega: real, x: Item, y: Item, now: Time)
    requires omega > 0.0 && Effective(omega, x, now) >= Effective(omega, y, now)
    requires x.base <= 100.0 && 1.0 <= y.base
    ensures (x.queuedAt - y.queuedAt) as real / 1_000_000_000.0 <= (x.base - y.base) / omega
    ensures (x.queuedAt - y.queuedAt) as real / 1_000_000_000.0 <= 99.0 / omega
  {
    OvertakingBound(omega, x, y, now);
    GapIsConstant(omega, x, y, now);
    hide Effective;
    DivideBound(omega, (x.queuedAt - y.queuedAt) as real / 1_000_000_000.0, 99.0);
  }

  /** Class and shared units a state still has for its queue. */
  function Units(q: Quota): int {
    Total(q.classes) + q.shared
  }

  /** One unit less: of class k if it had one, else of the shared pool; no other class is touched. */
  predicate OneUnitFor(k: PriorityClass, before: Quota, after: Quota) {
    && Units(after) == Units(before) - 1
    && (after.shared < before.shared <==> At(before.classes, k) <= 0)
    && (forall x :: x in KNOWN && x != k ==> At(after.classes, x) == At(before.classes, x))
  }

  lemma DrawTakesOneUnit(q: Quota, k: PriorityClass)
    requires BudgetsConserved(q) && (HasClassQuota(q, k) || HasSharedQuota(q))
    ensures OneUnitFor(k, q, Draw(q, k))
  {
    assert HasClassQuota(q, k) ==> k in KNOWN;
    DrawLeavesOtherClasses(q, k);
    hide BudgetsConserved;
  }

  lemma DrawLeavesOtherClasses(q: Quota, k: PriorityClass)
    ensures forall x :: x in KNOWN && x != k ==> At(Draw(q, k).classes, x) == At(q.classes, x)
  {
  }

  lemma IssueTakesNoUnit(k: PriorityClass, before: Quota, q: Quota)
    ensures OneUnitFor(k, before, q) <==> OneUnitFor(k, before, Issue(q))
  {
  }

  /**
   * A dispatch section loses nobody: the granted item leaves the queue with a
   * signal, its ticket and exactly one unit drawn, of its class when that has
   * any; everyone else keeps waiting, and without a grant no ticket, signal or
   * unit moves.
   */
  lemma DispatchLosesNobody(c: Cas, now: Time)
    requires Inv(c) && c.q.hist.clock <= now
    ensures var (d, out) := Dispatch(c, now);
            var q := CanDispatch(Ticked(c.q, now), now).0;
      if out.Granted? then
        && c.waiting != []
        && var x := Pop(c.omega, c.waiting, now).0;
        && multiset(c.waiting) == multiset(d.waiting) + multiset{x}
        && d.full == c.full + {x.ch} && x.ch !in c.full
        && x.appliance in d.tickets && d.tickets[x.appliance].token == out.token
        && OneUnitFor(x.class_, q, d.q)
      else
        && multiset(c.waiting) == multiset(d.waiting)
        && d.full == c.full && d.tickets == c.tickets && d.q.classes == q.classes && d.q.shared == q.shared
  {
    OpKeepsSound(c.q, Tick(now));
    CheckKeepsSound(Ticked(c.q, now), now);
    var (q, ok) := CanDispatch(Ticked(c.q, now), now);
    assert BudgetsConserved(q);
    if c.waiting != [] {
      PopTakesFirstMaximum(c.omega, c.waiting, now);
      SignalNeverBlocked(c, now);
    }
    hide Inv, Dispatch, CanDispatch, Pop, Draw, Issue, OneUnitFor, BudgetsConserved, Effective, Sound;
    DispatchGrants(c, now);
    if ok && c.waiting != [] {
      var k := Pop(c.omega, c.waiting, now).0.class_;
      if HasClassQuota(q, k) || HasSharedQuota(q) {
        DrawTakesOneUnit(q, k);
        IssueTakesNoUnit(k, q, Draw(q, k));
      }
    }
  }

  /** Immediate grants, on the plain and the combined path, draw no class or shared unit. */
  lemma ImmediateGrantsDrawNothing(c: Cas, a: ApplianceId, k: PriorityClass, backlog: int, now: Time)
    ensures var d := Admit(c, a, k, backlog, now).0;
      d.q.classes == CanDispatch(c.q, now).0.classes && d.q.shared == CanDispatch(c.q, now).0.shared
  {
    hide CanDispatch, BasePriority;
  }

  /** Waiting appliances are pairwise distinct and hold no ticket; the queue keeps its cap. */
  lemma {:induction false} QueueOverRuns(raw: Config, omega: real, maxQueue: int, boot: Time, evs: seq<Event>)
    requires Timed(boot, evs)
    ensures var c := Exec(Start(raw, omega, maxQueue, boot), evs);
      && |c.waiting| <= (if maxQueue < 0 then 0 else maxQueue)
      && (forall i, j :: 0 <= i < j < |c.waiting| ==> c.waiting[i].appliance != c.waiting[j].appliance)
      && (forall i :: 0 <= i < |c.waiting| ==> c.waiting[i].appliance !in c.tickets && c.waiting[i].ch !in c.full)
  {
    hide Exec, Timed;
    ReachableHolds(raw, omega, maxQueue, boot, evs);
    var c := Exec(Start(raw, omega, maxQueue, boot), evs);
    SettingsAreFixed(Start(raw, omega, maxQueue, boot), evs);
    QueuedAppliancesDistinct(c);
    forall i | 0 <= i < |c.waiting| ensures c.waiting[i].ch !in c.full {
      assert WaitsProperly(c, c.waiting[i]);
    }
  }

  lemma {:induction false} SettingsAreFixed(c: Cas, evs: seq<Event>)
    ensures Exec(c, evs).maxQueue == c.maxQueue && Exec(c, evs).omega == c.omega
    decreases evs
  {
    if evs != [] {
      SettingsStep(c, evs[0]);
      hide Next;
      SettingsAreFixed(Next(c, evs[0]), evs[1..]);
    }
  }

  lemma SettingsStep(c: Cas, e: Event)
    ensures Next(c, e).maxQueue == c.maxQueue && Next(c, e).omega == c.omega
  {
    hide CanDispatch, Issue, Draw, AddDemand, Settle, NotePenalty, HasAppliance, Pop;
  }

  /**
   * Queue-grant conservation: at every point of every run the class quotas, the
   * shared pool and the queue grants since the last reset make up the bucket
   * limit at that reset, and none of them is negative.
   */
  lemma {:induction false} QueueGrantsConserved(raw: Config, omega: real, maxQueue: int, boot: Time, evs: seq<Event>)
    requires Timed(boot, evs)
    ensures var q := Exec(Start(raw, omega, maxQueue, boot), evs).q;
      && Total(q.classes) + q.shared + q.hist.queueGrants == q.hist.resetLimit
      && q.shared >= 0 && (forall k :: k in q.classes ==> k in KNOWN && q.classes[k] >= 0)
      && q.hist.queueGrants <= q.hist.resetLimit
  {
    hide Exec, Timed, Start;
    ReachableHolds(raw, omega, maxQueue, boot, evs);
  }
}
