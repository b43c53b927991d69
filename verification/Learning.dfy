/** What the server has learned from its reports, as a function of the events of a run alone. */
module Learning {
  import opened Clock
  import opened Optional
  import opened ClassSplit
  import opened AgingQueue
  import opened QuotaModel
  import opened QuotaInvariant
  import opened QuotaLaws
  import opened EngineModel
  import opened EngineInvariant
  import opened EngineTrace
  import opened EngineTheorems

  /** The report the event settles: one whose appliance holds the ticket it names. */
  function Heard(c: Cas, e: Event): Option<Report> {
    if ReportOf(e).Some?
       && ReportOf(e).value.appliance in c.tickets
       && c.tickets[ReportOf(e).value.appliance].token == ReportOf(e).value.token
    then ReportOf(e) else None
  }

  predicate Penalised(c: Cas, e: Event) {
    Heard(c, e).Some? && Heard(c, e).value.status == 429
  }

  /** The event asks for a ticket or tries to hand one out, so it checks the budgets. */
  predicate Checks(c: Cas, e: Event) {
    match e.act
    case Acquire(req) => req.appliance !in c.tickets && !HasAppliance(c.waiting, req.appliance)
    case Combined(r) => Heard(c, e).Some? && r.status != 429
    case DispatchOne => true
    case _ => false
  }

  /** The event is the first check at or after the end of the sustained window. */
  predicate EndsWindow(c: Cas, e: Event) {
    Checks(c, e) && WindowOver(c.q, e.now)
  }

  /** Only a window can be marked. */
  predicate MarkedWindow(q: Quota) {
    q.penaltyInWindow ==> q.sustainedEnd.Some?
  }

  /** Learned values as a report leaves them. */
  predicate Taught(q: Quota, r: Report, s: Quota) {
    && s.cfg == q.cfg && s.calibrated
    && s.bucketLimit == (if r.limit > 0 then r.limit else q.bucketLimit)
    && PolicyWindow(s) == (if r.window > 0 then r.window else PolicyWindow(q))
    && s.sustainedWindowSec == (if r.status == 429 && r.retryAfter > 0 then r.retryAfter else q.sustainedWindowSec)
    && s.penalties == q.penalties + if r.status == 429 then 1 else 0
  }

  /** Learned values as anything but a report leaves them. */
  predicate Untaught(q: Quota, s: Quota) {
    && s.cfg == q.cfg && s.calibrated == q.calibrated && s.bucketLimit == q.bucketLimit
    && PolicyWindow(s) == PolicyWindow(q)
    && s.sustainedWindowSec == q.sustainedWindowSec && s.penalties == q.penalties
  }

  /** Limit and mark after a check. */
  predicate Checked(q: Quota, s: Quota, now: Time) {
    && MarkedWindow(s)
    && (if WindowOver(q, now)
        then s.sustainedLimit == LimitAfterWindow(q, q.penaltyInWindow) && !s.penaltyInWindow
        else s.sustainedLimit == q.sustainedLimit && s.penaltyInWindow == q.penaltyInWindow)
  }

  predicate Unmoved(q: Quota, s: Quota) {
    && s.sustainedLimit == q.sustainedLimit && s.penaltyInWindow == q.penaltyInWindow
    && s.sustainedEnd == q.sustainedEnd
  }

  lemma CheckLearns(q: Quota, now: Time)
    requires Sound(q) && MarkedWindow(q)
    ensures var s := CanDispatch(q, now).0; Untaught(q, s) && Checked(q, s, now)
  {
    hide CanDispatch;
    CheckEffects(q, now);
  }

  lemma AdmitLearns(c: Cas, a: ApplianceId, k: PriorityClass, backlog: int, now: Time)
    requires Sound(c.q) && MarkedWindow(c.q)
    ensures var s := Admit(c, a, k, backlog, now).0.q; Untaught(c.q, s) && Checked(c.q, s, now)
  {
    CheckLearns(c.q, now);
    hide CanDispatch, Sound, BasePriority;
  }

  lemma BookLearns(q: Quota, k: PriorityClass, n: int, now: Time)
    ensures var s := AddDemand(Ticked(q, now), k, n); Untaught(q, s) && Unmoved(q, s)
    ensures AddDemand(q, k, n).hist == q.hist
  {
  }

  lemma DrawLearns(q: Quota, k: PriorityClass)
    ensures Untaught(q, Issue(Draw(q, k))) && Unmoved(q, Issue(Draw(q, k)))
  {
  }

  lemma SameLesson(q: Quota, p: Quota, s: Quota, now: Time)
    requires Untaught(q, p) && Unmoved(q, p) && Untaught(p, s) && Checked(p, s, now)
    ensures Untaught(q, s) && Checked(q, s, now)
  {
  }

  lemma AcquireLearns(c: Cas, req: AcquireRequest, now: Time)
    requires Inv(c) && c.q.hist.clock <= now && MarkedWindow(c.q)
    requires req.appliance !in c.tickets && !HasAppliance(c.waiting, req.appliance)
    ensures var s := TryAcquire(c, req, now).0.q; Untaught(c.q, s) && Checked(c.q, s, now)
  {
    AcquireAdmits(c, req, now);
    BookHolds(c, req.class_, 1 + req.backlog, now);
    BookLearns(c.q, req.class_, 1 + req.backlog, now);
    hide Admit, TryAcquire, AddDemand;
    var c1 := c.(q := AddDemand(Ticked(c.q, now), req.class_, 1 + req.backlog));
    AdmitLearns(c1, req.appliance, req.class_, req.backlog, now);
    hide Inv;
    SameLesson(c.q, c1.q, TryAcquire(c, req, now).0.q, now);
  }

  lemma DispatchLearns(c: Cas, now: Time)
    requires Inv(c) && c.q.hist.clock <= now && MarkedWindow(c.q)
    ensures var s := Dispatch(c, now).0.q; Untaught(c.q, s) && Checked(c.q, s, now)
  {
    hide Inv, CanDispatch, Draw, Issue, Pop, Dispatch, HasClassQuota, HasSharedQuota, Untaught, Checked, Sound,
         MarkedWindow;
    SoundNow(c, now);
    BareTick(c.q, now);
    var (q, ok) := CanDispatch(Ticked(c.q, now), now);
    CheckLearns(Ticked(c.q, now), now);
    SameLesson(c.q, Ticked(c.q, now), q, now);
    DispatchGrants(c, now);
    if ok && c.waiting != [] {
      var k := Pop(c.omega, c.waiting, now).0.class_;
      DrawLearns(q, k);
      LessonThen(c.q, q, Issue(Draw(q, k)), now);
    }
  }

  lemma SoundNow(c: Cas, now: Time)
    requires Inv(c) && c.q.hist.clock <= now
    ensures Sound(Ticked(c.q, now))
  {
    OpKeepsSound(c.q, Tick(now));
  }

  lemma BareTick(q: Quota, now: Time)
    ensures MarkedWindow(Ticked(q, now)) == MarkedWindow(q)
    ensures Untaught(q, Ticked(q, now)) && Unmoved(q, Ticked(q, now))
  {
  }

  lemma LessonThen(q: Quota, p: Quota, s: Quota, now: Time)
    requires Untaught(q, p) && Checked(q, p, now) && Untaught(p, s) && Unmoved(p, s)
    ensures Untaught(q, s) && Checked(q, s, now)
  {
    hide PolicyWindow;
  }

  lemma AcceptLearns(c: Cas, r: Report, now: Time)
    requires Inv(c) && c.q.hist.clock <= now && MarkedWindow(c.q) && Matched(c, r)
    ensures var s := Accept(c, r, now).q;
      && Taught(c.q, r, s) && MarkedWindow(s)
      && (r.status == 429 ==>
            s.penaltyInWindow && s.sustainedLimit == (if c.q.sustainedLimit / 2 < c.q.cfg.sustainedMinLimit
                                                      then c.q.cfg.sustainedMinLimit else c.q.sustainedLimit / 2))
      && (r.status != 429 ==> Unmoved(c.q, s))
  {
    var q0 := Ticked(c.q, now);
    OpKeepsSound(c.q, Tick(now));
    ReportNamesLimits(q0, r);
    SettleKeepsSound(q0, r);
    hide Settle, NotePenalty;
    PenaltyAdoptsRetryAfter(Settle(q0, r), r.retryAfter, now);
  }

  lemma CombinedLearns(c: Cas, r: Report, now: Time)
    requires Inv(c) && c.q.hist.clock <= now && MarkedWindow(c.q) && Matched(c, r) && r.status != 429
    ensures var s := TryReportAndAcquire(c, r, now).0.q; Taught(c.q, r, s) && Checked(c.q, s, now)
  {
    hide Accept, Admit, TryReportAndAcquire, NextClass, Matched, Inv, Taught, Untaught, Checked, MarkedWindow;
    AcceptLearns(c, r, now);
    AcceptHolds(c, r, now);
    CombinedAdmits(c, r, now);
    BookedAdmitLearns(Accept(c, r, now), r.appliance, NextClass(r), r.backlog, now);
    LessonGoesOn(c.q, r, Accept(c, r, now).q, TryReportAndAcquire(c, r, now).0.q, now);
  }

  lemma BookedAdmitLearns(d: Cas, a: ApplianceId, k: PriorityClass, backlog: int, now: Time)
    requires Inv(d) && d.q.hist.clock == now && MarkedWindow(d.q)
    ensures var s := Admit(d.(q := AddDemand(d.q, k, 1 + backlog)), a, k, backlog, now).0.q;
      Untaught(d.q, s) && Checked(d.q, s, now)
  {
    hide Admit;
    DemandHolds(d, k, 1 + backlog);
    assert Ticked(d.q, now) == d.q;
    BookLearns(d.q, k, 1 + backlog, now);
    var d1 := d.(q := AddDemand(d.q, k, 1 + backlog));
    assert Sound(d1.q);
    hide Inv, AddDemand, Sound;
    AdmitLearns(d1, a, k, backlog, now);
    SameLesson(d.q, d1.q, Admit(d1, a, k, backlog, now).0.q, now);
  }

  lemma LessonGoesOn(q: Quota, r: Report, p: Quota, s: Quota, now: Time)
    requires Taught(q, r, p) && Unmoved(q, p) && Untaught(p, s) && Checked(p, s, now)
    ensures Taught(q, r, s) && Checked(q, s, now)
  {
    hide PolicyWindow;
  }

  /**
   * What one event teaches: only a settled report changes limits, window lengths,
   * calibration and the penalty count; only a 429 and the end of a window move
   * the sustained limit and the mark.
   */
  predicate Learned(c: Cas, e: Event, s: Quota) {
    && MarkedWindow(s)
    && (if Heard(c, e).Some? then Taught(c.q, Heard(c, e).value, s) else Untaught(c.q, s))
    && (Penalised(c, e) ==>
          s.penaltyInWindow && s.sustainedLimit == (if c.q.sustainedLimit / 2 < c.q.cfg.sustainedMinLimit
                                                    then c.q.cfg.sustainedMinLimit else c.q.sustainedLimit / 2))
    && (!Penalised(c, e) && EndsWindow(c, e) ==>
          s.sustainedLimit == LimitAfterWindow(c.q, c.q.penaltyInWindow) && !s.penaltyInWindow)
    && (!Penalised(c, e) && !EndsWindow(c, e) ==>
          s.sustainedLimit == c.q.sustainedLimit && s.penaltyInWindow == c.q.penaltyInWindow)
  }

  lemma AcquireTeaches(c: Cas, req: AcquireRequest, now: Time)
    requires Inv(c) && c.q.hist.clock <= now && MarkedWindow(c.q)
    ensures Learned(c, Event(now, Acquire(req)), TryAcquire(c, req, now).0.q)
  {
    hide Inv, TryAcquire, HasAppliance, PolicyWindow;
    if req.appliance in c.tickets || HasAppliance(c.waiting, req.appliance) {
      AcquireRefused(c, req, now);
    } else {
      AcquireLearns(c, req, now);
    }
  }

  lemma DispatchTeaches(c: Cas, now: Time)
    requires Inv(c) && c.q.hist.clock <= now && MarkedWindow(c.q)
    ensures Learned(c, Event(now, DispatchOne), Dispatch(c, now).0.q)
  {
    hide Inv, Dispatch, PolicyWindow;
    DispatchLearns(c, now);
  }

  lemma SettlementTeaches(c: Cas, r: Report, now: Time)
    requires Inv(c) && c.q.hist.clock <= now && MarkedWindow(c.q)
    ensures Learned(c, Event(now, Settlement(r)), HandleReport(c, r, now).0.q)
  {
    hide Inv, Accept, PolicyWindow;
    if Matched(c, r) {
      AcceptLearns(c, r, now);
    }
  }

  lemma CombinedTeaches(c: Cas, r: Report, now: Time)
    requires Inv(c) && c.q.hist.clock <= now && MarkedWindow(c.q)
    ensures Learned(c, Event(now, Combined(r)), TryReportAndAcquire(c, r, now).0.q)
  {
    hide Inv, Accept, TryReportAndAcquire, PolicyWindow;
    if Matched(c, r) && r.status != 429 {
      CombinedLearns(c, r, now);
    } else {
      CombinedRefuses(c, r, now);
      if Matched(c, r) {
        AcceptLearns(c, r, now);
      }
    }
  }

  lemma OthersTeachNothing(c: Cas, e: Event)
    requires MarkedWindow(c.q)
    requires e.act.ReaperPass? || e.act.Abandon? || e.act.Receive? || e.act.Shutdown?
    ensures Learned(c, e, Step(c, e).0.q)
  {
    hide ExpiredHolders, Without, Channels;
  }

  lemma TickTeachesNothing(c: Cas, e: Event, s: Quota, now: Time)
    ensures Learned(c, e, s) <==> Learned(c, e, Ticked(s, now))
  {
    hide Heard, Penalised, EndsWindow;
  }

  lemma EventLearns(c: Cas, e: Event)
    requires Inv(c) && c.q.hist.clock <= e.now && MarkedWindow(c.q)
    ensures Learned(c, e, Next(c, e).q)
  {
    hide Inv, TryAcquire, Dispatch, TryReportAndAcquire, HandleReport, Reap, Without, Channels, Learned, MarkedWindow;
    match e.act {
      case Acquire(req) => AcquireTeaches(c, req, e.now);
      case Settlement(r) => SettlementTeaches(c, r, e.now);
      case Combined(r) => CombinedTeaches(c, r, e.now);
      case DispatchOne => DispatchTeaches(c, e.now);
      case _ => OthersTeachNothing(c, e);
    }
    TickTeachesNothing(c, e, Step(c, e).0.q, e.now);
  }

  // ---- over runs ----

  /** What a report says the bucket limit, the policy window, the penalty length is; nothing when not positive. */
  datatype Topic = Limit | Policy | Penalty

  function Named(r: Report, t: Topic): int {
    match t
    case Limit => r.limit
    case Policy => r.window
    case Penalty => if r.status == 429 then r.retryAfter else 0
  }

  /** The last positive value the settled reports of a run name, or else the previous one. */
  function LastNamed(c: Cas, evs: seq<Event>, t: Topic, previous: int): int
    decreases evs
  {
    if evs == [] then previous
    else
      var heard := Heard(c, evs[0]);
      LastNamed(Next(c, evs[0]), evs[1..], t,
                if heard.Some? && Named(heard.value, t) > 0 then Named(heard.value, t) else previous)
  }

  lemma {:induction false} ReportsTeach(c: Cas, evs: seq<Event>)
    requires Inv(c) && MarkedWindow(c.q) && Timed(c.q.hist.clock, evs)
    ensures var q := Exec(c, evs).q;
      && q.bucketLimit == LastNamed(c, evs, Limit, c.q.bucketLimit)
      && PolicyWindow(q) == LastNamed(c, evs, Policy, PolicyWindow(c.q))
      && q.sustainedWindowSec == LastNamed(c, evs, Penalty, c.q.sustainedWindowSec)
    decreases evs
  {
    hide Inv, Next, Heard, MarkedWindow, PolicyWindow;
    if evs != [] {
      EventLearns(c, evs[0]);
      NextHolds(c, evs[0]);
      ReportsTeach(Next(c, evs[0]), evs[1..]);
    }
  }

  /**
   * In every run from a fresh server the bucket limit, the policy window and the
   * sustained window length are what the last settled report that named them
   * said, and the configured values before; a penalty names the window length.
   */
  lemma {:induction false} LastReportRules(raw: Config, omega: real, maxQueue: int, boot: Time, evs: seq<Event>)
    requires Timed(boot, evs)
    ensures var s := Start(raw, omega, maxQueue, boot);
            var q := Exec(s, evs).q;
      && q.bucketLimit == LastNamed(s, evs, Limit, if raw.bucketLimit > 0 then raw.bucketLimit else 50)
      && PolicyWindow(q) == LastNamed(s, evs, Policy, if raw.policyWindowSec > 0 then raw.policyWindowSec else 30)
      && q.sustainedWindowSec
         == LastNamed(s, evs, Penalty, if raw.sustainedWindowSec > 0 then raw.sustainedWindowSec else 900)
  {
    var s := Start(raw, omega, maxQueue, boot);
    StartHolds(raw, omega, maxQueue, boot);
    StartClock(raw, omega, maxQueue, boot);
    assert MarkedWindow(s.q);
    ClampsToNearest(raw);
    hide Inv, Exec, Timed, LastNamed;
    ReportsTeach(s, evs);
  }
}
