/** Progress of the engine: whatever traffic goes on meanwhile, a blocked server recovers in bounded time. */
module Progress {
  import opened Clock
  import opened ClassSplit
  import opened AgingQueue
  import opened QuotaModel
  import opened QuotaInvariant
  import opened EngineModel
  import opened EngineInvariant
  import opened EngineTrace
  import opened EngineTheorems
  import Live = Liveness

  // ---- quiet runs ----

  /** No ticket is issued and no report accepted; checks, refusals, queueing and reaping go on. */
  predicate QuietRun(c: Cas, evs: seq<Event>) {
    Exec(c, evs).ledger.issued == c.ledger.issued && Exec(c, evs).ledger.accepted == c.ledger.accepted
  }

  lemma {:induction false} QuietRunSplits(c: Cas, evs: seq<Event>)
    requires evs != [] && QuietRun(c, evs)
    ensures QuietRun(c, [evs[0]]) && QuietRun(Next(c, evs[0]), evs[1..])
  {
    hide Next;
    ExecOne(c, evs[0]);
    IssuesAreRecorded(c, evs[0]);
    AcceptedOnlyGrows(c, evs[0]);
    IssuedGrowsOverRuns(Next(c, evs[0]), evs[1..]);
    AcceptedGrowsOverRuns(Next(c, evs[0]), evs[1..]);
  }

  lemma QuietReports(c: Cas, e: Event)
    requires Next(c, e).ledger.accepted == c.ledger.accepted
    ensures ReportOf(e).Some? ==> !Matched(c, ReportOf(e).value)
  {
    hide Next;
    AcceptedOnlyGrows(c, e);
  }

  lemma QuietAdmit(c: Cas, a: ApplianceId, k: PriorityClass, backlog: int, now: Time)
    requires Admit(c, a, k, backlog, now).0.ledger.issued == c.ledger.issued
    ensures AdmitOps(c.q, now) == [Check(now)]
    ensures Admit(c, a, k, backlog, now).0.tickets == c.tickets
  {
    hide CanDispatch, BasePriority, Issue;
  }

  lemma QuietAcquire(c: Cas, req: AcquireRequest, now: Time)
    requires TryAcquire(c, req, now).0.ledger.issued == c.ledger.issued
    ensures forall i :: 0 <= i < |AcquireOps(c, req, now)| ==> Live.Quiet(AcquireOps(c, req, now)[i])
    ensures TryAcquire(c, req, now).0.tickets == c.tickets
  {
    hide Admit, TryAcquire, AdmitOps;
    if req.appliance in c.tickets || HasAppliance(c.waiting, req.appliance) {
      AcquireRefused(c, req, now);
    } else {
      AcquireAdmits(c, req, now);
      QuietAdmit(c.(q := AddDemand(Ticked(c.q, now), req.class_, 1 + req.backlog)),
                 req.appliance, req.class_, req.backlog, now);
    }
  }

  lemma QuietDispatch(c: Cas, now: Time)
    requires Inv(c) && Dispatch(c, now).0.ledger.issued == c.ledger.issued
    ensures DispatchOps(c, now) == [Check(now)]
    ensures Dispatch(c, now).0.tickets == c.tickets
  {
    hide CanDispatch, Draw, Pop, Dispatch, Inv;
    DispatchGrants(c, now);
  }

  lemma QuietStep(c: Cas, e: Event)
    requires Inv(c) && Step(c, e).0.ledger.issued == c.ledger.issued
    requires ReportOf(e).Some? ==> !Matched(c, ReportOf(e).value)
    ensures forall i :: 0 <= i < |StepOps(c, e)| ==> Live.Quiet(StepOps(c, e)[i])
    ensures forall a :: a in Step(c, e).0.tickets ==> a in c.tickets && Step(c, e).0.tickets[a] == c.tickets[a]
  {
    hide Inv, AcquireOps, DispatchOps, CombinedOps, TryAcquire, Dispatch, TryReportAndAcquire, Matched, Accept,
         ExpiredHolders, Without, Channels;
    match e.act
    case Acquire(req) => QuietAcquire(c, req, e.now);
    case Combined(r) =>
      CombinedRefuses(c, r, e.now);
      UnmatchedHasNoOps(c, r, e.now);
    case DispatchOne => QuietDispatch(c, e.now);
    case _ =>
  }

  /** A quiet event only reads the clock, books, checks and reaps; the tickets left are old ones. */
  lemma QuietEvent(c: Cas, e: Event)
    requires Inv(c) && QuietRun(c, [e])
    ensures forall i :: 0 <= i < |EventOps(c, e)| ==> Live.Quiet(EventOps(c, e)[i])
    ensures forall a :: a in Next(c, e).tickets ==> a in c.tickets && Next(c, e).tickets[a] == c.tickets[a]
  {
    hide Inv, Exec, StepOps, Step, Matched, ReportOf;
    ExecOne(c, e);
    QuietReports(c, e);
    QuietStep(c, e);
  }

  lemma UnmatchedHasNoOps(c: Cas, r: Report, now: Time)
    requires !Matched(c, r)
    ensures CombinedOps(c, r, now) == []
  {
  }

  /** The quota operations of a quiet run are quiet, and no ticket is left that was not there before. */
  lemma {:induction false} QuietRunOps(c: Cas, evs: seq<Event>)
    requires Inv(c) && Timed(c.q.hist.clock, evs) && QuietRun(c, evs)
    ensures forall i :: 0 <= i < |RunOps(c, evs)| ==> Live.Quiet(RunOps(c, evs)[i])
    ensures forall a :: a in Exec(c, evs).tickets ==> a in c.tickets && Exec(c, evs).tickets[a] == c.tickets[a]
    decreases evs
  {
    hide Inv, Next, EventOps, Live.Quiet;
    if evs != [] {
      QuietRunSplits(c, evs);
      hide QuietRun;
      QuietEvent(c, evs[0]);
      NextHolds(c, evs[0]);
      QuietRunOps(Next(c, evs[0]), evs[1..]);
    }
  }

  // ---- recovery ----

  lemma {:induction false} ClearOverRun(c: Cas, evs: seq<Event>, x: Time)
    requires Inv(c) && Timed(c.q.hist.clock, evs) && QuietRun(c, evs) && Live.ClearBy(c.q, x)
    ensures Live.ClearBy(Exec(c, evs).q, x)
  {
    assert Sound(c.q);
    hide Inv, Sound, RunOps, Exec, Timed, ApplyAll, LegalAll, QuietRun, Live.ClearBy;
    QuietRunOps(c, evs);
    RunQuota(c, evs);
    Live.ClearStays(c.q, RunOps(c, evs), x);
  }

  /** A quiet run with a reaper pass after every ticket has expired ends without tickets. */
  lemma {:induction false} ReapedOverRun(c: Cas, evs: seq<Event>, k: nat)
    requires Inv(c) && Timed(c.q.hist.clock, evs) && QuietRun(c, evs)
    requires k < |evs| && evs[k].act == ReaperPass
    requires forall a :: a in c.tickets ==> Expired(c.tickets[a], evs[k].now)
    ensures Exec(c, evs).tickets == map[]
    decreases evs
  {
    hide Inv, Next, RunOps;
    QuietRunSplits(c, evs);
    hide QuietRun;
    var d := Next(c, evs[0]);
    NextHolds(c, evs[0]);
    QuietEvent(c, evs[0]);
    QuietRunOps(d, evs[1..]);
    if k == 0 {
      PassEmpties(c, evs[0].now);
      assert Exec(c, evs).tickets.Keys == {};
    } else {
      ReapedOverRun(d, evs[1..], k - 1);
    }
  }

  lemma PassEmpties(c: Cas, now: Time)
    requires Inv(c) && forall a :: a in c.tickets ==> Expired(c.tickets[a], now)
    ensures Next(c, Event(now, ReaperPass)).tickets == map[]
  {
    assert ExpiredHolders(c.tickets, now) == c.tickets.Keys;
  }

  /** With the quota clear and no ticket out, a request of an appliance that does not wait is granted. */
  lemma ClearGrants(c: Cas, now: Time, req: AcquireRequest)
    requires Inv(c) && c.q.hist.clock <= now && Live.ClearBy(c.q, now) && c.tickets == map[]
    requires !HasAppliance(c.waiting, req.appliance)
    ensures CanDispatch(Ticked(c.q, now), now).1
    ensures TryAcquire(c, req, now).1.Granted?
  {
    hide TryAcquire;
    OpKeepsSound(c.q, Tick(now));
    Live.ClearDispatches(Ticked(c.q, now), now);
    BookHolds(c, req.class_, 1 + req.backlog, now);
    Live.ClearDispatches(AddDemand(Ticked(c.q, now), req.class_, 1 + req.backlog), now);
    AcquireAdmits(c, req, now);
  }

  /**
   * No wedge. Take any proper state and let traffic go on without a ticket
   * issued or a report accepted: refused requests, dispatch rounds and reaper
   * passes, which keep opening new views and windows. Once the periods that were
   * in force have run out and a reaper pass has met every ticket expired, a check
   * succeeds and the next request of an appliance that does not wait is granted.
   */
  lemma {:induction false} NoWedge(c: Cas, evs: seq<Event>, k: nat, now: Time, req: AcquireRequest)
    requires Inv(c) && Timed(c.q.hist.clock, evs) && QuietRun(c, evs)
    requires k < |evs| && evs[k].act == ReaperPass
    requires forall a :: a in c.tickets ==> Expired(c.tickets[a], evs[k].now)
    requires Live.ClearBy(c.q, now) && Exec(c, evs).q.hist.clock <= now
    requires !HasAppliance(Exec(c, evs).waiting, req.appliance)
    ensures CanDispatch(Ticked(Exec(c, evs).q, now), now).1
    ensures Step(Exec(c, evs), Event(now, Acquire(req))).1.Granted?
  {
    hide Inv, Exec, Timed, QuietRun, TryAcquire, CanDispatch, Live.ClearBy;
    RunHolds(c, evs);
    ClearOverRun(c, evs, now);
    ReapedOverRun(c, evs, k);
    ClearGrants(Exec(c, evs), now, req);
  }

  // ---- how long it can take ----

  /** Reports received no later than processed, policy windows at most p, penalties at most s. */
  predicate TimelyEvent(e: Event, p: Time, s: Time) {
    ReportOf(e).Some? ==>
      var r := ReportOf(e).value;
      && r.recvAt <= e.now
      && (r.window > 0 ==> Seconds(r.window) <= p)
      && (r.status == 429 && r.retryAfter > 0 ==> Seconds(r.retryAfter) <= s)
  }

  lemma {:induction false} TimelyOps(c: Cas, evs: seq<Event>, p: Time, s: Time)
    requires Inv(c) && Timed(c.q.hist.clock, evs)
    requires forall k :: 0 <= k < |evs| ==> TimelyEvent(evs[k], p, s)
    ensures forall i :: 0 <= i < |RunOps(c, evs)| ==> Live.Timely(RunOps(c, evs)[i], p, s)
  {
    hide RunOps, Inv, Exec, Timed, ApplyAll, LegalAll;
    RunQuota(c, evs);
    forall i | 0 <= i < |RunOps(c, evs)| ensures Live.Timely(RunOps(c, evs)[i], p, s) {
      var k :| 0 <= k < |evs| && From(RunOps(c, evs)[i], evs[k]);
      assert TimelyEvent(evs[k], p, s);
    }
  }

  /** After timely events every period in force ends at most p or s after the clock. */
  lemma {:induction false} ClearWithin(raw: Config, omega: real, maxQueue: int, boot: Time, before: seq<Event>,
      p: Time, s: Time, x: Time)
    requires Timed(boot, before) && forall i :: 0 <= i < |before| ==> TimelyEvent(before[i], p, s)
    requires Seconds(Clamped(raw).policyWindowSec) <= p && Seconds(Clamped(raw).sustainedWindowSec) <= s
    requires var c := Exec(Start(raw, omega, maxQueue, boot), before);
      c.q.hist.clock + p <= x && c.q.hist.clock + s <= x
    ensures Live.ClearBy(Exec(Start(raw, omega, maxQueue, boot), before).q, x)
  {
    var st := Start(raw, omega, maxQueue, boot);
    assert Live.TimersNear(st.q, p, s);
    StartHolds(raw, omega, maxQueue, boot);
    StartClock(raw, omega, maxQueue, boot);
    TicketsAreGrants(st);
    hide Start, Sound, Inv, RunOps, Exec, Timed, ApplyAll, LegalAll, TimelyEvent;
    TimelyOps(st, before, p, s);
    RunQuota(st, before);
    Live.TimersStayNear(st.q, RunOps(st, before), p, s);
  }

  lemma TicketsAreOld(c: Cas, later: Time)
    requires Inv(c) && c.q.hist.clock + EXPIRY < later
    ensures forall a :: a in c.tickets ==> Expired(c.tickets[a], later)
  {
    forall a | a in c.tickets ensures Expired(c.tickets[a], later) {
      assert c.ledger.issued[c.tickets[a].token] <= c.q.hist.clock;
    }
  }

  /**
   * Bounded wait. Let before be any run of timely events and T its last clock
   * reading. However long traffic goes on after it with nothing issued and
   * nothing accepted, from T + p and T + s on, and after a reaper pass later
   * than T plus the ticket expiry, a request of an appliance that does not wait
   * is granted.
   */
  lemma {:induction false} WaitIsBounded(raw: Config, omega: real, maxQueue: int, boot: Time,
      before: seq<Event>, evs: seq<Event>, p: Time, s: Time, k: nat, now: Time, req: AcquireRequest)
    requires Timed(boot, before + evs) && forall i :: 0 <= i < |before| ==> TimelyEvent(before[i], p, s)
    requires Seconds(Clamped(raw).policyWindowSec) <= p && Seconds(Clamped(raw).sustainedWindowSec) <= s
    requires var c := Exec(Start(raw, omega, maxQueue, boot), before);
      && QuietRun(c, evs)
      && k < |evs| && evs[k].act == ReaperPass && c.q.hist.clock + EXPIRY < evs[k].now
      && c.q.hist.clock + p <= now && c.q.hist.clock + s <= now
    requires var d := Exec(Start(raw, omega, maxQueue, boot), before + evs);
      d.q.hist.clock <= now && !HasAppliance(d.waiting, req.appliance)
    ensures Step(Exec(Start(raw, omega, maxQueue, boot), before + evs), Event(now, Acquire(req))).1.Granted?
  {
    var st := Start(raw, omega, maxQueue, boot);
    StartHolds(raw, omega, maxQueue, boot);
    StartClock(raw, omega, maxQueue, boot);
    hide Start, Step, Exec, Timed, Inv, QuietRun, TimelyEvent, Live.ClearBy, Expired;
    ExecConcat(st, before, evs);
    RunHolds(st, before);
    var c := Exec(st, before);
    TicketsAreOld(c, evs[k].now);
    ClearWithin(raw, omega, maxQueue, boot, before, p, s, now);
    NoWedge(c, evs, k, now, req);
  }
}
