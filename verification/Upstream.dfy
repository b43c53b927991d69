/**
 * The server beside the upstream bucket it spends from: inside one view the
 * server never dispatches more than upstream holds.
 */
module Upstream {
  import opened Clock
  import opened ClassSplit
  import opened AgingQueue
  import opened QuotaModel
  import opened EngineModel
  import opened EngineInvariant
  import opened EngineTrace
  import opened EngineTheorems
  import Ref = Refill

  /** A request upstream has served: whose it was and the remaining it answered with. */
  datatype Response = Response(appliance: ApplianceId, token: Token, remaining: int)

  /** served holds the answers not yet reported, oldest first; refused counts upstream 429s. */
  datatype World = World(c: Cas, bucket: int, served: seq<Response>, refused: nat)

  datatype WorldEvent =
    | Serve(a: ApplianceId)   // upstream handles the request of a's ticket
    | Server(e: Event)

  predicate Answered(w: World, a: ApplianceId) {
    exists i :: 0 <= i < |w.served| && w.served[i].appliance == a
  }

  predicate Settles(c: Cas, e: Event) {
    ReportOf(e).Some? && Matched(c, ReportOf(e).value)
  }

  function Move(w: World, ev: WorldEvent): World {
    match ev
    case Serve(a) =>
      if a !in w.c.tickets || Answered(w, a) then w
      else if w.bucket > 0 then
        w.(bucket := w.bucket - 1,
           served := w.served + [Response(a, w.c.tickets[a].token, w.bucket - 1)])
      else w.(refused := w.refused + 1)
    case Server(e) =>
      w.(c := Next(w.c, e),
         served := if Settles(w.c, e) && w.served != [] then w.served[1..] else w.served)
  }

  /**
   * The event stays inside the view: no refill, no reaped ticket, and reports
   * arrive in the order upstream served them, with the remaining it answered.
   * Their status and their other headers are arbitrary.
   */
  predicate InsideView(w: World, ev: WorldEvent) {
    match ev
    case Serve(_) => true
    case Server(e) =>
      && e.now >= w.c.q.hist.clock
      && Next(w.c, e).q.hist.refills == w.c.q.hist.refills
      && (e.act.ReaperPass? ==> ExpiredHolders(w.c.tickets, e.now) == {})
      && (Settles(w.c, e) ==>
            var r := ReportOf(e).value;
            && w.served != [] && r.appliance == w.served[0].appliance
            && r.remaining == w.served[0].remaining)
  }

  /** A settled report's limit, when it names one, covers its own remaining. */
  predicate LimitCovers(w: World, ev: WorldEvent) {
    ev.Server? && Settles(w.c, ev.e) ==>
      var r := ReportOf(ev.e).value;
      r.limit <= 0 || r.limit >= r.remaining
  }

  predicate InsideViewAll(w: World, evs: seq<WorldEvent>)
    decreases evs
  {
    evs == [] || (InsideView(w, evs[0]) && InsideViewAll(Move(w, evs[0]), evs[1..]))
  }

  predicate LimitsCover(w: World, evs: seq<WorldEvent>)
    decreases evs
  {
    evs == [] || (LimitCovers(w, evs[0]) && LimitsCover(Move(w, evs[0]), evs[1..]))
  }

  function MoveAll(w: World, evs: seq<WorldEvent>): World
    decreases evs
  {
    if evs == [] then w else MoveAll(Move(w, evs[0]), evs[1..])
  }

  /** Requests granted and not yet served. */
  function Unserved(w: World): int {
    |w.c.tickets| - |w.served|
  }

  /** Unreported answers count down to the bucket, one per ticket. */
  predicate AnswersInOrder(served: seq<Response>, bucket: int, tickets: map<ApplianceId, Ticket>) {
    && (forall i :: 0 <= i < |served| ==>
          && served[i].remaining == bucket + |served| - 1 - i
          && served[i].appliance in tickets && tickets[served[i].appliance].token == served[i].token)
    && (forall i, j :: 0 <= i < j < |served| ==> served[i].appliance != served[j].appliance)
  }

  /** The server believes in no more than upstream holds, and upstream can serve every ticket out. */
  ghost predicate Safe(w: World) {
    && Inv(w.c)
    && w.c.q.calibrated
    && w.bucket >= 0
    && w.c.q.localRemaining <= w.bucket + |w.served|
    && |w.c.tickets| <= w.bucket + |w.served|
    && AnswersInOrder(w.served, w.bucket, w.c.tickets)
  }

  /** What the server believes in is exactly what upstream holds. */
  ghost predicate Accurate(w: World) {
    && Safe(w)
    && w.c.q.localRemaining == w.bucket + |w.served|
    && Ref.WithinLimit(w.c.q)
  }

  // ---- effects of one event inside a view ----

  /** A ticket may have been added; the believed remaining is the same. */
  predicate Kept(c: Cas, d: Cas) {
    && d.q.localRemaining == c.q.localRemaining
    && d.q.bucketLimit == c.q.bucketLimit
    && d.q.calibrated == c.q.calibrated
    && (forall b :: b in c.tickets ==> b in d.tickets && d.tickets[b] == c.tickets[b])
    && (d.tickets == c.tickets || |d.ledger.issued| > |c.ledger.issued|)
  }

  lemma CheckWithoutRefill(q: Quota, now: Time)
    ensures q.hist.refills <= CanDispatch(q, now).0.hist.refills
    ensures var s := CanDispatch(q, now).0;
      s.hist.refills == q.hist.refills ==>
        s.localRemaining == q.localRemaining && s.bucketLimit == q.bucketLimit && s.calibrated == q.calibrated
  {
    hide SplitLimit;
  }

  lemma AdmitKeeps(c: Cas, a: ApplianceId, k: PriorityClass, backlog: int, now: Time)
    requires a !in c.tickets
    requires Admit(c, a, k, backlog, now).0.q.hist.refills == c.q.hist.refills
    ensures Kept(c, Admit(c, a, k, backlog, now).0)
  {
    CheckWithoutRefill(c.q, now);
    hide CanDispatch;
  }

  lemma AcquireKeeps(c: Cas, req: AcquireRequest, now: Time)
    requires TryAcquire(c, req, now).0.q.hist.refills == c.q.hist.refills
    ensures Kept(c, TryAcquire(c, req, now).0)
  {
    hide Admit, TryAcquire;
    if req.appliance in c.tickets || HasAppliance(c.waiting, req.appliance) {
      AcquireRefused(c, req, now);
    } else {
      AcquireAdmits(c, req, now);
      AdmitKeeps(c.(q := AddDemand(Ticked(c.q, now), req.class_, 1 + req.backlog)),
                 req.appliance, req.class_, req.backlog, now);
    }
  }

  lemma PoppedHoldsNoTicket(c: Cas, now: Time)
    requires Inv(c) && c.waiting != []
    ensures Pop(c.omega, c.waiting, now).0.appliance !in c.tickets
  {
    PopSplits(c, now);
    assert WaitsProperly(c, Pop(c.omega, c.waiting, now).0);
  }

  lemma DispatchKeeps(c: Cas, now: Time)
    requires Inv(c)
    requires Dispatch(c, now).0.q.hist.refills == c.q.hist.refills
    ensures Kept(c, Dispatch(c, now).0)
  {
    hide CanDispatch, Pop, Dispatch, Inv;
    if c.waiting != [] {
      PoppedHoldsNoTicket(c, now);
    }
    CheckWithoutRefill(Ticked(c.q, now), now);
    DispatchGrants(c, now);
  }

  /** A matched report inside the view. */
  predicate Settled(c: Cas, r: Report, d: Cas) {
    && d.q.localRemaining == Min(r.remaining, if r.limit > 0 then r.limit else c.q.bucketLimit)
    && d.q.bucketLimit == (if r.limit > 0 then r.limit else c.q.bucketLimit)
    && d.q.calibrated
    && (forall b :: b in c.tickets && b != r.appliance ==> b in d.tickets && d.tickets[b] == c.tickets[b])
    && (d.tickets == Drop(c.tickets, r.appliance) || |d.ledger.issued| > |c.ledger.issued|)
  }

  lemma AcceptSettles(c: Cas, r: Report, now: Time)
    requires Matched(c, r) && r.remaining >= 0
    ensures Settled(c, r, Accept(c, r, now))
    ensures Accept(c, r, now).q.hist.refills == c.q.hist.refills
    ensures Accept(c, r, now).ledger.issued == c.ledger.issued
  {
    var q0 := Ticked(c.q, now);
    var q1 := Release(q0, r);
    Ref.RealignView(q1, r);
    hide Realign;
    Ref.ObserveView(Realign(q1, r), r);
    hide Observe;
    assert Settle(q0, r).calibrated by { SettleCounts(q0, r); }
  }

  /** What follows the settling within the same section only adds a ticket. */
  lemma KeptStaysSettled(c: Cas, r: Report, d: Cas, f: Cas)
    requires Settled(c, r, d) && Kept(d, f) && d.ledger.issued == c.ledger.issued
    requires d.tickets == Drop(c.tickets, r.appliance)
    ensures Settled(c, r, f)
  {
  }

  lemma AcceptDropsTicket(c: Cas, r: Report, now: Time)
    ensures Accept(c, r, now).tickets == Drop(c.tickets, r.appliance)
    ensures r.appliance !in Accept(c, r, now).tickets
  {
    hide Settle, NotePenalty;
  }

  lemma AdmitSettles(c: Cas, r: Report, now: Time)
    requires Matched(c, r) && r.status != 429 && r.remaining >= 0
    requires TryReportAndAcquire(c, r, now).0.q.hist.refills == c.q.hist.refills
    ensures Settled(c, r, TryReportAndAcquire(c, r, now).0)
  {
    hide Accept, Admit, TryReportAndAcquire, AddDemand, Matched, Settled, Kept, Drop, NextClass;
    var d := Accept(c, r, now);
    AcceptSettles(c, r, now);
    AcceptDropsTicket(c, r, now);
    CombinedAdmits(c, r, now);
    BookingKeepsBelief(d.q, NextClass(r), 1 + r.backlog);
    var booked := d.(q := AddDemand(d.q, NextClass(r), 1 + r.backlog));
    AdmitKeeps(booked, r.appliance, NextClass(r), r.backlog, now);
    KeptAfterBooking(d, booked.q, TryReportAndAcquire(c, r, now).0);
    KeptStaysSettled(c, r, d, TryReportAndAcquire(c, r, now).0);
  }

  lemma KeptAfterBooking(d: Cas, q: Quota, f: Cas)
    requires Kept(d.(q := q), f)
    requires q.localRemaining == d.q.localRemaining && q.bucketLimit == d.q.bucketLimit
    requires q.calibrated == d.q.calibrated
    ensures Kept(d, f)
  {
  }

  lemma CombinedSettles(c: Cas, r: Report, now: Time)
    requires Matched(c, r) && r.remaining >= 0
    requires TryReportAndAcquire(c, r, now).0.q.hist.refills == c.q.hist.refills
    ensures Settled(c, r, TryReportAndAcquire(c, r, now).0)
  {
    hide Accept, TryReportAndAcquire, Settled, Matched;
    if r.status == 429 {
      CombinedRefuses(c, r, now);
      AcceptSettles(c, r, now);
    } else {
      AdmitSettles(c, r, now);
    }
  }

  lemma BookingKeepsBelief(q: Quota, k: PriorityClass, n: int)
    ensures var s := AddDemand(q, k, n);
      && s.localRemaining == q.localRemaining && s.bucketLimit == q.bucketLimit
      && s.calibrated == q.calibrated && s.hist == q.hist
  {
  }

  lemma ReportedIsNonNegative(w: World, e: Event)
    requires Safe(w) && InsideView(w, Server(e)) && Settles(w.c, e)
    ensures ReportOf(e).value.remaining >= 0
    ensures Next(w.c, e).q.hist.refills == w.c.q.hist.refills
  {
    hide Inv, Next, Settles;
  }

  lemma EventSettles(w: World, e: Event)
    requires Safe(w) && InsideView(w, Server(e)) && Settles(w.c, e)
    ensures Settled(w.c, ReportOf(e).value, Next(w.c, e))
  {
    hide TryReportAndAcquire, Accept, Safe, InsideView, Inv;
    var r := ReportOf(e).value;
    ReportedIsNonNegative(w, e);
    if e.act.Combined? {
      CombinedSettles(w.c, r, e.now);
    } else {
      AcceptSettles(w.c, r, e.now);
    }
  }

  lemma EventKeeps(w: World, e: Event)
    requires Safe(w) && InsideView(w, Server(e)) && !Settles(w.c, e)
    ensures Kept(w.c, Next(w.c, e))
  {
    hide TryAcquire, Dispatch, TryReportAndAcquire, Inv;
    match e.act
    case Acquire(req) => AcquireKeeps(w.c, req, e.now);
    case Settlement(r) => UnmatchedChangesNothing(w.c, e);
    case Combined(r) => UnmatchedChangesNothing(w.c, e);
    case DispatchOne => DispatchKeeps(w.c, e.now);
    case _ =>
  }

  // ---- the invariant over the segment ----

  lemma AnswersFit(served: seq<Response>, tickets: map<ApplianceId, Ticket>, bucket: int)
    requires AnswersInOrder(served, bucket, tickets)
    ensures |served| <= |tickets|
    ensures (exists a :: a in tickets && forall i :: 0 <= i < |served| ==> served[i].appliance != a)
      ==> |served| < |tickets|
  {
    var names := Names(served);
    NamesCount(served);
    assert names <= tickets.Keys;
    SubsetCount(names, tickets.Keys);
    assert |tickets.Keys| == |tickets|;
    if a :| a in tickets && forall i :: 0 <= i < |served| ==> served[i].appliance != a {
      assert names <= tickets.Keys - {a};
      SubsetCount(names, tickets.Keys - {a});
    }
  }

  lemma {:induction false} SubsetCount(a: set<ApplianceId>, b: set<ApplianceId>)
    requires a <= b
    ensures |a| <= |b|
  {
    assert b == a + (b - a);
  }

  function Names(served: seq<Response>): set<ApplianceId> {
    set i | 0 <= i < |served| :: served[i].appliance
  }

  lemma NamesGrow(front: seq<Response>, last: Response)
    ensures Names(front + [last]) == Names(front) + {last.appliance}
  {
    var served := front + [last];
    forall a | a in Names(front) ensures a in Names(served) {
      var i :| 0 <= i < |front| && front[i].appliance == a;
      assert served[i].appliance == a;
    }
    assert served[|front|] == last;
    assert last.appliance in Names(served);
    forall a | a in Names(served) ensures a in Names(front) + {last.appliance} {
      var i :| 0 <= i < |served| && served[i].appliance == a;
      if i < |front| {
        assert front[i].appliance == a;
      }
    }
  }

  lemma {:induction false} NamesCount(served: seq<Response>)
    requires forall i, j :: 0 <= i < j < |served| ==> served[i].appliance != served[j].appliance
    ensures |Names(served)| == |served|
  {
    if served != [] {
      var n := |served| - 1;
      assert served == served[..n] + [served[n]];
      NamesGrow(served[..n], served[n]);
      NamesCount(served[..n]);
      assert served[n].appliance !in Names(served[..n]);
      hide Names;
    }
  }

  /** Upstream always has a unit for a ticket it has not served. */
  lemma ServeIsAffordable(w: World, a: ApplianceId)
    requires Safe(w) && a in w.c.tickets && !Answered(w, a)
    ensures w.bucket > 0
  {
    AnswersFit(w.served, w.c.tickets, w.bucket);
  }

  lemma ServeHolds(w: World, a: ApplianceId)
    requires Safe(w)
    ensures Safe(Move(w, Serve(a))) && Move(w, Serve(a)).refused == w.refused
    ensures Accurate(w) ==> Accurate(Move(w, Serve(a)))
  {
    if a in w.c.tickets && !Answered(w, a) {
      ServeIsAffordable(w, a);
      hide Inv;
    }
  }

  /** A ticket issued by the event is covered by what the server believes in. */
  lemma IssueIsCovered(c: Cas, e: Event)
    requires Inv(c) && c.q.hist.clock <= e.now && Next(c, e).q.calibrated
    requires |Next(c, e).ledger.issued| > |c.ledger.issued|
    ensures |Next(c, e).tickets| <= Next(c, e).q.localRemaining
  {
    EveryGrantIsJustified(c, e);
    NextHolds(c, e);
    assert Next(c, e).q.inFlight == |Next(c, e).tickets|;
  }

  lemma AnswersShift(served: seq<Response>, bucket: int,
      tickets: map<ApplianceId, Ticket>, after: map<ApplianceId, Ticket>)
    requires AnswersInOrder(served, bucket, tickets) && served != []
    requires forall b :: b in tickets && b != served[0].appliance ==> b in after && after[b] == tickets[b]
    ensures AnswersInOrder(served[1..], bucket, after)
  {
  }

  lemma SettlingIsSafe(w: World, r: Report, v: World)
    requires Safe(w) && Settled(w.c, r, v.c) && w.served != []
    requires r.appliance == w.served[0].appliance && r.remaining == w.served[0].remaining
    requires r.appliance in w.c.tickets && Inv(v.c) && v.bucket == w.bucket && v.served == w.served[1..]
    requires v.c.tickets == Drop(w.c.tickets, r.appliance) || |v.c.tickets| <= v.c.q.localRemaining
    ensures Safe(v)
    ensures Accurate(w) && (r.limit <= 0 || r.limit >= r.remaining) ==> Accurate(v)
  {
    hide Inv;
    DropShrinks(w.c.tickets, {r.appliance});
    assert r.remaining == w.bucket + |w.served| - 1;
    AnswersShift(w.served, w.bucket, w.c.tickets, v.c.tickets);
    hide AnswersInOrder;
  }

  lemma SettleMoveHolds(w: World, e: Event)
    requires Safe(w) && InsideView(w, Server(e)) && Settles(w.c, e)
    ensures Safe(Move(w, Server(e)))
    ensures Accurate(w) && LimitCovers(w, Server(e)) ==> Accurate(Move(w, Server(e)))
  {
    var r := ReportOf(e).value;
    var d := Next(w.c, e);
    EventSettles(w, e);
    NextHolds(w.c, e);
    assert w.served != [] && r.appliance in w.c.tickets;
    hide Next, Inv, Accurate;
    if |d.ledger.issued| > |w.c.ledger.issued| {
      IssueIsCovered(w.c, e);
    }
    SettlingIsSafe(w, r, Move(w, Server(e)));
    hide Safe;
  }

  lemma KeepingIsSafe(w: World, v: World)
    requires Safe(w) && Kept(w.c, v.c) && Inv(v.c) && v.bucket == w.bucket && v.served == w.served
    requires v.c.tickets == w.c.tickets || |v.c.tickets| <= v.c.q.localRemaining
    ensures Safe(v)
    ensures Accurate(w) ==> Accurate(v)
  {
    hide Inv;
  }

  lemma OtherMoveHolds(w: World, e: Event)
    requires Safe(w) && InsideView(w, Server(e)) && !Settles(w.c, e)
    ensures Safe(Move(w, Server(e)))
    ensures Accurate(w) ==> Accurate(Move(w, Server(e)))
  {
    EventKeeps(w, e);
    NextHolds(w.c, e);
    hide Next, Inv, Accurate;
    if |Next(w.c, e).ledger.issued| > |w.c.ledger.issued| {
      IssueIsCovered(w.c, e);
    }
    KeepingIsSafe(w, Move(w, Server(e)));
    hide Safe;
  }

  lemma MoveHolds(w: World, ev: WorldEvent)
    requires Safe(w) && InsideView(w, ev)
    ensures Safe(Move(w, ev)) && Move(w, ev).refused == w.refused
    ensures Accurate(w) && LimitCovers(w, ev) ==> Accurate(Move(w, ev))
  {
    hide Safe, Accurate, InsideView, LimitCovers, Next, Settles;
    match ev
    case Serve(a) => ServeHolds(w, a);
    case Server(e) =>
      if Settles(w.c, e) {
        SettleMoveHolds(w, e);
      } else {
        OtherMoveHolds(w, e);
      }
  }

  /** Belief and truth compared: what the server still may grant, and what upstream can still serve. */
  lemma HeadroomIsSafe(w: World)
    requires Safe(w)
    ensures w.c.q.localRemaining - w.c.q.inFlight <= w.bucket - Unserved(w)
    ensures w.bucket - Unserved(w) >= 0
    ensures Accurate(w) ==> w.c.q.localRemaining - w.c.q.inFlight == w.bucket - Unserved(w)
  {
  }

  /**
   * No over-dispatch inside one view: from a safe start, through any
   * interleaving of requests, queue grants, upstream service, reports and
   * penalties, the server never believes in more than upstream can still serve,
   * and upstream never refuses a ticket.
   */
  lemma {:induction false} NoOverDispatchInsideView(w: World, evs: seq<WorldEvent>)
    requires Safe(w) && InsideViewAll(w, evs)
    ensures var v := MoveAll(w, evs);
      && v.c.q.localRemaining - v.c.q.inFlight <= v.bucket - Unserved(v)
      && v.bucket - Unserved(v) >= 0
      && v.refused == w.refused
      && (forall a :: a in v.c.tickets && !Answered(v, a) ==> v.bucket > 0)
    decreases evs
  {
    hide Safe, Accurate, InsideView, Move, Answered, Unserved;
    if evs == [] {
      HeadroomIsSafe(w);
      forall a | a in w.c.tickets && !Answered(w, a) ensures w.bucket > 0 {
        ServeIsAffordable(w, a);
      }
    } else {
      MoveHolds(w, evs[0]);
      NoOverDispatchInsideView(Move(w, evs[0]), evs[1..]);
    }
  }

  /**
   * Exact headroom: from an accurate start, while no report names a limit below
   * its own remaining, the server's headroom is at every point the true remaining
   * less the requests granted and not yet served.
   */
  lemma {:induction false} HeadroomStaysExact(w: World, evs: seq<WorldEvent>)
    requires Accurate(w) && InsideViewAll(w, evs) && LimitsCover(w, evs)
    ensures var v := MoveAll(w, evs);
      v.c.q.localRemaining - v.c.q.inFlight == v.bucket - Unserved(v) >= 0
    decreases evs
  {
    AccurateIsSafe(w);
    hide Safe, Accurate, InsideView, LimitCovers, Move, Unserved;
    if evs == [] {
      HeadroomIsSafe(w);
    } else {
      MoveHolds(w, evs[0]);
      HeadroomStaysExact(Move(w, evs[0]), evs[1..]);
    }
  }

  lemma AccurateIsSafe(w: World)
    requires Accurate(w)
    ensures Safe(w)
  {
  }

  /** An accurate start: a calibrated server whose belief equals upstream's bucket, with nothing answered. */
  lemma FreshViewIsAccurate(c: Cas)
    requires Inv(c) && c.q.calibrated && Ref.WithinLimit(c.q)
    requires 0 <= c.q.inFlight <= c.q.localRemaining
    ensures Accurate(World(c, c.q.localRemaining, [], 0))
  {
  }

  /**
   * A calibrated server that has just learnt the true remaining, with nothing
   * answered yet, never over-dispatches inside that view.
   */
  lemma {:induction false} FreshViewNeverOverDispatches(c: Cas, evs: seq<WorldEvent>)
    requires Inv(c) && c.q.calibrated && Ref.WithinLimit(c.q)
    requires 0 <= c.q.inFlight <= c.q.localRemaining
    requires InsideViewAll(World(c, c.q.localRemaining, [], 0), evs)
    ensures MoveAll(World(c, c.q.localRemaining, [], 0), evs).refused == 0
  {
    hide InsideViewAll, MoveAll, Accurate, Safe, Inv;
    var w := World(c, c.q.localRemaining, [], 0);
    FreshViewIsAccurate(c);
    AccurateIsSafe(w);
    NoOverDispatchInsideView(w, evs);
  }
}
