/** Penalties over runs: when one is served to its end, and when a later one cuts it short. */
module PenaltyRuns {
  import opened Clock
  import opened Optional
  import opened ClassSplit
  import opened AgingQueue
  import opened QuotaModel
  import opened QuotaInvariant
  import opened EngineModel
  import opened EngineInvariant
  import opened EngineTheorems
  import Pen = Penalty
  import Rate = RateBound

  // ---- a penalty that is not undercut ----

  /** Every penalty announced in the run ends at or after end. */
  predicate NoneEndsSooner(c: Cas, evs: seq<Event>, end: Time)
    decreases evs
  {
    evs == [] ||
    (&& (AnnouncedPenalty(c, evs[0]).Some? ==> AnnouncedPenalty(c, evs[0]).value >= end)
     && NoneEndsSooner(Next(c, evs[0]), evs[1..], end))
  }

  predicate AllBefore(evs: seq<Event>, end: Time) {
    forall i :: 0 <= i < |evs| ==> evs[i].now < end
  }

  predicate Issues(c: Cas, evs: seq<Event>) {
    |Exec(c, evs).ledger.issued| > |c.ledger.issued|
  }

  /** The penalty in force ends at or after end. */
  predicate PenaltyUntil(q: Quota, end: Time) {
    q.hist.lastPenaltyEnd.Some? && q.hist.lastPenaltyEnd.value >= end
  }

  lemma HeldStep(c: Cas, e: Event, end: Time)
    requires Inv(c) && c.q.hist.clock <= e.now < end && PenaltyUntil(c.q, end)
    requires AnnouncedPenalty(c, e).Some? ==> AnnouncedPenalty(c, e).value >= end
    ensures PenaltyUntil(Next(c, e).q, end) && Next(c, e).ledger.issued == c.ledger.issued
    ensures Inv(Next(c, e)) && Next(c, e).q.hist.clock == e.now
  {
    NextHolds(c, e);
    hide Next, AnnouncedPenalty;
    EventPenalty(c, e);
    IssuesAreRecorded(c, e);
    if |Next(c, e).ledger.issued| > |c.ledger.issued| {
      EveryGrantIsJustified(c, e);
    }
  }

  /** Until a penalty's end no ticket is issued, provided that no penalty announced meanwhile ends sooner. */
  lemma {:induction false} PenaltyHoldsOverRuns(c: Cas, evs: seq<Event>, end: Time)
    requires Inv(c) && Timed(c.q.hist.clock, evs) && PenaltyUntil(c.q, end)
    requires NoneEndsSooner(c, evs, end) && AllBefore(evs, end)
    ensures !Issues(c, evs)
    decreases evs
  {
    hide Inv, Next, AnnouncedPenalty, PenaltyUntil;
    if evs != [] {
      HeldStep(c, evs[0], end);
      PenaltyHoldsOverRuns(Next(c, evs[0]), evs[1..], end);
    }
  }

  /** How long the penalty of a report is: its Retry-After, or the learned window without one. */
  ghost function PenaltySeconds(c: Cas, r: Report): (n: int)
    ensures Inv(c) ==> n >= 1
  {
    if r.retryAfter > 0 then r.retryAfter else c.q.sustainedWindowSec
  }

  /**
   * A penalty of n seconds is served in full: from an accepted 429 no ticket is
   * issued for n seconds, whatever happens, unless a later 429 ends sooner.
   */
  lemma {:induction false} RetryAfterIsServed(c: Cas, e: Event, evs: seq<Event>)
    requires Inv(c) && Timed(c.q.hist.clock, [e] + evs)
    requires AnnouncedPenalty(c, e).Some? && PenaltySeconds(c, ReportOf(e).value) <= MAX_SECONDS
    requires var end := e.now + PenaltySeconds(c, ReportOf(e).value) * SECOND;
      AllBefore(evs, end) && NoneEndsSooner(Next(c, e), evs, end)
    ensures Exec(c, [e] + evs).ledger.issued == c.ledger.issued
  {
    hide Next, NoneEndsSooner, Inv, Exec, Timed;
    AnnouncedInFull(c, e);
    PenaltyIsServed(c, e, evs, e.now + PenaltySeconds(c, ReportOf(e).value) * SECOND);
  }

  lemma AnnouncedInFull(c: Cas, e: Event)
    requires Inv(c) && AnnouncedPenalty(c, e).Some? && PenaltySeconds(c, ReportOf(e).value) <= MAX_SECONDS
    ensures AnnouncedPenalty(c, e) == Some(e.now + PenaltySeconds(c, ReportOf(e).value) * SECOND)
  {
    SecondsBoundary();
  }

  lemma {:induction false} PenaltyIsServed(c: Cas, e: Event, evs: seq<Event>, end: Time)
    requires Inv(c) && Timed(c.q.hist.clock, [e] + evs)
    requires AnnouncedPenalty(c, e) == Some(end)
    requires AllBefore(evs, end) && NoneEndsSooner(Next(c, e), evs, end)
    ensures Exec(c, [e] + evs).ledger.issued == c.ledger.issued
  {
    hide Next, AnnouncedPenalty, Inv, NoneEndsSooner, ReportOf, AllBefore;
    assert ([e] + evs)[1..] == evs;
    ReportIssuesNothing(c, e);
    NextHolds(c, e);
    EventPenalty(c, e);
    PenaltyHoldsOverRuns(Next(c, e), evs, end);
    IssuedGrowsOverRuns(Next(c, e), evs);
  }

  lemma ReportIssuesNothing(c: Cas, e: Event)
    requires AnnouncedPenalty(c, e).Some?
    ensures Next(c, e).ledger.issued == c.ledger.issued
  {
    hide Settle, NotePenalty;
  }

  // ---- a penalty that is undercut ----

  /** A report with no headers for the ticket an appliance holds. */
  function PlainReport(c: Cas, a: ApplianceId, x: Time): Event
    requires a in c.tickets
  {
    Event(x, Settlement(Report(c.tickets[a].token, a, Medium, 0, x, -1, 0, 0, 200, 0)))
  }

  /** What plain reports leave alone. */
  predicate SamePenalty(c: Cas, d: Cas) {
    && d.q.lockdownActive == c.q.lockdownActive && d.q.lockdownUntil == c.q.lockdownUntil
    && d.waiting == c.waiting && d.ledger.issued == c.ledger.issued
  }

  lemma PlainReportKeepsPenalty(c: Cas, a: ApplianceId, x: Time)
    requires Inv(c) && c.q.hist.clock <= x && a in c.tickets && c.q.lockdownActive
    ensures var d := Next(c, PlainReport(c, a, x));
      && SamePenalty(c, d) && d.tickets == c.tickets - {a} && Inv(d) && d.q.hist.clock == x
    ensures AnnouncedPenalty(c, PlainReport(c, a, x)).None?
  {
    var e := PlainReport(c, a, x);
    var r := ReportOf(e).value;
    NextHolds(c, e);
    Rate.SettleFrame(Ticked(c.q, x), r);
    assert Sound(c.q) && Sound(Next(c, e).q);
    hide Settle, Inv;
    assert Next(c, e).q == Ticked(Settle(Ticked(c.q, x), r), x);
  }

  predicate AllAt(evs: seq<Event>, x: Time) {
    forall i :: 0 <= i < |evs| ==> evs[i].now == x
  }

  /** Whoever holds a ticket may report at once: a run that settles them all without another 429. */
  lemma {:induction false} SettleAll(c: Cas, x: Time, end: Time) returns (evs: seq<Event>)
    requires Inv(c) && c.q.hist.clock <= x && c.q.lockdownActive
    ensures Timed(c.q.hist.clock, evs) && AllAt(evs, x) && NoneEndsSooner(c, evs, end)
    ensures var d := Exec(c, evs);
      && SamePenalty(c, d) && d.tickets == map[] && Inv(d) && d.q.hist.clock <= x
    decreases |c.tickets|
  {
    hide Inv, Next, AnnouncedPenalty;
    if c.tickets == map[] {
      evs := [];
    } else {
      var a :| a in c.tickets;
      var e := PlainReport(c, a, x);
      PlainReportKeepsPenalty(c, a, x);
      DropShrinks(c.tickets, {a});
      var rest := SettleAll(Next(c, e), x, end);
      evs := [e] + rest;
      assert evs[1..] == rest;
    }
  }

  /** With no ticket out, a penalty that is over lets the next request through. */
  lemma GrantAfterPenalty(c: Cas, a: ApplianceId, x: Time)
    requires Inv(c) && c.q.hist.clock <= x && c.tickets == map[] && !HasAppliance(c.waiting, a)
    requires c.q.lockdownActive && c.q.lockdownUntil <= x
    ensures Issues(c, [Event(x, Acquire(AcquireRequest(a, Medium, 0)))])
  {
    var req := AcquireRequest(a, Medium, 0);
    var e := Event(x, Acquire(req));
    ExecOne(c, e);
    BookHolds(c, Medium, 1, x);
    var q := AddDemand(Ticked(c.q, x), Medium, 1);
    assert q.inFlight == 0 < q.bucketLimit;
    Pen.ServedPenaltyResetsBoth(q, x);
    AcquireAdmits(c, req, x);
    hide CanDispatch, AddDemand, TryAcquire, Exec;
  }

  lemma AcceptedLocks(c: Cas, e: Event)
    requires AnnouncedPenalty(c, e).Some?
    ensures Next(c, e).q.lockdownActive && Next(c, e).waiting == c.waiting
  {
    hide Settle, Seconds, Halved;
  }

  lemma LockedUntilPenaltyEnd(c: Cas)
    requires Inv(c) && c.q.lockdownActive
    ensures c.q.hist.lastPenaltyEnd == Some(c.q.lockdownUntil)
  {
  }

  lemma AnnouncerHoldsTicket(c: Cas, e: Event)
    requires AnnouncedPenalty(c, e).Some?
    ensures ReportOf(e).Some? && ReportOf(e).value.appliance in c.tickets
  {
  }

  lemma AcceptedPenalty(c: Cas, e: Event)
    requires Inv(c) && c.q.hist.clock <= e.now && AnnouncedPenalty(c, e).Some?
    ensures var d := Next(c, e);
      && Inv(d) && d.q.hist.clock == e.now && d.q.lockdownActive
      && Some(d.q.lockdownUntil) == AnnouncedPenalty(c, e)
    ensures ReportOf(e).Some? && !HasAppliance(Next(c, e).waiting, ReportOf(e).value.appliance)
  {
    hide Inv, Next, AnnouncedPenalty, ReportOf;
    NextHolds(c, e);
    AcceptedLocks(c, e);
    LockedUntilPenaltyEnd(Next(c, e));
    EventPenalty(c, e);
    AnnouncerHoldsTicket(c, e);
    HoldersDoNotWait(c, ReportOf(e).value.appliance);
  }

  lemma {:induction false} AppendQuiet(c: Cas, evs: seq<Event>, e: Event, end: Time)
    requires NoneEndsSooner(c, evs, end) && e.act.Acquire?
    ensures NoneEndsSooner(c, evs + [e], end)
    decreases evs
  {
    hide Next;
    if evs == [] {
      assert evs + [e] == [e];
      assert [e][1..] == [];
    } else {
      assert (evs + [e])[1..] == evs[1..] + [e];
      AppendQuiet(Next(c, evs[0]), evs[1..], e, end);
    }
  }

  lemma {:induction false} GrantBefore(c: Cas, a: ApplianceId, end: Time) returns (evs: seq<Event>)
    requires Inv(c) && c.q.hist.clock < end && !HasAppliance(c.waiting, a)
    requires c.q.lockdownActive && c.q.lockdownUntil < end
    ensures Timed(c.q.hist.clock, evs) && AllBefore(evs, end) && NoneEndsSooner(c, evs, end) && Issues(c, evs)
  {
    hide Inv, Next, HasAppliance, Exec, NoneEndsSooner, Timed;
    var x := if c.q.lockdownUntil < c.q.hist.clock then c.q.hist.clock else c.q.lockdownUntil;
    var front := SettleAll(c, x, end);
    var last := Event(x, Acquire(AcquireRequest(a, Medium, 0)));
    GrantAfterPenalty(Exec(c, front), a, x);
    evs := front + [last];
    ExecConcat(c, front, [last]);
    OneEventIsTimed(Exec(c, front).q.hist.clock, last);
    AppendQuiet(c, front, last, end);
  }

  lemma OneEventIsTimed(from: Time, e: Event)
    ensures Timed(from, [e]) <==> from <= e.now
  {
    assert [e][1..] == [];
  }

  /**
   * A 429 whose penalty ends sooner than end leads to a ticket before end, by a
   * run with no further 429: every holder reports, and the appliance asks again.
   */
  lemma {:induction false} UndercutPenaltyIssues(c: Cas, e: Event, end: Time) returns (evs: seq<Event>)
    requires Inv(c) && c.q.hist.clock <= e.now < end
    requires AnnouncedPenalty(c, e).Some? && AnnouncedPenalty(c, e).value < end
    ensures Timed(e.now, evs) && AllBefore(evs, end) && NoneEndsSooner(Next(c, e), evs, end)
    ensures Issues(Next(c, e), evs)
  {
    hide Inv, Next, AnnouncedPenalty, HasAppliance, ReportOf, Issues, NoneEndsSooner, Timed, AllBefore;
    AcceptedPenalty(c, e);
    evs := GrantBefore(Next(c, e), ReportOf(e).value.appliance, end);
  }

  /**
   * A 429 accepted while a penalty runs until end keeps that end safe, over every
   * continuation in which no further 429 ends sooner, if and only if its own
   * penalty does not end sooner either.
   */
  lemma {:induction false} EarlierPenaltyStillHolds(c: Cas, e: Event, end: Time)
    requires Inv(c) && c.q.lockdownActive && end == c.q.lockdownUntil
    requires c.q.hist.clock <= e.now < end && AnnouncedPenalty(c, e).Some?
    ensures (forall evs | Timed(e.now, evs) && AllBefore(evs, end) && NoneEndsSooner(Next(c, e), evs, end) ::
               !Issues(Next(c, e), evs))
       <==> AnnouncedPenalty(c, e).value >= end
  {
    hide Inv, Next, AnnouncedPenalty, Issues, NoneEndsSooner, Timed;
    AcceptedPenalty(c, e);
    EventPenalty(c, e);
    if AnnouncedPenalty(c, e).value >= end {
      forall evs | Timed(e.now, evs) && AllBefore(evs, end) && NoneEndsSooner(Next(c, e), evs, end)
        ensures !Issues(Next(c, e), evs)
      {
        PenaltyHoldsOverRuns(Next(c, e), evs, end);
      }
    } else {
      var evs := UndercutPenaltyIssues(c, e, end);
      assert Issues(Next(c, e), evs);
    }
  }
}
