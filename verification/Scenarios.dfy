/** Runs from a fresh server that show what the code does not promise. */
module Scenarios {
  import opened Clock
  import opened ClassSplit
  import opened AgingQueue
  import opened QuotaModel
  import opened QuotaInvariant
  import opened EngineModel
  import opened EngineInvariant
  import opened EngineTheorems
  import opened PenaltyRuns
  import Ref = Refill

  function Ask(a: ApplianceId, now: Time): Event {
    Event(now, Acquire(AcquireRequest(a, Medium, 0)))
  }

  function Answer(a: ApplianceId, token: Token, now: Time,
      remaining: int, limit: int, status: int, retryAfter: int): Event
  {
    Event(now, Settlement(Report(token, a, Medium, 0, now, remaining, limit, 0, status, retryAfter)))
  }

  lemma ColdAskAdmits(c: Cas, a: ApplianceId, now: Time)
    requires !c.q.calibrated && c.q.localRemaining > 0 && !c.q.lockdownActive
    ensures var d := Admit(c, a, Medium, 0, now).0;
      && d.tickets.Keys == c.tickets.Keys + {a} && d.tickets[a].token == c.nextToken
      && (forall x :: x in c.tickets && x != a ==> d.tickets[x] == c.tickets[x])
      && d.nextToken == c.nextToken + 1 && d.waiting == c.waiting && !d.q.calibrated
  {
    hide Refresh, Roll;
  }

  /** One cold-start request: its ticket takes the next token. */
  lemma ColdAsk(c: Cas, a: ApplianceId, now: Time)
    requires Inv(c) && c.q.hist.clock <= now && !c.q.calibrated && a !in c.tickets && c.waiting == []
    ensures var d := Next(c, Ask(a, now));
      && Inv(d) && d.q.hist.clock == now && !d.q.calibrated && d.waiting == []
      && d.tickets.Keys == c.tickets.Keys + {a} && d.tickets[a].token == c.nextToken
      && (forall x :: x in c.tickets && x != a ==> d.tickets[x] == c.tickets[x])
      && d.nextToken == c.nextToken + 1
  {
    ColdState(c);
    NextHolds(c, Ask(a, now));
    hide Admit, Inv, TryAcquire;
    AcquireAdmits(c, AcquireRequest(a, Medium, 0), now);
    ColdAskAdmits(c.(q := AddDemand(Ticked(c.q, now), Medium, 1)), a, now);
  }

  /** Two appliances ask at a cold start and hold tokens 0 and 1. */
  lemma TwoAsk(s: Cas, a: ApplianceId, b: ApplianceId, now: Time)
    requires Inv(s) && s.q.hist.clock == now && !s.q.calibrated && a != b
    requires s.tickets == map[] && s.waiting == [] && s.nextToken == 0
    ensures var c := Next(Next(s, Ask(a, now)), Ask(b, now));
      && Inv(c) && c.q.hist.clock == now && !c.q.calibrated && c.waiting == []
      && c.tickets.Keys == {a, b} && c.tickets[a].token == 0 && c.tickets[b].token == 1
  {
    hide Next, Inv, Ask;
    ColdAsk(s, a, now);
    ColdAsk(Next(s, Ask(a, now)), b, now);
  }

  lemma FreshStart(raw: Config, omega: real, maxQueue: int, boot: Time)
    ensures var s := Start(raw, omega, maxQueue, boot);
      && Inv(s) && s.q.hist.clock == boot && !s.q.calibrated
      && s.tickets == map[] && s.waiting == [] && s.nextToken == 0
  {
    StartHolds(raw, omega, maxQueue, boot);
  }

  lemma ExecTwo(c: Cas, e1: Event, e2: Event)
    ensures Exec(c, [e1, e2]) == Next(Next(c, e1), e2)
  {
    hide Next;
    assert [e1, e2] == [e1] + [e2];
    ExecConcat(c, [e1], [e2]);
    ExecOne(c, e1);
    ExecOne(Next(c, e1), e2);
  }

  lemma TwoTickets(raw: Config, omega: real, maxQueue: int, boot: Time) returns (c: Cas)
    ensures c == Exec(Start(raw, omega, maxQueue, boot), [Ask("a", boot), Ask("b", boot)])
    ensures Inv(c) && c.q.hist.clock == boot && !c.q.calibrated && c.waiting == []
    ensures c.tickets.Keys == {"a", "b"} && c.tickets["a"].token == 0 && c.tickets["b"].token == 1
  {
    hide Start, Next, Inv, Exec, Ask;
    var s := Start(raw, omega, maxQueue, boot);
    FreshStart(raw, omega, maxQueue, boot);
    TwoAsk(s, "a", "b", boot);
    ExecTwo(s, Ask("a", boot), Ask("b", boot));
    c := Next(Next(s, Ask("a", boot)), Ask("b", boot));
  }

  /** The cold start is not limited to one ticket: two requests, two tickets. */
  lemma ColdStartIssuesSeveral(raw: Config, omega: real, maxQueue: int, boot: Time)
    ensures |Exec(Start(raw, omega, maxQueue, boot), [Ask("a", boot), Ask("b", boot)]).tickets| == 2
  {
    hide Start, Inv, Exec, Ask;
    var c := TwoTickets(raw, omega, maxQueue, boot);
    assert |c.tickets| == |c.tickets.Keys|;
  }

  /** A holder's 429: the penalty is in force and the other tickets stay. */
  lemma PenalisedAnswer(c: Cas, a: ApplianceId, now: Time, n: int)
    requires Inv(c) && c.q.hist.clock <= now && a in c.tickets && 0 < n <= MAX_SECONDS
    ensures var e := Answer(a, c.tickets[a].token, now, 0, 1, 429, n);
            var d := Next(c, e);
      && AnnouncedPenalty(c, e).Some?
      && Inv(d) && d.q.hist.clock == now && d.q.lockdownActive && d.q.lockdownUntil == now + n * SECOND
      && d.tickets == c.tickets - {a} && d.waiting == c.waiting
  {
    var e := Answer(a, c.tickets[a].token, now, 0, 1, 429, n);
    var r := ReportOf(e).value;
    assert AnnouncedPenalty(c, e).Some?;
    AcceptedLocks(c, e);
    AnsweredTickets(c, e);
    AcceptedPenalty(c, e);
    AnnouncedInFull(c, e);
  }

  lemma AnsweredTickets(c: Cas, e: Event)
    requires e.act.Settlement? && Matched(c, e.act.r)
    ensures Next(c, e).tickets == c.tickets - {e.act.r.appliance}
  {
    hide Settle, NotePenalty;
  }

  /**
   * A penalty of 900 seconds is announced, then one of a single second: a second
   * later the server issues a ticket, although the first penalty would still run.
   */
  lemma LaterPenaltyCanEndSooner(raw: Config, omega: real, maxQueue: int, boot: Time)
    ensures var s := Start(raw, omega, maxQueue, boot);
            var c := Exec(s, [Ask("a", boot), Ask("b", boot)] + [Answer("a", 0, boot, 0, 1, 429, 900)]);
            var d := Exec(c, [Answer("b", 1, boot, 0, 1, 429, 1)]);
      && c.q.lockdownActive && c.q.lockdownUntil == boot + 900 * SECOND
      && Issues(d, [Ask("a", boot + SECOND)])
  {
    var s := Start(raw, omega, maxQueue, boot);
    hide Start, Next, Inv, Exec, Issues;
    var c0 := TwoTickets(raw, omega, maxQueue, boot);
    var e1, e2 := Answer("a", 0, boot, 0, 1, 429, 900), Answer("b", 1, boot, 0, 1, 429, 1);
    PenalisedAnswer(c0, "a", boot, 900);
    var c := Next(c0, e1);
    assert c.tickets.Keys == {"b"} && c.tickets["b"].token == 1;
    PenalisedAnswer(c, "b", boot, 1);
    var d := Next(c, e2);
    assert d.tickets == map[];
    ExecConcat(s, [Ask("a", boot), Ask("b", boot)], [e1]);
    ExecOne(c0, e1);
    ExecOne(c, e2);
    GrantAfterPenalty(d, "a", boot + SECOND);
  }

  lemma CalibratingAnswer(c: Cas, now: Time)
    requires Inv(c) && c.q.hist.clock <= now && !c.q.calibrated && "a" in c.tickets && c.tickets["a"].token == 0
    ensures var d := Next(c, Answer("a", 0, now, 40, 50, 200, 0));
      && Inv(d) && d.q.hist.clock == now && d.q.calibrated && d.q.localRemaining == 40 && d.q.bucketLimit == 50
      && d.tickets == c.tickets - {"a"}
  {
    var e := Answer("a", 0, now, 40, 50, 200, 0);
    NextHolds(c, e);
    AnsweredTickets(c, e);
    CalibratingSettle(Ticked(c.q, now), e.act.r);
    hide Settle, Inv;
  }

  lemma CalibratingSettle(q: Quota, r: Report)
    requires !q.calibrated && r.remaining == 40 && r.limit == 50
    ensures var s := Settle(q, r); s.calibrated && s.localRemaining == 40 && s.bucketLimit == 50
  {
    var q1 := Release(q, r);
    Ref.RealignView(q1, r);
    hide Realign;
    Ref.ObserveView(Realign(q1, r), r);
    SettleCounts(q, r);
    hide Observe;
  }

  /**
   * The first response reports 40 of 50; a second one names a limit of 10 and no
   * remaining: the server goes on believing in 40.
   */
  lemma LimitCanFallBelowRemaining(raw: Config, omega: real, maxQueue: int, boot: Time)
    ensures var s := Start(raw, omega, maxQueue, boot);
            var c := Exec(s, [Ask("a", boot), Ask("b", boot)] + [Answer("a", 0, boot, 40, 50, 200, 0)]);
            var d := Exec(c, [Answer("b", 1, boot, -1, 10, 200, 0)]);
      Ref.WithinLimit(c.q) && c.q.localRemaining == 40 && !Ref.WithinLimit(d.q)
  {
    var s := Start(raw, omega, maxQueue, boot);
    var c0 := TwoTickets(raw, omega, maxQueue, boot);
    var e1, e2 := Answer("a", 0, boot, 40, 50, 200, 0), Answer("b", 1, boot, -1, 10, 200, 0);
    hide Start, Next, Exec, Inv;
    CalibratingAnswer(c0, boot);
    var c := Next(c0, e1);
    assert "b" in c.tickets && c.tickets["b"].token == 1;
    ExecConcat(s, [Ask("a", boot), Ask("b", boot)], [e1]);
    ExecOne(c0, e1);
    ExecOne(c, e2);
    LoweredLimit(c, e2);
  }

  lemma LoweredLimit(c: Cas, e: Event)
    requires Inv(c) && c.q.hist.clock <= e.now && c.q.calibrated && e.act.Settlement? && Matched(c, e.act.r)
    requires e.act.r.remaining < 0 && 0 < e.act.r.limit < c.q.localRemaining <= c.q.bucketLimit
    requires e.act.r.status != 429
    ensures !Ref.WithinLimit(Next(c, e).q)
  {
    var q := Ticked(c.q, e.now);
    OpKeepsSound(c.q, Tick(e.now));
    hide Settle, Sound;
    Ref.ReportKeepsWithinLimit(q, e.act.r);
    assert Next(c, e).q == Ticked(Settle(q, e.act.r), e.now);
  }
}
