/** When each path grants, and to whom: said by the state before the call, not by the functions it runs. */
module EngineLaws {
  import opened Clock
  import opened ClassSplit
  import opened AgingQueue
  import opened QuotaModel
  import opened QuotaLaws
  import opened EngineModel
  import opened EngineInvariant
  import opened EngineTrace
  import opened EngineTheorems

  // ---- the request paths ----

  /** The appliance holds a ticket or waits for one. */
  predicate Duplicate(c: Cas, a: ApplianceId) {
    a in c.tickets || HasAppliance(c.waiting, a)
  }

  lemma SoundIsCoupled(c: Cas)
    requires Inv(c)
    ensures Coupled(c.q)
  {
  }

  /**
   * The answer to a request, by the state before it: 409 for a duplicate, else a
   * ticket exactly when there is room, else a place in the queue exactly when it
   * is not full, else 503.
   */
  lemma AcquireAnswersByRoom(c: Cas, req: AcquireRequest, now: Time)
    requires Inv(c)
    ensures TryAcquire(c, req, now).1
         == if Duplicate(c, req.appliance) then Refused(409)
            else if MayDispatch(c.q, now) then Granted(c.nextToken)
            else if |c.waiting| < c.maxQueue then Queued(c.nextChan)
            else Refused(503)
  {
    SoundIsCoupled(c);
    hide Inv, Coupled, MayDispatch, TryAcquire, HasAppliance, CanDispatch, AddDemand;
    if Duplicate(c, req.appliance) {
      AcquireRefused(c, req, now);
    } else {
      AcquireAdmits(c, req, now);
      BookingKeepsRoom(c.q, req.class_, 1 + req.backlog, now);
    }
  }

  /**
   * Inside a running view, with room in a running sustained window, a new
   * request is granted exactly when fewer tickets are out than units reported.
   */
  lemma AcquireInsideView(c: Cas, req: AcquireRequest, now: Time)
    requires Inv(c) && !Duplicate(c, req.appliance) && c.q.calibrated && !c.q.lockdownActive
    requires c.q.windowActive && now < c.q.windowEnd
    requires c.q.sustainedEnd.Some? && now < c.q.sustainedEnd.value && c.q.sustainedUsed < c.q.sustainedLimit
    ensures TryAcquire(c, req, now).1.Granted? <==> |c.tickets| < c.q.localRemaining
  {
    AcquireAnswersByRoom(c, req, now);
    assert c.q.inFlight == |c.tickets|;
    hide TryAcquire, Duplicate, Inv;
  }

  /** The same answers for the combined call, by the state its report leaves. */
  lemma CombinedAnswersByRoom(c: Cas, r: Report, now: Time)
    requires Inv(c) && c.q.hist.clock <= now && Matched(c, r) && r.status != 429
    ensures var d := HandleReport(c, r, now).0;
      TryReportAndAcquire(c, r, now).1
      == if MayDispatch(d.q, now) then Granted(d.nextToken)
         else if |d.waiting| < d.maxQueue then Queued(d.nextChan)
         else Refused(503)
  {
    hide Inv, Accept, TryReportAndAcquire, TryAcquire, MayDispatch, HasAppliance, Matched;
    CombinedRefinesReportThenAcquire(c, r, now);
    AcceptFreesAppliance(c, r, now);
    AcceptHolds(c, r, now);
    AcquireAnswersByRoom(Accept(c, r, now),
                         AcquireRequest(r.appliance,
                                        if r.nextClass == Other("") then Medium else r.nextClass, r.backlog),
                         now);
  }

  /** A combined call that is queued waits last in line under the class it named, medium for none. */
  lemma CombinedQueuesNamedClass(c: Cas, r: Report, now: Time)
    requires Inv(c) && c.q.hist.clock <= now && Matched(c, r) && r.status != 429
    requires TryReportAndAcquire(c, r, now).1.Queued?
    ensures var d := TryReportAndAcquire(c, r, now).0;
            var k := if r.nextClass == Other("") then Medium else r.nextClass;
      && |d.waiting| == |c.waiting| + 1 && d.waiting[..|c.waiting|] == c.waiting
      && d.waiting[|c.waiting|] == Item(r.appliance, k, BasePriority(k), now, r.backlog, c.nextChan)
  {
    hide Inv, Accept, TryReportAndAcquire, TryAcquire, MayDispatch, HasAppliance, Matched, BasePriority;
    CombinedRefinesReportThenAcquire(c, r, now);
    AcceptHolds(c, r, now);
    AcceptKeepsQueue(c, r, now);
    AcquireAnswers(Accept(c, r, now),
                   AcquireRequest(r.appliance, if r.nextClass == Other("") then Medium else r.nextClass, r.backlog),
                   now);
  }

  lemma AcceptKeepsQueue(c: Cas, r: Report, now: Time)
    ensures Accept(c, r, now).waiting == c.waiting && Accept(c, r, now).nextChan == c.nextChan
    ensures Accept(c, r, now).maxQueue == c.maxQueue
  {
    hide Settle, NotePenalty;
  }

  // ---- the dispatch loop ----

  /** A quota unit is left for the class, its own or a shared one. */
  predicate UnitFor(q: Quota, k: PriorityClass) {
    (k in q.classes && q.classes[k] > 0) || q.shared > 0
  }

  /**
   * A dispatch round grants exactly when there is room, somebody waits, and a
   * unit is left for the item ranked first. Without room the queue is not
   * touched; without a unit the item goes to the back.
   */
  lemma DispatchGrantsByRoom(c: Cas, now: Time)
    requires Inv(c)
    ensures var (d, out) := Dispatch(c, now);
            var q := CanDispatch(Ticked(c.q, now), now).0;
            var room := MayDispatch(c.q, now) && c.waiting != [];
      && (out.Granted? <==> room && UnitFor(q, Pop(c.omega, c.waiting, now).0.class_))
      && (!room ==> d.waiting == c.waiting)
      && (room && !out.Granted? ==>
            d.waiting == Pop(c.omega, c.waiting, now).1 + [Pop(c.omega, c.waiting, now).0])
  {
    SoundIsCoupled(c);
    DispatchesExactlyWithRoom(Ticked(c.q, now), now);
    assert MayDispatch(Ticked(c.q, now), now) <==> MayDispatch(c.q, now);
    hide Inv, Dispatch, CanDispatch, Pop, Draw, Issue, MayDispatch;
    DispatchGrants(c, now);
  }

  // ---- the order of the classes ----

  /** The base priorities: unknown labels rank as Medium. */
  lemma BasesByClass(name: string)
    ensures BasePriority(High) == 100.0 && BasePriority(Low) == 1.0
    ensures BasePriority(Medium) == 50.0 == BasePriority(Other(name))
  {
  }

  predicate RanksMedium(k: PriorityClass) {
    k == Medium || k.Other?
  }

  /** How many priority points class k is ahead of class l. */
  function Lead(k: PriorityClass, l: PriorityClass): real {
    if k == High && l == Low then 99.0
    else if k == High && RanksMedium(l) then 50.0
    else if RanksMedium(k) && l == Low then 49.0
    else 0.0
  }

  lemma LeadIsBaseGap(k: PriorityClass, l: PriorityClass)
    ensures k == l || Lead(k, l) > 0.0 ==> BasePriority(k) - BasePriority(l) == Lead(k, l)
  {
  }

  /**
   * The queue prefers the higher class: when a round gives g a ticket while x
   * keeps waiting, and x is of a higher class or of the same, g was queued earlier
   * than x by at least their lead over the aging weight: 99, 50 or 49 points
   * between classes, none within one.
   */
  lemma HigherClassGoesFirst(c: Cas, now: Time, g: Item, x: Item)
    requires Inv(c) && c.omega > 0.0
    requires g in c.waiting && g.appliance in Dispatch(c, now).0.tickets && x in Dispatch(c, now).0.waiting
    requires x.class_ == g.class_ || Lead(x.class_, g.class_) > 0.0
    ensures (x.queuedAt - g.queuedAt) as real / 1_000_000_000.0 >= Lead(x.class_, g.class_) / c.omega
  {
    GrantedFromQueue(c, now, g, x);
    WaiterBase(c, g);
    WaiterBase(c, x);
    LeadIsBaseGap(x.class_, g.class_);
    hide Inv, Dispatch, Effective, Lead, BasePriority;
    AheadBy(c.omega, g, x, now, Lead(x.class_, g.class_));
  }

  lemma WaiterBase(c: Cas, x: Item)
    requires Inv(c) && x in c.waiting
    ensures x.base == BasePriority(x.class_) && x.appliance !in c.tickets
  {
    assert WaitsProperly(c, x);
  }

  lemma GrantedFromQueue(c: Cas, now: Time, g: Item, x: Item)
    requires Inv(c)
    requires g in c.waiting && g.appliance in Dispatch(c, now).0.tickets && x in Dispatch(c, now).0.waiting
    ensures x in c.waiting && Effective(c.omega, g, now) >= Effective(c.omega, x, now)
  {
    WaiterBase(c, g);
    ProperQueue(c);
    PopSplits(c, now);
    PoppedRanksHighest(c, now);
    hide Inv, Dispatch, Pop, Effective, CanDispatch, Draw, Issue, HasClassQuota, HasSharedQuota, QueueProper,
         BasePriority;
    DispatchGrants(c, now);
    var item := Pop(c.omega, c.waiting, now).0;
    assert g.appliance == item.appliance;
    SameWaiter(c, g, item, now);
  }

  /** Two items of one appliance in the queue are one item. */
  lemma SameWaiter(c: Cas, g: Item, item: Item, now: Time)
    requires Inv(c) && g in c.waiting && item in c.waiting && g.appliance == item.appliance
    ensures g == item
  {
    assert g in multiset(c.waiting) && item in multiset(c.waiting);
  }

  lemma AheadBy(omega: real, g: Item, x: Item, now: Time, lead: real)
    requires omega > 0.0 && Effective(omega, g, now) >= Effective(omega, x, now) && x.base - g.base == lead
    ensures (x.queuedAt - g.queuedAt) as real / 1_000_000_000.0 >= lead / omega
  {
    OvertakingBound(omega, g, x, now);
    var back, forth := (g.queuedAt - x.queuedAt) as real, (x.queuedAt - g.queuedAt) as real;
    assert back == -forth;
    hide Effective;
    Negated(g.base - x.base, omega);
  }

  lemma Negated(a: real, omega: real)
    requires omega > 0.0
    ensures (-a) / omega == -(a / omega)
  {
  }

  /** Over runs: in every reachable state. */
  lemma {:induction false} HigherClassGoesFirstOverRuns(raw: Config, omega: real, maxQueue: int, boot: Time,
      evs: seq<Event>, now: Time, g: Item, x: Item)
    requires omega > 0.0 && Timed(boot, evs)
    requires var c := Exec(Start(raw, omega, maxQueue, boot), evs);
      g in c.waiting && g.appliance in Dispatch(c, now).0.tickets && x in Dispatch(c, now).0.waiting
    requires x.class_ == g.class_ || Lead(x.class_, g.class_) > 0.0
    ensures (x.queuedAt - g.queuedAt) as real / 1_000_000_000.0 >= Lead(x.class_, g.class_) / omega
  {
    hide Start, Exec, Inv, Dispatch, Timed, Lead;
    var s := Start(raw, omega, maxQueue, boot);
    StartOmega(raw, omega, maxQueue, boot);
    ReachableHolds(raw, omega, maxQueue, boot, evs);
    SettingsAreFixed(s, evs);
    HigherClassGoesFirst(Exec(s, evs), now, g, x);
  }

  // ---- leaving the queue ----

  /** Tickets, quota and ledger are as before. */
  predicate OnlyQueueMoved(c: Cas, d: Cas) {
    && d.q == c.q && d.tickets == c.tickets && d.ledger == c.ledger
    && d.nextToken == c.nextToken && d.nextChan == c.nextChan
  }

  /**
   * A long-poll that gives up takes its appliance's waiter out of the queue, and
   * nobody else: afterwards the appliance does not wait, and the others keep
   * their order.
   */
  lemma GivingUpRemovesOneWaiter(c: Cas, a: ApplianceId, now: Time) returns (k: nat)
    requires Inv(c)
    ensures var d := Step(c, Event(now, Abandon(a))).0;
      && OnlyQueueMoved(c, d) && d.full == c.full && !HasAppliance(d.waiting, a)
      && (if HasAppliance(c.waiting, a)
          then k < |c.waiting| && c.waiting[k].appliance == a && d.waiting == c.waiting[..k] + c.waiting[k + 1..]
          else d.waiting == c.waiting)
  {
    hide Inv, QueueProper, Without, Step, HasAppliance;
    ProperQueue(c);
    QueuedAppliancesDistinct(c);
    k := RemovalClears(c.waiting, a);
    AbandonIsRemoval(c, a, now);
  }

  lemma AbandonIsRemoval(c: Cas, a: ApplianceId, now: Time)
    ensures Step(c, Event(now, Abandon(a))).0 == c.(waiting := Without(c.waiting, a))
  {
    hide Without;
  }

  lemma RemovalClears(s: seq<Item>, a: ApplianceId) returns (k: nat)
    requires forall i, j :: 0 <= i < j < |s| ==> s[i].appliance != s[j].appliance
    ensures !HasAppliance(Without(s, a), a)
    ensures if HasAppliance(s, a) then k < |s| && s[k].appliance == a && Without(s, a) == s[..k] + s[k + 1..]
            else Without(s, a) == s
  {
    hide Without;
    k := WithoutRemovesFirst(s, a);
    if HasAppliance(s, a) {
      var t := s[..k] + s[k + 1..];
      forall i | 0 <= i < |t| ensures t[i].appliance != a {
        assert t[i] == if i < k then s[i] else s[i + 1];
      }
    }
  }

  /** A waiter that reads its channel empties that one alone. */
  lemma ReadingEmptiesOneChannel(c: Cas, ch: ChanId, now: Time)
    ensures var d := Step(c, Event(now, Receive(ch))).0;
      && OnlyQueueMoved(c, d) && d.waiting == c.waiting
      && (forall x :: x in d.full <==> x in c.full && x != ch)
  {
  }

  /** Shutdown answers every waiter, and only waiters, and empties the queue; tickets stay out. */
  lemma ShutdownAnswersEveryWaiter(c: Cas, now: Time)
    ensures var d := Step(c, Event(now, Shutdown)).0;
      && OnlyQueueMoved(c, d) && d.waiting == []
      && (forall ch :: ch in d.full <==> ch in c.full || exists x :: x in c.waiting && x.ch == ch)
  {
    forall ch ensures ch in Channels(c.waiting) <==> exists x :: x in c.waiting && x.ch == ch {
      ChannelsAreAll(c.waiting, ch);
    }
    hide Channels;
  }
}
