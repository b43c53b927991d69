/** Every atomic section acts on the quota state by a short sequence of legal quota operations. */
module EngineTrace {
  import opened Clock
  import opened ClassSplit
  import opened AgingQueue
  import opened QuotaModel
  import opened QuotaInvariant
  import opened EngineModel
  import opened EngineInvariant

  function AdmitOps(q: Quota, now: Time): seq<QuotaOp> {
    if CanDispatch(q, now).1 then [Check(now), Grant(now)] else [Check(now)]
  }

  function SettleOps(r: Report, now: Time): seq<QuotaOp> {
    if r.status == 429 then [Fold(r, now), Penalise(r, now)] else [Fold(r, now)]
  }

  function DispatchOps(c: Cas, now: Time): seq<QuotaOp> {
    var (q, ok) := CanDispatch(Ticked(c.q, now), now);
    if !ok || c.waiting == [] then [Check(now)]
    else
      var k := Pop(c.omega, c.waiting, now).0.class_;
      if !HasClassQuota(q, k) && !HasSharedQuota(q) then [Check(now)]
      else [Check(now), Take(k), Grant(now)]
  }

  function AcquireOps(c: Cas, req: AcquireRequest, now: Time): seq<QuotaOp> {
    if req.appliance in c.tickets || HasAppliance(c.waiting, req.appliance) then []
    else
      [Tick(now), Demand(req.class_, 1 + req.backlog)]
      + AdmitOps(AddDemand(Ticked(c.q, now), req.class_, 1 + req.backlog), now)
  }

  function CombinedOps(c: Cas, r: Report, now: Time): seq<QuotaOp> {
    if !Matched(c, r) then []
    else if r.status == 429 then SettleOps(r, now)
    else
      SettleOps(r, now) + ([Demand(NextClass(r), 1 + r.backlog)]
      + AdmitOps(AddDemand(Accept(c, r, now).q, NextClass(r), 1 + r.backlog), now))
  }

  function StepOps(c: Cas, e: Event): seq<QuotaOp> {
    match e.act
    case Acquire(req) => AcquireOps(c, req, e.now)
    case Settlement(r) => if Matched(c, r) then SettleOps(r, e.now) else []
    case Combined(r) => CombinedOps(c, r, e.now)
    case DispatchOne => DispatchOps(c, e.now)
    case ReaperPass => [Retire(|ExpiredHolders(c.tickets, e.now)|)]
    case _ => []
  }

  function EventOps(c: Cas, e: Event): seq<QuotaOp> {
    StepOps(c, e) + [Tick(e.now)]
  }

  function RunOps(c: Cas, evs: seq<Event>): seq<QuotaOp>
    decreases evs
  {
    if evs == [] then [] else EventOps(c, evs[0]) + RunOps(Next(c, evs[0]), evs[1..])
  }

  /** The operation reads the event's clock, and folds or penalises only the event's own report. */
  predicate From(op: QuotaOp, e: Event) {
    match op
    case Tick(now) => now == e.now
    case Check(now) => now == e.now
    case Grant(now) => now == e.now
    case Fold(r, now) => now == e.now && (e.act == Settlement(r) || e.act == Combined(r))
    case Penalise(r, now) => now == e.now && r.status == 429 && (e.act == Settlement(r) || e.act == Combined(r))
    case _ => true
  }

  lemma ApplyOne(q: Quota, a: QuotaOp)
    ensures ApplyAll(q, [a]) == Apply(q, a)
    ensures LegalAll(q, [a]) <==> Legal(q, a)
  {
    hide Apply, Legal;
    assert [a][1..] == [];
  }

  lemma ApplyTwo(q: Quota, a: QuotaOp, b: QuotaOp)
    ensures ApplyAll(q, [a, b]) == Apply(Apply(q, a), b)
    ensures LegalAll(q, [a, b]) <==> Legal(q, a) && Legal(Apply(q, a), b)
  {
    hide Apply, Legal;
    assert [a, b] == [a] + [b];
    ApplyOne(q, a);
    ApplyOne(Apply(q, a), b);
    ApplyConcat(q, [a], [b]);
  }

  lemma ApplyThree(q: Quota, a: QuotaOp, b: QuotaOp, d: QuotaOp)
    ensures ApplyAll(q, [a, b, d]) == Apply(Apply(Apply(q, a), b), d)
    ensures LegalAll(q, [a, b, d]) <==> Legal(q, a) && Legal(Apply(q, a), b) && Legal(Apply(Apply(q, a), b), d)
  {
    hide Apply, Legal;
    assert [a, b, d] == [a, b] + [d];
    ApplyTwo(q, a, b);
    ApplyOne(Apply(Apply(q, a), b), d);
    ApplyConcat(q, [a, b], [d]);
  }

  lemma CheckedQuota(q: Quota, now: Time)
    requires Sound(q) && q.hist.clock == now
    ensures Apply(q, Check(now)) == CanDispatch(q, now).0
    ensures CanDispatch(q, now).1 ==> Legal(CanDispatch(q, now).0, Grant(now))
  {
    hide Sound, CanDispatch;
    assert Ticked(q, now) == q;
    CheckKeepsSound(q, now);
    assert CanDispatch(q, now).0.hist.clock == now by { CheckCounts(q, now); }
  }

  lemma AdmitQuota(c: Cas, a: ApplianceId, k: PriorityClass, backlog: int, now: Time)
    requires Sound(c.q) && c.q.hist.clock == now
    ensures LegalAll(c.q, AdmitOps(c.q, now))
    ensures ApplyAll(c.q, AdmitOps(c.q, now)) == Admit(c, a, k, backlog, now).0.q
  {
    hide Sound, CanDispatch;
    CheckedQuota(c.q, now);
    ApplyOne(c.q, Check(now));
    ApplyTwo(c.q, Check(now), Grant(now));
  }

  lemma SettleQuota(c: Cas, r: Report, now: Time)
    requires Sound(c.q) && c.q.hist.clock <= now
    ensures LegalAll(c.q, SettleOps(r, now))
    ensures ApplyAll(c.q, SettleOps(r, now)) == Accept(c, r, now).q
    ensures Sound(Accept(c, r, now).q) && Accept(c, r, now).q.hist.clock == now
  {
    hide Sound, Settle;
    var q1 := Apply(c.q, Fold(r, now));
    ApplyOne(c.q, Fold(r, now));
    ApplyTwo(c.q, Fold(r, now), Penalise(r, now));
    SettleCounts(Ticked(c.q, now), r);
    assert Ticked(q1, now) == q1;
    OpsKeepSound(c.q, SettleOps(r, now));
  }

  lemma AcquireQuota(c: Cas, req: AcquireRequest, now: Time)
    requires Sound(c.q) && c.q.hist.clock <= now
    ensures LegalAll(c.q, AcquireOps(c, req, now))
    ensures ApplyAll(c.q, AcquireOps(c, req, now)) == TryAcquire(c, req, now).0.q
  {
    hide Sound, AdmitOps, Admit, TryAcquire;
    if req.appliance !in c.tickets && !HasAppliance(c.waiting, req.appliance) {
      var front := [Tick(now), Demand(req.class_, 1 + req.backlog)];
      var c1 := c.(q := AddDemand(Ticked(c.q, now), req.class_, 1 + req.backlog));
      ApplyTwo(c.q, Tick(now), Demand(req.class_, 1 + req.backlog));
      OpsKeepSound(c.q, front);
      AdmitQuota(c1, req.appliance, req.class_, req.backlog, now);
      ApplyConcat(c.q, front, AdmitOps(c1.q, now));
      AcquireAdmits(c, req, now);
    } else {
      AcquireRefused(c, req, now);
    }
  }

  lemma AcquireRefused(c: Cas, req: AcquireRequest, now: Time)
    requires req.appliance in c.tickets || HasAppliance(c.waiting, req.appliance)
    ensures TryAcquire(c, req, now) == (c, Refused(409))
  {
  }

  lemma BookedQuota(c: Cas, a: ApplianceId, k: PriorityClass, backlog: int, now: Time)
    requires Sound(c.q) && c.q.hist.clock == now
    ensures var c1 := c.(q := AddDemand(c.q, k, 1 + backlog));
            var ops := [Demand(k, 1 + backlog)] + AdmitOps(c1.q, now);
      LegalAll(c.q, ops) && ApplyAll(c.q, ops) == Admit(c1, a, k, backlog, now).0.q
  {
    hide Sound, AdmitOps, Admit;
    var c1 := c.(q := AddDemand(c.q, k, 1 + backlog));
    ApplyOne(c.q, Demand(k, 1 + backlog));
    OpKeepsSound(c.q, Demand(k, 1 + backlog));
    AdmitQuota(c1, a, k, backlog, now);
    ApplyConcat(c.q, [Demand(k, 1 + backlog)], AdmitOps(c1.q, now));
  }

  lemma CombinedQuota(c: Cas, r: Report, now: Time)
    requires Sound(c.q) && c.q.hist.clock <= now
    ensures LegalAll(c.q, CombinedOps(c, r, now))
    ensures ApplyAll(c.q, CombinedOps(c, r, now)) == TryReportAndAcquire(c, r, now).0.q
  {
    hide Sound, AdmitOps, SettleOps, Admit, Accept, AddDemand, TryReportAndAcquire;
    if Matched(c, r) {
      SettleQuota(c, r, now);
      if r.status != 429 {
        var d := Accept(c, r, now);
        BookedQuota(d, r.appliance, NextClass(r), r.backlog, now);
        ApplyConcat(c.q, SettleOps(r, now),
                    [Demand(NextClass(r), 1 + r.backlog)] + AdmitOps(AddDemand(d.q, NextClass(r), 1 + r.backlog), now));
        CombinedAdmits(c, r, now);
      } else {
        CombinedRefuses(c, r, now);
      }
    } else {
      CombinedRefuses(c, r, now);
    }
  }

  /** A queue grant, once the reclaiming branch is known not to be taken. */
  lemma DispatchGrants(c: Cas, now: Time)
    requires Inv(c)
    ensures var (q, ok) := CanDispatch(Ticked(c.q, now), now);
      && (!ok || c.waiting == [] ==> Dispatch(c, now) == (c.(q := q), Done))
      && (ok && c.waiting != [] ==>
            var (item, rest) := Pop(c.omega, c.waiting, now);
            if !HasClassQuota(q, item.class_) && !HasSharedQuota(q)
            then Dispatch(c, now) == (c.(q := q, waiting := rest + [item]), Done)
            else
              var d := Issued(c.(q := Draw(q, item.class_), waiting := rest), item.appliance, now);
              Dispatch(c, now) == (d.(full := c.full + {item.ch}), Granted(c.nextToken)))
  {
    hide CanDispatch, Draw;
    if c.waiting != [] {
      SignalNeverBlocked(c, now);
    }
  }

  lemma DispatchQuota(c: Cas, now: Time)
    requires Inv(c) && c.q.hist.clock <= now
    ensures LegalAll(c.q, DispatchOps(c, now))
    ensures ApplyAll(c.q, DispatchOps(c, now)) == Dispatch(c, now).0.q
  {
    hide CanDispatch, Draw, Pop, Dispatch;
    var q0 := Ticked(c.q, now);
    OpKeepsSound(c.q, Tick(now));
    var (q, ok) := CanDispatch(q0, now);
    CheckKeepsSound(q0, now);
    CheckCounts(q0, now);
    ApplyOne(c.q, Check(now));
    DispatchGrants(c, now);
    if ok && c.waiting != [] {
      var k := Pop(c.omega, c.waiting, now).0.class_;
      if HasClassQuota(q, k) || HasSharedQuota(q) {
        DrawStaysReady(q, k, now);
        ApplyThree(c.q, Check(now), Take(k), Grant(now));
      }
    }
  }

  lemma DrawStaysReady(q: Quota, k: PriorityClass, now: Time)
    requires Ready(q, now)
    ensures Ready(Draw(q, k), now) && Draw(q, k).hist.clock == q.hist.clock
  {
  }

  lemma ReapQuota(c: Cas, now: Time)
    ensures var ops := [Retire(|ExpiredHolders(c.tickets, now)|)];
      LegalAll(c.q, ops) && ApplyAll(c.q, ops) == Reap(c, now).q
  {
    hide ExpiredHolders;
    ApplyOne(c.q, Retire(|ExpiredHolders(c.tickets, now)|));
  }

  lemma ReportQuota(c: Cas, r: Report, now: Time)
    requires Sound(c.q) && c.q.hist.clock <= now
    ensures var ops := if Matched(c, r) then SettleOps(r, now) else [];
      LegalAll(c.q, ops) && ApplyAll(c.q, ops) == HandleReport(c, r, now).0.q
  {
    hide Sound, Accept, Matched, SettleOps;
    SettleQuota(c, r, now);
  }

  lemma StepQuota(c: Cas, e: Event)
    requires Inv(c) && c.q.hist.clock <= e.now
    ensures LegalAll(c.q, StepOps(c, e))
    ensures ApplyAll(c.q, StepOps(c, e)) == Step(c, e).0.q
  {
    assert Sound(c.q);
    hide Inv, Sound, AcquireOps, CombinedOps, DispatchOps, SettleOps, TryAcquire, TryReportAndAcquire, Dispatch,
         HandleReport, Reap, Matched, ExpiredHolders, Without, Channels;
    match e.act
    case Acquire(req) => AcquireQuota(c, req, e.now);
    case Settlement(r) => ReportQuota(c, r, e.now);
    case Combined(r) => CombinedQuota(c, r, e.now);
    case DispatchOne => DispatchQuota(c, e.now);
    case ReaperPass => ReapQuota(c, e.now);
    case _ =>
  }

  lemma StepOpsFrom(c: Cas, e: Event)
    ensures forall i :: 0 <= i < |EventOps(c, e)| ==> From(EventOps(c, e)[i], e)
  {
    hide Matched, HasAppliance, CanDispatch, AddDemand, Accept, Pop, HasClassQuota, HasSharedQuota;
  }

  /** One event is a legal sequence of quota operations, all read at its clock. */
  lemma EventQuota(c: Cas, e: Event)
    requires Inv(c) && c.q.hist.clock <= e.now
    ensures LegalAll(c.q, EventOps(c, e))
    ensures ApplyAll(c.q, EventOps(c, e)) == Next(c, e).q
    ensures forall i :: 0 <= i < |EventOps(c, e)| ==> From(EventOps(c, e)[i], e)
  {
    hide StepOps, Step, Inv;
    StepQuota(c, e);
    StepOpsFrom(c, e);
    StepHolds(c, e);
    ApplyConcat(c.q, StepOps(c, e), [Tick(e.now)]);
    ApplyOne(Step(c, e).0.q, Tick(e.now));
  }

  /** A whole run is one legal sequence of quota operations, each coming from one of its events. */
  lemma {:induction false} RunQuota(c: Cas, evs: seq<Event>)
    requires Inv(c) && Timed(c.q.hist.clock, evs)
    ensures LegalAll(c.q, RunOps(c, evs))
    ensures ApplyAll(c.q, RunOps(c, evs)) == Exec(c, evs).q
    ensures forall i :: 0 <= i < |RunOps(c, evs)| ==> exists k :: 0 <= k < |evs| && From(RunOps(c, evs)[i], evs[k])
    decreases evs
  {
    hide EventOps, Inv, From, Next;
    if evs != [] {
      var first, rest := EventOps(c, evs[0]), RunOps(Next(c, evs[0]), evs[1..]);
      EventQuota(c, evs[0]);
      NextHolds(c, evs[0]);
      RunQuota(Next(c, evs[0]), evs[1..]);
      ApplyConcat(c.q, first, rest);
      forall i | 0 <= i < |first + rest| ensures exists k :: 0 <= k < |evs| && From((first + rest)[i], evs[k]) {
        if i < |first| {
          assert From((first + rest)[i], evs[0]);
        } else {
          var k :| 0 <= k < |evs[1..]| && From(rest[i - |first|], evs[1..][k]);
          assert From((first + rest)[i], evs[k + 1]);
        }
      }
    }
  }
}
