/** The mutable State object; each method computes the function of QuotaModel it is named after. */
module StateObject {
  import opened Clock
  import opened Optional
  import opened Policy
  import opened ClassSplit
  import opened QuotaModel
  import opened EngineModel

  /** A report as it arrives, with its ratelimit-policy header verbatim. */
  datatype Payload = Payload(
    token: Token,
    appliance: string,
    nextClass: PriorityClass,
    backlog: int,
    recvAt: Time,
    remaining: int,
    limit: int,
    policy: string,
    status: int,
    retryAfter: int)

  function Parsed(p: Payload): Report {
    Report(p.token, p.appliance, p.nextClass, p.backlog, p.recvAt, p.remaining, p.limit,
           PolicyWindowOf(p.policy), p.status, p.retryAfter)
  }

  /** All fields are protected by one lock; a method runs while the caller holds it. */
  class State {
    const cfg: Config
    var bucketLimit: nat
    var localRemaining: int
    var inFlight: int
    var policyWindowSec: int
    var activeTickets: map<string, Ticket>
    var calibrated: bool
    var windowActive: bool
    var windowEnd: Time
    var sustainedWindowSec: int
    var sustainedLimit: int
    var sustainedEnd: Option<Time>
    var sustainedUsed: int
    var penaltyInWindow: bool
    var penalties: nat
    var lockdownActive: bool
    var lockdownUntil: Time
    var demandSum: Tally
    var classRemaining: Tally
    var sharedRemaining: int
    ghost var hist: History

    ghost function View(): Quota
      reads this
    {
      Quota(cfg, bucketLimit, localRemaining, inFlight, policyWindowSec, calibrated, windowActive, windowEnd,
            sustainedWindowSec, sustainedLimit, sustainedEnd, sustainedUsed, penaltyInWindow, penalties,
            lockdownActive, lockdownUntil, demandSum, classRemaining, sharedRemaining, hist)
    }

    constructor (raw: Config, ghost now: Time)
      ensures View() == Boot(raw, now)
      ensures activeTickets == map[]
    {
      var bucket, policy, window := raw.bucketLimit, raw.policyWindowSec, raw.sustainedWindowSec;
      var limit, low, high := raw.sustainedLimit, raw.sustainedMinLimit, raw.sustainedMaxLimit;
      if bucket <= 0 { bucket := 50; }
      if policy <= 0 { policy := 30; }
      if window <= 0 { window := 900; }
      if limit <= 0 { limit := 1; }
      if low <= 0 { low := 1; }
      if high < low { high := low; }
      if limit < low { limit := low; }
      if limit > high { limit := high; }
      cfg := Config(bucket, policy, limit, window, low, high);
      bucketLimit, localRemaining, inFlight := bucket, 1, 0;
      policyWindowSec, activeTickets, calibrated := policy, map[], false;
      windowActive, windowEnd := false, 0;
      sustainedWindowSec, sustainedLimit, sustainedEnd, sustainedUsed := window, limit, None, 0;
      penaltyInWindow, penalties, lockdownActive, lockdownUntil := false, 0, false, 0;
      demandSum, classRemaining, sharedRemaining := map[], map[], bucket;
      hist := History(now, 0, 0, [], limit, 0, [], 0, None, bucket, 0);
    }

    /** Specification only: the lock-held section reads the clock at now. */
    ghost method Tick(now: Time)
      modifies this`hist
      ensures View() == Ticked(old(View()), now)
    {
      hist := hist.(clock := now);
    }

    function PolicyWindowSec(): (w: int)
      reads this
      ensures w == PolicyWindow(View())
    {
      if policyWindowSec > 0 then policyWindowSec else cfg.policyWindowSec
    }

    /** Limit and policy window are taken over when the response names them. */
    method Adopt(r: Payload)
      modifies `bucketLimit, `policyWindowSec
      ensures View() == old(View()).(bucketLimit := if r.limit > 0 then r.limit else old(bucketLimit),
                                     policyWindowSec := if Parsed(r).window > 0 then Parsed(r).window
                                                        else old(policyWindowSec))
    {
      hide PolicyWindowOf;
      if r.limit > 0 {
        bucketLimit := r.limit;
      }
      var w := ParsePolicyWindow(r.policy);
      if w > 0 {
        policyWindowSec := w;
      }
    }

    /** First half of NoteHeaders: limit and policy window, and the class split of a stale view. */
    method TakeLimits(r: Payload) returns (wasStale: bool)
      modifies `bucketLimit, `policyWindowSec, `demandSum, `classRemaining, `sharedRemaining, `hist
      ensures View() == Realign(old(View()), Parsed(r))
      ensures wasStale == Stale(old(View()), r.recvAt)
    {
      hide PolicyWindowOf, QuotaModel.ResetClassBudgets;
      Adopt(r);
      wasStale := windowActive && r.recvAt >= windowEnd;
      if !calibrated || wasStale {
        ResetClassBudgets();
      }
    }

    /** Second half: the remaining, and the horizon when a fresh view opens. */
    method TakeRemaining(r: Payload, wasStale: bool) returns (reopened: bool)
      requires wasStale == Stale(View(), r.recvAt)
      modifies `localRemaining, `windowActive, `windowEnd, `calibrated
      ensures (View(), reopened) == Observe(old(View()), Parsed(r))
    {
      hide PolicyWindowOf, Seconds;
      reopened := false;
      if r.remaining >= 0 {
        var remaining := if r.remaining > bucketLimit then bucketLimit else r.remaining;
        reopened := !windowActive || wasStale || remaining > localRemaining;
        localRemaining := remaining;
        if reopened {
          windowActive := true;
          windowEnd := r.recvAt + Seconds(PolicyWindowSec());
        }
      }
      calibrated := true;
    }

    method NoteHeaders(r: Payload) returns (reopened: bool)
      modifies this
      ensures (View(), reopened) == QuotaModel.NoteHeaders(old(View()), Parsed(r))
      ensures activeTickets == old(activeTickets)
    {
      hide PolicyWindowOf, Observe, QuotaModel.ResetClassBudgets;
      var wasStale := TakeLimits(r);
      reopened := TakeRemaining(r, wasStale);
    }

    method RefreshRemaining(now: Time) returns (refilled: bool)
      modifies `localRemaining, `windowActive, `windowEnd, `demandSum, `classRemaining, `sharedRemaining, `hist
      ensures (View(), refilled) == Refresh(old(View()), now)
    {
      hide QuotaModel.ResetClassBudgets, Seconds;
      if windowActive && now < windowEnd {
        return false;
      }
      localRemaining := bucketLimit;
      windowActive := true;
      windowEnd := now + Seconds(PolicyWindowSec());
      hist := hist.(refills := hist.refills + [Refill(now, hist.served)]);
      ResetClassBudgets();
      return true;
    }

    /** A fresh sustained window, nothing used. */
    method OpenWindow(now: Time)
      modifies `sustainedEnd, `sustainedUsed, `penaltyInWindow, `hist
      ensures View() == old(View()).(
        penaltyInWindow := false, sustainedUsed := 0, sustainedEnd := Some(now + Seconds(sustainedWindowSec)),
        hist := old(hist).(rolls := old(hist).rolls + [now],
                           windowLimit := sustainedLimit, windowGrants := 0))
    {
      hide Seconds;
      penaltyInWindow := false;
      sustainedUsed := 0;
      sustainedEnd := Some(now + Seconds(sustainedWindowSec));
      hist := hist.(rolls := hist.rolls + [now], windowLimit := sustainedLimit, windowGrants := 0);
    }

    method RollSustainedWindow(now: Time)
      modifies `sustainedLimit, `sustainedEnd, `sustainedUsed, `penaltyInWindow, `hist
      ensures View() == Roll(old(View()), now)
    {
      hide Seconds;
      if sustainedEnd.Some? && now < sustainedEnd.value {
        return;
      }
      if sustainedEnd.Some? && !penaltyInWindow {
        CreditCleanWindow();
      }
      OpenWindow(now);
    }

    method CreditCleanWindow()
      modifies `sustainedLimit
      ensures View() == Credit(old(View()))
    {
      if sustainedLimit < cfg.sustainedMaxLimit {
        sustainedLimit := sustainedLimit + 1;
      }
    }

    method CanDispatch(now: Time) returns (ok: bool)
      modifies this
      ensures (View(), ok) == QuotaModel.CanDispatch(old(View()), now)
      ensures activeTickets == old(activeTickets)
    {
      hide Refresh, Roll;
      if lockdownActive {
        if now < lockdownUntil {
          return false;
        }
        lockdownActive := false;
        windowActive := false;
        hist := hist.(served := hist.served + 1);
      }
      assert View() == Served(old(View()));
      if !calibrated {
        return localRemaining > 0;
      }
      var _ := RefreshRemaining(now);
      RollSustainedWindow(now);
      if sustainedUsed >= sustainedLimit {
        return false;
      }
      return localRemaining - inFlight > 0;
    }

    method DeductSustained()
      modifies `sustainedUsed, `hist
      ensures View() == Spend(old(View()))
    {
      sustainedUsed := sustainedUsed + 1;
      hist := if calibrated
              then hist.(sustainedGrants := hist.sustainedGrants + 1, windowGrants := hist.windowGrants + 1)
              else hist.(bootstrapGrants := hist.bootstrapGrants + 1);
    }

    /** A slot in flight and a unit of the sustained budget. */
    method Charge()
      modifies `inFlight, `sustainedUsed, `hist
      ensures View() == Issue(old(View()))
    {
      inFlight := inFlight + 1;
      DeductSustained();
    }

    /** The first report ever replaces the cold-start unit. */
    method Calibrate(remaining: int)
      modifies `localRemaining, `calibrated
      ensures View() == if old(calibrated) then old(View())
                        else old(View()).(localRemaining := remaining, calibrated := true)
    {
      if !calibrated {
        localRemaining := remaining;
        calibrated := true;
      }
    }

    method CutLimit()
      modifies `sustainedLimit
      ensures View() == old(View()).(sustainedLimit := Halved(old(sustainedLimit), cfg.sustainedMinLimit))
    {
      if sustainedLimit > cfg.sustainedMinLimit {
        sustainedLimit := sustainedLimit / 2;
        if sustainedLimit < cfg.sustainedMinLimit {
          sustainedLimit := cfg.sustainedMinLimit;
        }
      }
    }

    /** The penalty is served out of the sustained window, which it uses up and marks. */
    method ServeFromWindow(until: Time)
      modifies `sustainedEnd, `sustainedUsed, `penaltyInWindow
      ensures View() == old(View()).(sustainedEnd := Some(until), sustainedUsed := old(sustainedLimit),
                                     penaltyInWindow := true)
    {
      sustainedEnd := Some(until);
      sustainedUsed := sustainedLimit;
      penaltyInWindow := true;
    }

    method Lock(until: Time)
      modifies `penalties, `lockdownActive, `lockdownUntil, `hist
      ensures View() == old(View()).(penalties := old(penalties) + 1, lockdownActive := true, lockdownUntil := until,
                                     hist := old(hist).(lastPenaltyEnd := Some(until)))
    {
      penalties := penalties + 1;
      lockdownActive := true;
      lockdownUntil := until;
      hist := hist.(lastPenaltyEnd := Some(until));
    }

    method NotePenalty(retryAfter: int, now: Time)
      modifies `sustainedWindowSec, `sustainedLimit, `sustainedEnd, `sustainedUsed, `penaltyInWindow,
               `penalties, `lockdownActive, `lockdownUntil, `hist
      ensures View() == QuotaModel.NotePenalty(old(View()), retryAfter, now)
    {
      hide Seconds, Halved;
      if retryAfter > 0 {
        sustainedWindowSec := retryAfter;
      }
      CutLimit();
      var until := now + Seconds(sustainedWindowSec);
      ServeFromWindow(until);
      Lock(until);
    }

    /** Redoes the class split for the demand booked since the last reset. */
    method ResetClassBudgets()
      modifies `demandSum, `classRemaining, `sharedRemaining, `hist
      ensures View() == QuotaModel.ResetClassBudgets(old(View()))
    {
      hide ClassQuota;
      var active := ActiveClassesOf(demandSum);
      hist := hist.(resetLimit := bucketLimit, queueGrants := 0);
      if active == {} {
        classRemaining := map[];
        sharedRemaining := bucketLimit;
        demandSum := map[];
        return;
      }
      ActiveHasWeight(active);
      var totalW := TotalWeightOf(active);
      var classes, handedOut := Allocate(bucketLimit, demandSum, active, totalW);
      classRemaining := classes;
      sharedRemaining := bucketLimit - handedOut;
      if sharedRemaining < 0 {
        sharedRemaining := 0;
      }
      demandSum := map[];
    }

    predicate ClassHasQuota(c: PriorityClass)
      reads this
      ensures ClassHasQuota(c) == HasClassQuota(View(), c)
    {
      At(classRemaining, c) > 0
    }

    predicate SharedHasQuota()
      reads this
      ensures SharedHasQuota() == HasSharedQuota(View())
    {
      sharedRemaining > 0
    }

    /** One of the class's units; the caller has checked that there is one. */
    method DeductClassQuota(c: PriorityClass)
      requires HasClassQuota(View(), c)
      modifies `classRemaining, `hist
      ensures View() == Draw(old(View()), c)
    {
      classRemaining := classRemaining[c := At(classRemaining, c) - 1];
      hist := hist.(queueGrants := hist.queueGrants + 1);
    }

    /** One of the shared units, drawn when a class has none of its own. */
    method DeductShared(ghost c: PriorityClass)
      requires HasSharedQuota(View()) && !HasClassQuota(View(), c)
      modifies `sharedRemaining, `hist
      ensures View() == Draw(old(View()), c)
    {
      sharedRemaining := sharedRemaining - 1;
      hist := hist.(queueGrants := hist.queueGrants + 1);
    }
  }

  /** The classes with demand, found in any order. */
  method ActiveClassesOf(demand: Tally) returns (active: set<PriorityClass>)
    ensures active == Active(demand)
  {
    active := {};
    var todo := KNOWN;
    while todo != {}
      invariant todo <= KNOWN
      invariant active == Active(demand) - todo
      decreases todo
    {
      var c :| c in todo;
      if At(demand, c) > 0 {
        active := active + {c};
      }
      todo := todo - {c};
    }
  }

  /** The weights of a set of known classes, added in any order. */
  method TotalWeightOf(active: set<PriorityClass>) returns (totalW: nat)
    requires active <= KNOWN
    ensures totalW == TotalWeight(active)
  {
    totalW := 0;
    var todo := active;
    while todo != {}
      invariant todo <= active
      invariant totalW == TotalWeight(active - todo)
      decreases todo
    {
      var c :| c in todo;
      totalW := totalW + Weight(c);
      assert active - (todo - {c}) == (active - todo) + {c};
      todo := todo - {c};
    }
    assert active - todo == active;
  }

  /**
   * The quota of each active class, visited in any order as Go's map iteration
   * does: the result is the one split all the same.
   */
  method Allocate(limit: nat, demand: Tally, active: set<PriorityClass>, totalW: nat)
    returns (classes: Tally, handedOut: int)
    requires active <= KNOWN && totalW > 0
    ensures classes == QuotasOf(limit, demand, active, totalW)
    ensures handedOut == Total(classes)
  {
    hide Cap, Share;
    classes, handedOut := map[], 0;
    var todo := active;
    while todo != {}
      invariant todo <= active
      invariant classes == QuotasOf(limit, demand, active - todo, totalW)
      invariant handedOut == Total(classes)
      decreases todo
    {
      var c :| c in todo;
      var quota: int := Share(limit, c, totalW);
      if At(demand, c) < quota {
        quota := At(demand, c);
      }
      var maxAllowed := Cap(c, limit);
      if quota > maxAllowed {
        quota := maxAllowed;
      }
      assert quota == ClassQuota(limit, demand, c, totalW);
      QuotasInsert(limit, demand, active - todo, c, totalW);
      assert active - (todo - {c}) == (active - todo) + {c};
      classes := classes[c := quota];
      handedOut := handedOut + quota;
      todo := todo - {c};
    }
    assert active - todo == active;
  }

  lemma QuotasInsert(limit: nat, demand: Tally, s: set<PriorityClass>, c: PriorityClass, totalW: nat)
    requires totalW > 0 && c !in s && c in KNOWN
    ensures QuotasOf(limit, demand, s + {c}, totalW)
         == QuotasOf(limit, demand, s, totalW)[c := ClassQuota(limit, demand, c, totalW)]
    ensures Total(QuotasOf(limit, demand, s + {c}, totalW))
         == Total(QuotasOf(limit, demand, s, totalW)) + ClassQuota(limit, demand, c, totalW)
  {
    hide ClassQuota;
  }
}
