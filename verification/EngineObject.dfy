/** The mutable Engine object; each lock-held section computes the function of EngineModel it is named after. */
module EngineObject {
  import opened Clock
  import opened Optional
  import opened ClassSplit
  import opened AgingQueue
  import opened QuotaModel
  import opened EngineModel
  import opened StateObject

  /** The triple a request handler receives, as an outcome. */
  function Answer(token: Option<Token>, ch: Option<ChanId>, code: int): Outcome {
    if token.Some? then Granted(token.value)
    else if ch.Some? then Queued(ch.value)
    else Refused(code)
  }

  lemma ReapIsCollection(c: Cas, now: Time)
    ensures Reap(c, now) == Collected(c, ExpiredHolders(c.tickets, now))
    ensures Collected(c, {}) == c
    ensures ExpiredHolders(c.tickets, now) <= c.tickets.Keys
  {
    assert c.tickets - {} == c.tickets;
  }

  lemma CollectedTickets(c: Cas, gone: set<ApplianceId>)
    ensures Collected(c, gone).tickets == c.tickets - gone
  {
  }

  lemma VisitOne(c: Cas, now: Time, todo: set<ApplianceId>, a: ApplianceId)
    requires a in todo && todo <= c.tickets.Keys
    ensures ExpiredHolders(c.tickets, now) - (todo - {a})
         == (ExpiredHolders(c.tickets, now) - todo) + if Expired(c.tickets[a], now) then {a} else {}
  {
    hide Expired;
  }

  lemma CollectOne(c: Cas, gone: set<ApplianceId>, a: ApplianceId)
    requires a !in gone
    ensures var d := Collected(c, gone);
      Collected(c, gone + {a}) == d.(tickets := d.tickets - {a}, q := d.q.(inFlight := d.q.inFlight - 1),
                                     ledger := d.ledger.(reaped := d.ledger.reaped + 1))
  {
    assert c.tickets - gone - {a} == c.tickets - (gone + {a});
  }

  /** What the dispatch loop does with an item it has popped from the queue of c. */
  ghost function Popped(c: Cas, item: Item, now: Time): (Cas, Option<Token>) {
    if !HasClassQuota(c.q, item.class_) && !HasSharedQuota(c.q) then
      (c.(waiting := c.waiting + [item]), None)
    else
      var d := Issued(c.(q := Draw(c.q, item.class_)), item.appliance, now);
      if item.ch !in d.full then (d.(full := d.full + {item.ch}), Some(c.nextToken))
      else (d.(q := d.q.(inFlight := d.q.inFlight - 1),
               tickets := Drop(d.tickets, item.appliance),
               ledger := d.ledger.(reclaimed := d.ledger.reclaimed + 1)),
            None)
  }

  lemma DispatchIsPopped(c: Cas, now: Time)
    ensures var (q, ok) := CanDispatch(Ticked(c.q, now), now);
      if !ok || c.waiting == [] then Dispatch(c, now) == (c.(q := q), Done)
      else
        var (item, rest) := Pop(c.omega, c.waiting, now);
        var (d, granted) := Popped(c.(q := q, waiting := rest), item, now);
        Dispatch(c, now) == (d, if granted.Some? then Granted(granted.value) else Done)
  {
    hide CanDispatch, Pop, Issue, Draw;
  }

  class Engine {
    const st: State
    const queue: Queue
    const maxQueue: int
    var full: set<ChanId>
    var nextToken: Token
    var nextChan: ChanId
    ghost var ledger: Ledger

    ghost function View(): Cas
      reads this, st, queue
    {
      Cas(st.View(), st.activeTickets, queue.items, full, nextToken, nextChan, queue.agingWeight, maxQueue, ledger)
    }

    constructor (raw: Config, omega: real, maxQueue: int, ghost now: Time)
      ensures fresh(st) && fresh(queue)
      ensures View() == Start(raw, omega, maxQueue, now)
    {
      st := new State(raw, now);
      queue := new Queue(omega);
      this.maxQueue := maxQueue;
      full, nextToken, nextChan := {}, 0, 0;
      ledger := Ledger([], [], 0, 0);
    }

    method FreshToken() returns (token: Token)
      modifies this`nextToken
      ensures token == old(nextToken) && nextToken == token + 1
    {
      token := nextToken;
      nextToken := nextToken + 1;
    }

    method FreshChannel() returns (ch: ChanId)
      modifies this`nextChan
      ensures ch == old(nextChan) && nextChan == ch + 1
    {
      ch := nextChan;
      nextChan := nextChan + 1;
    }

    method BookDemand(k: PriorityClass, n: int)
      modifies st
      ensures View() == old(View()).(q := AddDemand(old(View().q), k, n))
    {
      var c := Normalise(k);
      st.demandSum := st.demandSum[c := At(st.demandSum, c) + n];
    }

    /** A slot, a sustained unit and a ticket: the tail of every grant path. */
    method GrantTicket(a: ApplianceId, now: Time) returns (token: Token)
      modifies this, st
      ensures View() == Issued(old(View()), a, now)
      ensures token == old(nextToken)
      ensures queue.items == old(queue.items) && full == old(full)
    {
      token := FreshToken();
      st.Charge();
      st.activeTickets := st.activeTickets[a := Ticket(token, now, st.localRemaining - st.inFlight)];
      ledger := ledger.(issued := ledger.issued + [now]);
    }

    /** A waiter with a fresh channel at the back of the queue. */
    method EnqueueWaiter(a: ApplianceId, k: PriorityClass, backlog: int, now: Time) returns (ch: ChanId)
      modifies this, queue
      ensures View() == Enqueued(old(View()), a, k, backlog, now)
      ensures ch == old(nextChan)
    {
      ch := FreshChannel();
      queue.Enqueue(Item(a, k, BasePriority(k), now, backlog, ch));
    }

    method TryAcquire(req: AcquireRequest, now: Time) returns (token: Option<Token>, ch: Option<ChanId>, code: int)
      modifies this, st, queue
      ensures (View(), Answer(token, ch, code)) == EngineModel.TryAcquire(old(View()), req, now)
    {
      hide QuotaModel.CanDispatch, AddDemand, Issued, Enqueued, HasAppliance;
      token, ch, code := None, None, 0;
      if req.appliance in st.activeTickets {
        return None, None, 409;
      }
      var waiting := queue.Holds(req.appliance);
      if waiting {
        return None, None, 409;
      }
      st.Tick(now);
      BookDemand(req.class_, 1 + req.backlog);
      var ok := st.CanDispatch(now);
      if ok {
        var tok := GrantTicket(req.appliance, now);
        return Some(tok), None, 0;
      }
      if |queue.items| >= maxQueue {
        return None, None, 503;
      }
      var c := EnqueueWaiter(req.appliance, req.class_, req.backlog, now);
      return None, Some(c), 0;
    }

    /** The slot of a matched report is freed; the first report ever calibrates. */
    method CloseTicket(r: Payload)
      modifies st
      ensures st.View() == Release(old(st.View()), Parsed(r))
      ensures st.activeTickets == Drop(old(st.activeTickets), r.appliance)
    {
      hide Policy.PolicyWindowOf;
      st.activeTickets := st.activeTickets - {r.appliance};
      st.inFlight := st.inFlight - 1;
      if r.limit > 0 {
        st.bucketLimit := r.limit;
      }
      st.Calibrate(r.remaining);
    }

    /** The caller holds the lock; ok is false for an unmatched token. */
    method ProcessReport(r: Payload, now: Time) returns (ok: bool, lockdown: bool)
      modifies this, st
      ensures ok == Matched(old(View()), Parsed(r))
      ensures !ok ==> View() == old(View())
      ensures ok ==> View() == Accept(old(View()), Parsed(r), now)
      ensures ok ==> lockdown == (r.status == 429)
    {
      hide Policy.PolicyWindowOf, QuotaModel.NoteHeaders, QuotaModel.NotePenalty, Release;
      if r.appliance !in st.activeTickets || st.activeTickets[r.appliance].token != r.token {
        return false, false;
      }
      st.Tick(now);
      CloseTicket(r);
      ledger := ledger.(accepted := ledger.accepted + [r.token]);
      var _ := st.NoteHeaders(r);
      if r.status == 429 {
        st.NotePenalty(r.retryAfter, now);
        return true, true;
      }
      return true, false;
    }

    method HandleReport(r: Payload, now: Time)
      modifies this, st
      ensures View() == EngineModel.HandleReport(old(View()), Parsed(r), now).0
    {
      hide Accept, Parsed, Matched;
      var _, _ := ProcessReport(r, now);
    }

    method TryReportAndAcquire(r: Payload, now: Time)
      returns (token: Option<Token>, ch: Option<ChanId>, code: int)
      modifies this, st, queue
      ensures (View(), Answer(token, ch, code)) == EngineModel.TryReportAndAcquire(old(View()), Parsed(r), now)
    {
      hide Accept, Matched, QuotaModel.CanDispatch, AddDemand, Issued, Enqueued, Policy.PolicyWindowOf;
      token, ch, code := None, None, 0;
      var nextClass := if r.nextClass == Other("") then Medium else r.nextClass;
      assert nextClass == NextClass(Parsed(r));
      hide NextClass;
      var ok, lockdown := ProcessReport(r, now);
      if !ok {
        return None, None, 409;
      }
      if lockdown {
        return None, None, 429;
      }
      BookDemand(nextClass, 1 + r.backlog);
      var granted := st.CanDispatch(now);
      if granted {
        var tok := GrantTicket(r.appliance, now);
        return Some(tok), None, 0;
      }
      if |queue.items| >= maxQueue {
        return None, None, 503;
      }
      var c := EnqueueWaiter(r.appliance, nextClass, r.backlog, now);
      return None, Some(c), 0;
    }

    /** A unit for a popped item, from its class or else from the shared pool. */
    method DrawUnit(k: PriorityClass) returns (drawn: bool)
      modifies st`classRemaining, st`sharedRemaining, st`hist
      ensures drawn == (HasClassQuota(old(st.View()), k) || HasSharedQuota(old(st.View())))
      ensures st.View() == if drawn then Draw(old(st.View()), k) else old(st.View())
    {
      hide Draw;
      if st.ClassHasQuota(k) {
        st.DeductClassQuota(k);
      } else if st.SharedHasQuota() {
        st.DeductShared(k);
      } else {
        return false;
      }
      return true;
    }

    /** Wakes the waiter, or takes the ticket back when its channel is still full. */
    method Signal(item: Item, token: Token) returns (granted: Option<Token>)
      modifies this`full, this`ledger, st`activeTickets, st`inFlight
      ensures (View(), granted) ==
        if item.ch !in old(full) then (old(View()).(full := old(full) + {item.ch}), Some(token))
        else (old(View()).(q := old(View().q).(inFlight := old(View().q.inFlight) - 1),
                           tickets := Drop(old(View()).tickets, item.appliance),
                           ledger := old(ledger).(reclaimed := old(ledger).reclaimed + 1)),
              None)
    {
      if item.ch !in full {
        full := full + {item.ch};
        return Some(token);
      }
      st.activeTickets := st.activeTickets - {item.appliance};
      st.inFlight := st.inFlight - 1;
      ledger := ledger.(reclaimed := ledger.reclaimed + 1);
      return None;
    }

    /** The part of the loop body that follows a pop. */
    method GrantPopped(item: Item, now: Time) returns (granted: Option<Token>)
      modifies this, st, queue
      ensures (View(), granted) == Popped(old(View()), item, now)
    {
      hide Draw, Issued, HasClassQuota, HasSharedQuota;
      var drawn := DrawUnit(item.class_);
      if !drawn {
        queue.Enqueue(item);
        return None;
      }
      assert View() == old(View()).(q := Draw(old(View().q), item.class_));
      var token := GrantTicket(item.appliance, now);
      granted := Signal(item, token);
    }

    /**
     * One lock-held section of the dispatch loop, up to the unlock after a
     * signal or the end of the loop. granted is the token handed over, if any.
     */
    method DispatchSection(now: Time) returns (granted: Option<Token>)
      modifies this, st, queue
      ensures View() == Dispatch(old(View()), now).0
      ensures Dispatch(old(View()), now).1 == if granted.Some? then Granted(granted.value) else Done
    {
      hide QuotaModel.CanDispatch, Popped, Pop;
      DispatchIsPopped(View(), now);
      hide Dispatch;
      st.Tick(now);
      var ok := st.CanDispatch(now);
      if !ok || queue.items == [] {
        return None;
      }
      var item := queue.PopBest(now);
      granted := GrantPopped(item.value, now);
    }

    /** Takes one ticket back. */
    method Expire(a: ApplianceId)
      modifies this`ledger, st`activeTickets, st`inFlight
      ensures View() == old(View()).(
        tickets := old(View()).tickets - {a},
        q := old(View()).q.(inFlight := old(View()).q.inFlight - 1),
        ledger := old(View()).ledger.(reaped := old(View()).ledger.reaped + 1))
    {
      st.activeTickets := st.activeTickets - {a};
      st.inFlight := st.inFlight - 1;
      ledger := ledger.(reaped := ledger.reaped + 1);
    }

    /** Visits the tickets in any order, as Go's map iteration does. */
    method ReaperPass(now: Time)
      modifies this, st
      ensures View() == Reap(old(View()), now)
    {
      hide Expired, ExpiredHolders, Collected, Reap;
      var todo := st.activeTickets.Keys;
      ghost var before := View();
      ghost var gone: set<ApplianceId> := {};
      ReapIsCollection(before, now);
      while todo != {}
        invariant todo <= before.tickets.Keys && gone !! todo
        invariant gone == ExpiredHolders(before.tickets, now) - todo
        invariant View() == Collected(before, gone)
        decreases todo
      {
        var a :| a in todo;
        CollectedTickets(before, gone);
        VisitOne(before, now, todo, a);
        if Expired(st.activeTickets[a], now) {
          CollectOne(before, gone, a);
          Expire(a);
          gone := gone + {a};
        }
        todo := todo - {a};
      }
      assert ExpiredHolders(before.tickets, now) - todo == ExpiredHolders(before.tickets, now);
    }

    method RemoveFromQueue(a: ApplianceId)
      modifies queue
      ensures View() == old(View()).(waiting := Without(old(View()).waiting, a))
    {
      var _ := queue.Remove(a);
    }

    /** Shutdown: every waiter is offered false and the queue is emptied. */
    method DrainQueue()
      modifies this, queue
      ensures View() == old(View()).(waiting := [], full := old(View()).full + Channels(old(View()).waiting))
    {
      full := queue.DrainAll(full);
    }
  }
}
