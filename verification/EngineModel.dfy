/**
 * The ticket engine as a value: quota, active tickets and waiting queue, and
 * the function each lock-held section of the engine computes.
 */
module EngineModel {
  import opened Clock
  import opened ClassSplit
  import opened AgingQueue
  import opened QuotaModel

  type Token = nat

  const EXPIRY: Time := 10 * SECOND

  datatype Ticket = Ticket(token: Token, issuedAt: Time, expectedRemaining: int)

  /** The past of a run: token k was issued at issued[k]. No decision reads it. */
  datatype Ledger = Ledger(
    issued: seq<Time>,
    accepted: seq<Token>,   // tokens whose report was accepted, in order
    reaped: nat,            // tickets removed by the reaper
    reclaimed: nat)         // tickets taken back by the dispatch loop's default branch

  datatype Cas = Cas(
    q: Quota,
    tickets: map<ApplianceId, Ticket>,
    waiting: seq<Item>,
    full: set<ChanId>,      // response channels holding an unread value
    nextToken: Token,       // uuid.New: every token is fresh
    nextChan: ChanId,       // make(chan bool, 1): every channel is fresh
    omega: real,
    maxQueue: int,
    ledger: Ledger)

  datatype AcquireRequest = AcquireRequest(appliance: ApplianceId, class_: PriorityClass, backlog: int)

  datatype Outcome =
    | Granted(token: Token)
    | Queued(ch: ChanId)
    | Refused(code: int)
    | Done

  function Start(raw: Config, omega: real, maxQueue: int, now: Time): Cas {
    Cas(Boot(raw, now), map[], [], {}, 0, 0, omega, maxQueue, Ledger([], [], 0, 0))
  }

  /** A ticket for an appliance: the common tail of all three grant paths. */
  function Issued(c: Cas, a: ApplianceId, now: Time): Cas {
    var q := Issue(c.q);
    c.(q := q,
       tickets := c.tickets[a := Ticket(c.nextToken, now, q.localRemaining - q.inFlight)],
       nextToken := c.nextToken + 1,
       ledger := c.ledger.(issued := c.ledger.issued + [now]))
  }

  function Enqueued(c: Cas, a: ApplianceId, k: PriorityClass, backlog: int, now: Time): Cas {
    c.(waiting := c.waiting + [Item(a, k, BasePriority(k), now, backlog, c.nextChan)],
       nextChan := c.nextChan + 1)
  }

  /** Grant at once, refuse for a full queue, or queue: what follows the demand booking. */
  function Admit(c: Cas, a: ApplianceId, k: PriorityClass, backlog: int, now: Time): (stateAndAnswer: (Cas, Outcome)) {
    var (q, ok) := CanDispatch(c.q, now);
    var c1 := c.(q := q);
    if ok then (Issued(c1, a, now), Granted(c1.nextToken))
    else if |c.waiting| >= c.maxQueue then (c1, Refused(503))
    else (Enqueued(c1, a, k, backlog, now), Queued(c1.nextChan))
  }

  function TryAcquire(c: Cas, req: AcquireRequest, now: Time): (stateAndAnswer: (Cas, Outcome)) {
    if req.appliance in c.tickets || HasAppliance(c.waiting, req.appliance) then (c, Refused(409))
    else
      var c1 := c.(q := AddDemand(Ticked(c.q, now), req.class_, 1 + req.backlog));
      Admit(c1, req.appliance, req.class_, req.backlog, now)
  }

  predicate Matched(c: Cas, r: Report) {
    r.appliance in c.tickets && c.tickets[r.appliance].token == r.token
  }

  function Drop(tickets: map<ApplianceId, Ticket>, a: ApplianceId): map<ApplianceId, Ticket> {
    tickets - {a}
  }

  /** A matched report: ticket retired, headers folded in, a 429 penalised. */
  function Accept(c: Cas, r: Report, now: Time): Cas {
    var q := Settle(Ticked(c.q, now), r);
    c.(q := if r.status == 429 then NotePenalty(q, r.retryAfter, now) else q,
       tickets := Drop(c.tickets, r.appliance),
       ledger := c.ledger.(accepted := c.ledger.accepted + [r.token]))
  }

  function HandleReport(c: Cas, r: Report, now: Time): (stateAndAnswer: (Cas, Outcome)) {
    if Matched(c, r) then (Accept(c, r, now), Done) else (c, Done)
  }

  /** The class asked for next; none given means medium. */
  function NextClass(r: Report): (k: PriorityClass)
    ensures k != Other("")
  {
    if r.nextClass == Other("") then Medium else r.nextClass
  }

  function TryReportAndAcquire(c: Cas, r: Report, now: Time): (stateAndAnswer: (Cas, Outcome)) {
    if !Matched(c, r) then (c, Refused(409))
    else
      var c1 := Accept(c, r, now);
      if r.status == 429 then (c1, Refused(429))
      else
        var c2 := c1.(q := AddDemand(c1.q, NextClass(r), 1 + r.backlog));
        Admit(c2, r.appliance, NextClass(r), r.backlog, now)
  }

  /**
   * One lock-held section of the dispatch loop: check, pop, draw a quota unit,
   * grant and signal. Without a unit the item goes back and the loop stops.
   */
  function Dispatch(c: Cas, now: Time): (stateAndAnswer: (Cas, Outcome)) {
    var (q, ok) := CanDispatch(Ticked(c.q, now), now);
    var c1 := c.(q := q);
    if !ok || c.waiting == [] then (c1, Done)
    else
      var (item, rest) := Pop(c.omega, c.waiting, now);
      if !HasClassQuota(q, item.class_) && !HasSharedQuota(q) then
        (c1.(waiting := rest + [item]), Done)
      else
        var c2 := Issued(c1.(q := Draw(q, item.class_), waiting := rest), item.appliance, now);
        if item.ch !in c.full then
          (c2.(full := c.full + {item.ch}), Granted(c.nextToken))
        else
          (c2.(q := c2.q.(inFlight := c2.q.inFlight - 1),
               tickets := Drop(c2.tickets, item.appliance),
               ledger := c2.ledger.(reclaimed := c2.ledger.reclaimed + 1)),
           Done)
  }

  predicate Expired(t: Ticket, now: Time) {
    now - t.issuedAt > EXPIRY
  }

  function ExpiredHolders(tickets: map<ApplianceId, Ticket>, now: Time): (gone: set<ApplianceId>)
    ensures gone <= tickets.Keys
  {
    set a | a in tickets && Expired(tickets[a], now)
  }

  /** The state with the tickets of these appliances taken back. */
  function Collected(c: Cas, gone: set<ApplianceId>): Cas {
    c.(tickets := c.tickets - gone,
       q := c.q.(inFlight := c.q.inFlight - |gone|),
       ledger := c.ledger.(reaped := c.ledger.reaped + |gone|))
  }

  function Reap(c: Cas, now: Time): Cas {
    Collected(c, ExpiredHolders(c.tickets, now))
  }

  /** The atomic sections that may follow one another in any order. */
  datatype Action =
    | Acquire(req: AcquireRequest)
    | Settlement(r: Report)                 // POST /report
    | Combined(r: Report)                   // POST /report-and-acquire
    | DispatchOne
    | ReaperPass
    | Abandon(a: ApplianceId)               // a long-poll gives up
    | Receive(ch: ChanId)                   // a waiter reads its channel
    | Shutdown                              // the queue is drained

  datatype Event = Event(now: Time, act: Action)

  function Step(c: Cas, e: Event): (stateAndAnswer: (Cas, Outcome)) {
    match e.act
    case Acquire(req) => TryAcquire(c, req, e.now)
    case Settlement(r) => HandleReport(c, r, e.now)
    case Combined(r) => TryReportAndAcquire(c, r, e.now)
    case DispatchOne => Dispatch(c, e.now)
    case ReaperPass => (Reap(c, e.now), Done)
    case Abandon(a) => (c.(waiting := Without(c.waiting, a)), Done)
    case Receive(ch) => (c.(full := c.full - {ch}), Done)
    case Shutdown => (c.(waiting := [], full := c.full + Channels(c.waiting)), Done)
  }

  /** The state after an event; the clock records its reading. */
  function Next(c: Cas, e: Event): Cas {
    var c' := Step(c, e).0;
    c'.(q := Ticked(c'.q, e.now))
  }

  function Exec(c: Cas, evs: seq<Event>): Cas
    decreases evs
  {
    if evs == [] then c else Exec(Next(c, evs[0]), evs[1..])
  }

  /** The clock readings of a run never decrease. */
  predicate Timed(from: Time, evs: seq<Event>)
    decreases evs
  {
    evs == [] || (from <= evs[0].now && Timed(evs[0].now, evs[1..]))
  }
}
