/** The sustained limit over runs: halved by each penalty, nudged up by each clean window. */
module AdaptiveLimit {
  import opened Arithmetic
  import opened Clock
  import opened ClassSplit
  import opened QuotaModel
  import opened EngineModel
  import opened EngineInvariant
  import opened EngineTheorems
  import opened Learning

  function Pow2(k: nat): (p: nat)
    ensures p >= 1
  {
    if k == 0 then 1 else 2 * Pow2(k - 1)
  }

  function Max(a: int, b: int): int {
    if a < b then b else a
  }

  lemma HalvingCommutes(limit: int, p: nat)
    requires limit >= 0 && p >= 1
    ensures (limit / 2) / p == limit / (2 * p)
  {
    var k := limit / (2 * p);
    var rest := limit % (2 * p);
    assert limit == k * (2 * p) + rest;
    assert k * (2 * p) == 2 * (k * p);
    assert limit / 2 == k * p + rest / 2;
    assert 0 <= rest / 2 < p;
    var j := (limit / 2) / p;
    assert limit / 2 == j * p + (limit / 2) % p;
    assert (j - k) * p == j * p - k * p && (k - j) * p == k * p - j * p;
    SmallMultiple(j - k, p);
    SmallMultiple(k - j, p);
  }

  lemma QuotientAtMost(a: int, p: nat)
    requires a >= 0 && p >= 1
    ensures 0 <= a / p <= a
  {
    var k := a / p;
    assert a == k * p + a % p;
    ProductAtLeast(k, p);
  }

  lemma {:induction false} ProductAtLeast(k: nat, p: nat)
    requires p >= 1
    ensures k <= k * p
  {
    if k > 0 {
      ProductAtLeast(k - 1, p);
      assert k * p == (k - 1) * p + p;
    }
  }

  // ---- counting from the events ----

  /** The accepted 429s of a run. */
  function Penalties(c: Cas, evs: seq<Event>): nat
    decreases evs
  {
    if evs == [] then 0
    else (if Penalised(c, evs[0]) then 1 else 0) + Penalties(Next(c, evs[0]), evs[1..])
  }

  /** The windows that ended without a 429 accepted since they opened; marked says whether the first had one before. */
  function CleanWindows(c: Cas, evs: seq<Event>, marked: bool): nat
    decreases evs
  {
    if evs == [] then 0
    else if Penalised(c, evs[0]) then CleanWindows(Next(c, evs[0]), evs[1..], true)
    else if EndsWindow(c, evs[0]) then (if marked then 0 else 1) + CleanWindows(Next(c, evs[0]), evs[1..], false)
    else CleanWindows(Next(c, evs[0]), evs[1..], marked)
  }

  /** The limit an observer of the accepted 429s and the window ends expects. */
  function ExpectedLimit(cfg: Config, c: Cas, evs: seq<Event>, limit: int, marked: bool): int
    decreases evs
  {
    if evs == [] then limit
    else
      var d := Next(c, evs[0]);
      if Penalised(c, evs[0]) then ExpectedLimit(cfg, d, evs[1..], Max(cfg.sustainedMinLimit, limit / 2), true)
      else if EndsWindow(c, evs[0]) then
        ExpectedLimit(cfg, d, evs[1..], if marked then limit else Min(cfg.sustainedMaxLimit, limit + 1), false)
      else ExpectedLimit(cfg, d, evs[1..], limit, marked)
  }

  /** In every run the sustained limit is the expected one: halved by each 429, raised by each clean window. */
  lemma {:induction false} LimitFollowsEvents(c: Cas, evs: seq<Event>)
    requires Inv(c) && MarkedWindow(c.q) && Timed(c.q.hist.clock, evs)
    ensures Exec(c, evs).q.sustainedLimit
         == ExpectedLimit(c.q.cfg, c, evs, c.q.sustainedLimit, c.q.penaltyInWindow)
    decreases evs
  {
    hide Inv, Next, Penalised, EndsWindow, MarkedWindow;
    if evs != [] {
      LimitMoves(c, evs[0]);
      NextHolds(c, evs[0]);
      LimitFollowsEvents(Next(c, evs[0]), evs[1..]);
    }
  }

  /** From a fresh server: the configured limit, moved by nothing but accepted 429s and window ends. */
  lemma {:induction false} LimitFromStart(raw: Config, omega: real, maxQueue: int, boot: Time, evs: seq<Event>)
    requires Timed(boot, evs)
    ensures var s := Start(raw, omega, maxQueue, boot);
      Exec(s, evs).q.sustainedLimit
      == ExpectedLimit(Clamped(raw), s, evs, Clamped(raw).sustainedLimit, false)
  {
    var s := Start(raw, omega, maxQueue, boot);
    StartHolds(raw, omega, maxQueue, boot);
    StartClock(raw, omega, maxQueue, boot);
    assert MarkedWindow(s.q) && !s.q.penaltyInWindow;
    assert s.q.sustainedLimit == Clamped(raw).sustainedLimit && s.q.cfg == Clamped(raw);
    hide Inv, Exec, Timed, ExpectedLimit;
    LimitFollowsEvents(s, evs);
  }

  lemma {:induction false} ExpectedAfterPenalties(cfg: Config, c: Cas, evs: seq<Event>, limit: int, marked: bool)
    requires 0 <= cfg.sustainedMinLimit <= limit && CleanWindows(c, evs, marked) == 0
    ensures ExpectedLimit(cfg, c, evs, limit, marked)
         == Max(cfg.sustainedMinLimit, limit / Pow2(Penalties(c, evs)))
    decreases evs
  {
    hide Next, Penalised, EndsWindow;
    if evs != [] {
      var d := Next(c, evs[0]);
      if Penalised(c, evs[0]) {
        var cut := Max(cfg.sustainedMinLimit, limit / 2);
        ExpectedAfterPenalties(cfg, d, evs[1..], cut, true);
        CutOnce(cfg.sustainedMinLimit, limit, Pow2(Penalties(d, evs[1..])));
      } else if EndsWindow(c, evs[0]) {
        ExpectedAfterPenalties(cfg, d, evs[1..], limit, false);
      } else {
        ExpectedAfterPenalties(cfg, d, evs[1..], limit, marked);
      }
    }
  }

  lemma CutOnce(low: int, limit: int, p: nat)
    requires 0 <= low <= limit && p >= 1
    ensures Max(low, Max(low, limit / 2) / p) == Max(low, limit / (2 * p))
  {
    HalvingCommutes(limit, p);
    QuotientAtMost(low, p);
    QuotientAtMost(limit / 2, p);
  }

  lemma {:induction false} ExpectedAfterCleanWindows(cfg: Config, c: Cas, evs: seq<Event>, limit: int, marked: bool)
    requires limit <= cfg.sustainedMaxLimit && Penalties(c, evs) == 0
    ensures ExpectedLimit(cfg, c, evs, limit, marked)
         == Min(cfg.sustainedMaxLimit, limit + CleanWindows(c, evs, marked))
    decreases evs
  {
    hide Next, Penalised, EndsWindow;
    if evs != [] {
      var d := Next(c, evs[0]);
      if EndsWindow(c, evs[0]) {
        var raised := if marked then limit else Min(cfg.sustainedMaxLimit, limit + 1);
        ExpectedAfterCleanWindows(cfg, d, evs[1..], raised, false);
      } else {
        ExpectedAfterCleanWindows(cfg, d, evs[1..], limit, marked);
      }
    }
  }

  /** k accepted 429s and no clean window over a run leave max(min, floor(limit / 2^k)). */
  lemma {:induction false} PenaltiesHalveLimit(c: Cas, evs: seq<Event>)
    requires Inv(c) && MarkedWindow(c.q) && Timed(c.q.hist.clock, evs)
    requires CleanWindows(c, evs, c.q.penaltyInWindow) == 0
    ensures Exec(c, evs).q.sustainedLimit
         == Max(c.q.cfg.sustainedMinLimit, c.q.sustainedLimit / Pow2(Penalties(c, evs)))
  {
    hide Inv, Exec, Timed, CleanWindows, Penalties, ExpectedLimit, Max, Pow2, MarkedWindow;
    LimitBounds(c);
    LimitFollowsEvents(c, evs);
    ExpectedAfterPenalties(c.q.cfg, c, evs, c.q.sustainedLimit, c.q.penaltyInWindow);
  }

  /** k clean windows and no accepted 429 over a run leave min(max, limit + k). */
  lemma {:induction false} CleanWindowsCredit(c: Cas, evs: seq<Event>)
    requires Inv(c) && MarkedWindow(c.q) && Timed(c.q.hist.clock, evs)
    requires Penalties(c, evs) == 0
    ensures Exec(c, evs).q.sustainedLimit
         == Min(c.q.cfg.sustainedMaxLimit, c.q.sustainedLimit + CleanWindows(c, evs, c.q.penaltyInWindow))
  {
    hide Inv, Exec, Timed, CleanWindows, Penalties, ExpectedLimit, Min, MarkedWindow;
    LimitBounds(c);
    LimitFollowsEvents(c, evs);
    ExpectedAfterCleanWindows(c.q.cfg, c, evs, c.q.sustainedLimit, c.q.penaltyInWindow);
  }

  lemma LimitBounds(c: Cas)
    requires Inv(c)
    ensures 1 <= c.q.cfg.sustainedMinLimit <= c.q.sustainedLimit <= c.q.cfg.sustainedMaxLimit
  {
  }

  /** One event moves limit and mark as its 429, or the window it ends, demands. */
  lemma LimitMoves(c: Cas, e: Event)
    requires Inv(c) && MarkedWindow(c.q) && c.q.hist.clock <= e.now
    ensures var d := Next(c, e).q;
      && MarkedWindow(d) && d.cfg == c.q.cfg
      && (Penalised(c, e) ==>
            d.penaltyInWindow && d.sustainedLimit == Max(c.q.cfg.sustainedMinLimit, c.q.sustainedLimit / 2))
      && (!Penalised(c, e) && EndsWindow(c, e) ==>
            && !d.penaltyInWindow
            && d.sustainedLimit == (if c.q.penaltyInWindow then c.q.sustainedLimit
                                    else Min(c.q.cfg.sustainedMaxLimit, c.q.sustainedLimit + 1)))
      && (!Penalised(c, e) && !EndsWindow(c, e) ==>
            d.penaltyInWindow == c.q.penaltyInWindow && d.sustainedLimit == c.q.sustainedLimit)
  {
    hide Inv, Next, Heard, Penalised, EndsWindow, MarkedWindow, PolicyWindow;
    EventLearns(c, e);
  }
}
