/**
 * Priority classes and the weighted split of a bucket limit among the classes
 * that have demand.
 */
module ClassSplit {
  import opened Arithmetic

  /** The three labels the server knows; any other string is Other. */
  datatype PriorityClass = High | Medium | Low | Other(name: string)

  const KNOWN: set<PriorityClass> := {High, Medium, Low}

  function BasePriority(c: PriorityClass): (p: real)
    ensures 1.0 <= p <= 100.0
  {
    match c
    case High => 100.0
    case Medium => 50.0
    case Low => 1.0
    case Other(_) => 50.0
  }

  /** The class demand is booked under: unknown labels count as Medium. */
  function Normalise(c: PriorityClass): (n: PriorityClass)
    ensures n in KNOWN
  {
    if c.Other? then Medium else c
  }

  function Weight(c: PriorityClass): nat {
    match c
    case High => 4
    case Medium => 2
    case Low => 1
    case Other(_) => 0
  }

  // ---- the hard ceiling of a class: floor(limit * MaxFraction) in double precision ----

  /** The double nearest to 0.7 is SEVEN_TENTHS / TWO_53. */
  const SEVEN_TENTHS: nat := 6_305_039_478_318_694
  const TWO_53: nat := 9_007_199_254_740_992

  /** The spacing of 53-bit significands at magnitude p, at least 1. */
  function Spacing(p: nat, u: nat): (v: nat)
    requires u > 0 && (u == 1 || u * TWO_53 <= 2 * p)
    ensures v > 0 && p < v * TWO_53 && (v == 1 || v * TWO_53 <= 2 * p)
    decreases if p > u then p - u else 0
  {
    if p < u * TWO_53 then u else Spacing(p, 2 * u)
  }

  /** p rounded to a 53-bit significand, ties to even. */
  function Rounded(p: nat): (r: nat) {
    var u := Spacing(p, 1);
    var q, rest := p / u, p % u;
    if 2 * rest > u || (2 * rest == u && q % 2 == 1) then (q + 1) * u else q * u
  }

  /** floor(limit * 0.7) as the double-precision product gives it. */
  function SevenTenths(limit: nat): nat {
    Rounded(limit * SEVEN_TENTHS) / TWO_53
  }

  function Cap(c: PriorityClass, limit: nat): nat {
    match c
    case High => limit / 2
    case Medium => SevenTenths(limit)
    case Low => limit
    case Other(_) => 0
  }

  /** The ceilings: half the limit for High, seven tenths for Medium, all of it for Low. */
  lemma Ceilings(limit: nat)
    ensures 2 * Cap(High, limit) <= limit < 2 * Cap(High, limit) + 2
    ensures limit < 0x2_0000_0000_0000 ==> 10 * Cap(Medium, limit) <= 7 * limit < 10 * Cap(Medium, limit) + 20
    ensures Cap(Low, limit) == limit
  {
    if limit < 0x2_0000_0000_0000 {
      SevenTenthsBounds(limit);
    }
    hide SevenTenths;
  }

  lemma RoundedIsNear(p: nat)
    ensures var u := Spacing(p, 1); 2 * p - u <= 2 * Rounded(p) <= 2 * p + u
  {
    var u := Spacing(p, 1);
    var q, rest := p / u, p % u;
    assert p == q * u + rest;
    assert (q + 1) * u == q * u + u;
  }

  /** The double-precision ceiling is the exact one or one less. */
  lemma SevenTenthsBounds(limit: nat)
    requires limit < 0x2_0000_0000_0000
    ensures 7 * limit / 10 - 1 <= SevenTenths(limit) <= 7 * limit / 10
  {
    var p := limit * SEVEN_TENTHS;
    var u := Spacing(p, 1);
    RoundedIsNear(p);
    var f := 7 * limit / 10;
    assert 10 * p == 7 * limit * TWO_53 - 4 * limit;
    assert 5 * u < TWO_53;
  }

  /** The exact product 90 * 0.7 is 63, the double-precision one falls short of it. */
  lemma SevenTenthsOfNinety()
    ensures SevenTenths(90) == 62
    ensures SevenTenths(50) == 35
  {
    var p := 90 * SEVEN_TENTHS;
    assert Spacing(p, 1) == Spacing(p, 2) == Spacing(p, 4) == Spacing(p, 8)
        == Spacing(p, 16) == Spacing(p, 32) == Spacing(p, 64) == 64;
    var p' := 50 * SEVEN_TENTHS;
    assert Spacing(p', 1) == Spacing(p', 2) == Spacing(p', 4) == Spacing(p', 8)
        == Spacing(p', 16) == Spacing(p', 32) == Spacing(p', 64);
  }

  // ---- tallies: a map read yields 0 for a missing key ----

  type Tally = map<PriorityClass, int>

  function At(m: Tally, c: PriorityClass): int {
    if c in m then m[c] else 0
  }

  function Total(m: Tally): int {
    At(m, High) + At(m, Medium) + At(m, Low)
  }

  // ---- the split ----

  function Active(demand: Tally): set<PriorityClass> {
    set c | c in KNOWN && At(demand, c) > 0
  }

  function TotalWeight(s: set<PriorityClass>): nat {
    (if High in s then 4 else 0) + (if Medium in s then 2 else 0) + (if Low in s then 1 else 0)
  }

  /** limit * Weight(c) / total, rounded half up. */
  function Share(limit: nat, c: PriorityClass, total: nat): nat
    requires total > 0
  {
    (2 * limit * Weight(c) + total) / (2 * total)
  }

  function Min(a: int, b: int): int {
    if a < b then a else b
  }

  function ClassQuota(limit: nat, demand: Tally, c: PriorityClass, total: nat): int
    requires total > 0
  {
    Min(Min(Share(limit, c, total), At(demand, c)), Cap(c, limit))
  }

  function QuotasOf(limit: nat, demand: Tally, s: set<PriorityClass>, total: nat): Tally
    requires total > 0
  {
    map c | c in s :: ClassQuota(limit, demand, c, total)
  }

  datatype Budgets = Budgets(classes: Tally, shared: int)

  function SplitLimit(limit: nat, demand: Tally): Budgets {
    var active := Active(demand);
    if active == {} then Budgets(map[], limit)
    else
      var total := TotalWeight(active);
      assert total > 0 by { ActiveHasWeight(active); }
      var classes := QuotasOf(limit, demand, active, total);
      var left := limit - Total(classes);
      Budgets(classes, if left < 0 then 0 else left)
  }

  lemma ActiveHasWeight(s: set<PriorityClass>)
    requires s != {} && s <= KNOWN
    ensures TotalWeight(s) > 0
  {
    var c :| c in s;
  }

  function ShareIn(limit: nat, c: PriorityClass, s: set<PriorityClass>): nat
    requires s != {} && s <= KNOWN
  {
    ActiveHasWeight(s);
    if c in s then Share(limit, c, TotalWeight(s)) else 0
  }

  /** A share lies strictly within one half of the exact weighted part: no rounding tie. */
  predicate Nearest(limit: nat, c: PriorityClass, total: nat)
    requires total > 0
  {
    -(total as int) < 2 * (Share(limit, c, total) * total - limit * Weight(c)) < total
  }

  /** A share of limit is a whole number of weights and the share of the remainder. */
  lemma SharePart(limit: nat, c: PriorityClass, total: nat, q: nat, r: nat)
    requires total > 0 && limit == total * q + r
    ensures Share(limit, c, total) == Weight(c) * q + Share(r, c, total)
    ensures Nearest(limit, c, total) <==> Nearest(r, c, total)
  {
    var w := Weight(c);
    hide Weight;
    Expand(total, q, r, w);
    QuotientShift(2 * r * w + total, 2 * total, w * q);
    var x, y := Share(limit, c, total), Share(r, c, total);
    assert x == w * q + y;
    assert (w * q + y) * total == w * q * total + y * total;
    hide Share;
  }

  lemma Expand(total: int, q: int, r: int, w: int)
    ensures 2 * (total * q + r) * w == 2 * total * (w * q) + 2 * r * w
    ensures (total * q + r) * w == w * q * total + r * w
  {
  }

  lemma ShareIs(r: nat, c: PriorityClass, total: nat, v: int)
    requires total > 0 && 2 * total * v <= 2 * r * Weight(c) + total < 2 * total * v + 2 * total
    ensures Share(r, c, total) == v
  {
    QuotientIs(2 * r * Weight(c) + total, 2 * total, v);
  }

  /** Below a total of all weights the shares of a remainder add up to it. */
  lemma SmallSevenths(r: nat)
    requires r < 7
    ensures Share(r, High, 7) + Share(r, Medium, 7) + Share(r, Low, 7) == r
    ensures Nearest(r, High, 7) && Nearest(r, Medium, 7) && Nearest(r, Low, 7)
  {
    hide Share;
    var high, low := (r + 1) / 2, if r >= 4 then 1 else 0;
    ShareIs(r, High, 7, high);
    ShareIs(r, Medium, 7, r - high - low);
    ShareIs(r, Low, 7, low);
  }

  lemma SmallSixths(r: nat)
    requires r < 6
    ensures Share(r, High, 6) + Share(r, Medium, 6) == r && Nearest(r, High, 6) && Nearest(r, Medium, 6)
  {
    hide Share;
    var high := (2 * r + 1) / 3;
    ShareIs(r, High, 6, high);
    ShareIs(r, Medium, 6, r - high);
  }

  lemma SmallFifths(r: nat)
    requires r < 5
    ensures Share(r, High, 5) + Share(r, Low, 5) == r && Nearest(r, High, 5) && Nearest(r, Low, 5)
  {
    hide Share;
    var low := if r >= 3 then 1 else 0;
    ShareIs(r, High, 5, r - low);
    ShareIs(r, Low, 5, low);
  }

  lemma SmallThirds(r: nat)
    requires r < 3
    ensures Share(r, Medium, 3) + Share(r, Low, 3) == r && Nearest(r, Medium, 3) && Nearest(r, Low, 3)
  {
    hide Share;
    var low := if r == 2 then 1 else 0;
    ShareIs(r, Medium, 3, r - low);
    ShareIs(r, Low, 3, low);
  }

  lemma SharesOfSeven(limit: nat)
    ensures Share(limit, High, 7) + Share(limit, Medium, 7) + Share(limit, Low, 7) == limit
    ensures Nearest(limit, High, 7) && Nearest(limit, Medium, 7) && Nearest(limit, Low, 7)
  {
    var q, r := limit / 7, limit % 7;
    SmallSevenths(r);
    SharePart(limit, High, 7, q, r);
    SharePart(limit, Medium, 7, q, r);
    SharePart(limit, Low, 7, q, r);
    hide Share, Nearest;
  }

  lemma SharesOfSix(limit: nat)
    ensures Share(limit, High, 6) + Share(limit, Medium, 6) == limit
    ensures Nearest(limit, High, 6) && Nearest(limit, Medium, 6)
  {
    var q, r := limit / 6, limit % 6;
    SmallSixths(r);
    SharePart(limit, High, 6, q, r);
    SharePart(limit, Medium, 6, q, r);
    hide Share, Nearest;
  }

  lemma SharesOfFive(limit: nat)
    ensures Share(limit, High, 5) + Share(limit, Low, 5) == limit
    ensures Nearest(limit, High, 5) && Nearest(limit, Low, 5)
  {
    var q, r := limit / 5, limit % 5;
    SmallFifths(r);
    SharePart(limit, High, 5, q, r);
    SharePart(limit, Low, 5, q, r);
    hide Share, Nearest;
  }

  lemma SharesOfThree(limit: nat)
    ensures Share(limit, Medium, 3) + Share(limit, Low, 3) == limit
    ensures Nearest(limit, Medium, 3) && Nearest(limit, Low, 3)
  {
    var q, r := limit / 3, limit % 3;
    SmallThirds(r);
    SharePart(limit, Medium, 3, q, r);
    SharePart(limit, Low, 3, q, r);
    hide Share, Nearest;
  }

  lemma SharesOfOne(limit: nat)
    ensures Share(limit, High, 4) == Share(limit, Medium, 2) == Share(limit, Low, 1) == limit
    ensures Nearest(limit, High, 4) && Nearest(limit, Medium, 2) && Nearest(limit, Low, 1)
  {
  }

  /**
   * For every limit and every set of classes with demand the rounded shares
   * add up to the limit exactly, and no share is rounded from a tie.
   */
  lemma SharesSumToLimit(limit: nat, s: set<PriorityClass>)
    requires s != {} && s <= KNOWN
    ensures TotalWeight(s) > 0
    ensures ShareIn(limit, High, s) + ShareIn(limit, Medium, s) + ShareIn(limit, Low, s) == limit
    ensures forall c :: c in s ==> Nearest(limit, c, TotalWeight(s))
  {
    ActiveHasWeight(s);
    SharesOfSeven(limit);
    SharesOfSix(limit);
    SharesOfFive(limit);
    SharesOfThree(limit);
    SharesOfOne(limit);
  }

  /** With demand in all classes High, Medium and Low get 4, 2 and 1 sevenths, to the nearest unit. */
  lemma SharesByWeight(limit: nat)
    ensures -3 <= 7 * ShareIn(limit, High, KNOWN) - 4 * limit <= 3
    ensures -3 <= 7 * ShareIn(limit, Medium, KNOWN) - 2 * limit <= 3
    ensures -3 <= 7 * ShareIn(limit, Low, KNOWN) - limit <= 3
  {
    SharesOfSeven(limit);
    assert TotalWeight(KNOWN) == 7;
    hide Share, TotalWeight;
  }

  /**
   * The source divides in double precision and rounds half up. Any quotient x
   * within the rounding error of a double, 1 part in TWO_53, gives the same share.
   */
  lemma ShareSurvivesRounding(limit: nat, c: PriorityClass, s: set<PriorityClass>, x: real)
    requires c in s && s <= KNOWN && limit < 0x4_0000_0000_0000
    requires RoundedQuotient(limit * Weight(c), TotalWeight(s), x)
    ensures (x + 0.5).Floor == ShareIn(limit, c, s)
  {
    SharesSumToLimit(limit, s);
    assert limit * Weight(c) < 0x10_0000_0000_0000;
    hide Share, Weight, TotalWeight, RoundedQuotient;
    NearestFloor(limit * Weight(c), TotalWeight(s), Share(limit, c, TotalWeight(s)), x);
  }

  /** x differs from n / total by at most the relative error of a rounded double. */
  predicate RoundedQuotient(n: nat, total: nat, x: real) {
    -(n as real) <= (x * total as real - n as real) * 9_007_199_254_740_992.0 <= n as real
  }

  lemma NearestFloor(n: nat, total: nat, share: nat, x: real)
    requires total > 0 && n < 0x10_0000_0000_0000
    requires -(total as int) < 2 * (share * total - n) < total
    requires RoundedQuotient(n, total, x)
    ensures (x + 0.5).Floor == share
  {
    var t := total as real;
    var err := x * t - n as real;
    assert -0.5 < err < 0.5;
    var d := x + 0.5 - share as real;
    var product := share * total;
    assert product as real == share as real * t;
    var gap := n - product;
    assert 1.0 - t <= 2.0 * gap as real <= t - 1.0;
    var scaled := err + gap as real + t / 2.0;
    assert scaled == d * t;
    assert 0.0 < scaled < t;
    Between(d, t, scaled);
  }

  lemma ProductSign(a: real, t: real)
    ensures a >= 0.0 && t >= 0.0 ==> a * t >= 0.0
  {
  }

  lemma Between(d: real, t: real, scaled: real)
    requires scaled == d * t && 0.0 < scaled < t
    ensures 0.0 < d < 1.0
  {
    ProductSign(-d, t);
    ProductSign(d - 1.0, t);
  }

  /**
   * Conservation: class quotas and shared pool make up the limit, so the
   * negative clamp never fires, and every quota stays within the demand, the
   * ceiling and the share of its class.
   */
  lemma SplitConserves(limit: nat, demand: Tally)
    ensures var b := SplitLimit(limit, demand);
      && (forall k :: k in b.classes <==> k in KNOWN && k in demand && demand[k] > 0)
      && b.classes.Keys == Active(demand)
      && b.shared == limit - Total(b.classes) && b.shared >= 0
    ensures forall c :: c in Active(demand) ==>
      var quota := SplitLimit(limit, demand).classes[c];
      && 0 <= quota <= At(demand, c)
      && quota <= Cap(c, limit)
      && quota <= ShareIn(limit, c, Active(demand))
      && (quota == At(demand, c) || quota == Cap(c, limit) || quota == ShareIn(limit, c, Active(demand)))
  {
    var active := Active(demand);
    assert forall k :: k in active <==> k in KNOWN && k in demand && demand[k] > 0;
    if active != {} {
      ActiveHasWeight(active);
      SharesSumToLimit(limit, active);
      var b := SplitLimit(limit, demand);
      assert forall c :: c in KNOWN ==> At(b.classes, c) <= ShareIn(limit, c, active);
    }
  }
}
