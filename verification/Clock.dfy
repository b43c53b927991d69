/** Instants and durations, counted in nanoseconds as Go's time package counts them. */
module Clock {
  type Time = int

  const SECOND: int := 1_000_000_000

  /** The longest whole number of seconds a 64-bit nanosecond count can hold. */
  const MAX_SECONDS: int := 9_223_372_036

  const INT64_MAX: int := 0x7FFF_FFFF_FFFF_FFFF
  const INT64_SPAN: int := 0x1_0000_0000_0000_0000

  /** Two's-complement wrap-around of a 64-bit signed result. */
  function Wrap64(n: int): int {
    (n + INT64_MAX + 1) % INT64_SPAN - INT64_MAX - 1
  }

  /** The duration of n seconds: the product wraps when it leaves 64 bits. */
  function Seconds(n: int): (d: Time)
    ensures 0 <= n <= MAX_SECONDS ==> d == n * SECOND
    ensures d <= INT64_MAX
  {
    Wrap64(n * SECOND)
  }

  /**
   * A window length in seconds gives a duration that ends in the future exactly
   * up to MAX_SECONDS; the first longer one already lands in the past.
   */
  lemma SecondsBoundary()
    ensures forall n :: 0 < n <= MAX_SECONDS ==> Seconds(n) == n * 1_000_000_000 && Seconds(n) > 0
    ensures Seconds(MAX_SECONDS + 1) < 0
  {
  }

  /** Any length gives the 64-bit number congruent to its nanoseconds. */
  lemma SecondsWrap(n: int)
    ensures -0x8000_0000_0000_0000 <= Seconds(n) < 0x8000_0000_0000_0000
    ensures exists k: int :: Seconds(n) == n * 1_000_000_000 + k * 0x1_0000_0000_0000_0000
  {
    var k := (n * SECOND + INT64_MAX + 1) / INT64_SPAN;
    assert Seconds(n) == n * 1_000_000_000 + (-k) * 0x1_0000_0000_0000_0000;
  }
}
