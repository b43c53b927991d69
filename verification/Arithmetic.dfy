/** Products and quotients of integers. */
module Arithmetic {
  /** A multiple of w below w is not positive. */
  lemma SmallMultiple(n: int, w: int)
    requires w > 0 && n * w < w
    ensures n <= 0
  {
    if n > 0 {
      MultipleGrows(n, w);
    }
  }

  lemma {:induction false} MultipleGrows(n: int, w: int)
    requires w > 0 && n > 0
    ensures n * w >= w
  {
    if n > 1 {
      MultipleGrows(n - 1, w);
      assert n * w == (n - 1) * w + w;
    }
  }

  lemma QuotientMonotone(a: int, b: int, w: int)
    requires w > 0 && a <= b
    ensures a / w <= b / w
  {
    var i, j := a / w, b / w;
    assert a == i * w + a % w && b == j * w + b % w;
    assert (i - j) * w == i * w - j * w;
    SmallMultiple(i - j, w);
  }

  lemma QuotientStep(a: int, w: int)
    requires w > 0
    ensures (a - w) / w == a / w - 1
  {
    var i, j := a / w, (a - w) / w;
    assert a == i * w + a % w && a - w == j * w + (a - w) % w;
    assert (i - j - 1) * w == i * w - j * w - w;
    assert (j - i + 1) * w == j * w - i * w + w;
    SmallMultiple(i - j - 1, w);
    SmallMultiple(j - i + 1, w);
  }

  /** One more factor adds one more m. */
  lemma {:induction false} ScaledStep(m: int, a: int, b: int)
    requires m >= 0 && a + 1 <= b
    ensures m * a + m <= m * b
    decreases b - a
  {
    if a + 1 < b {
      ScaledStep(m, a + 1, b);
    }
    Unfold(m, a);
  }

  lemma Unfold(m: int, a: int)
    ensures m * (a + 1) == m * a + m
  {
  }

  lemma Distribute(m: int, k: int)
    ensures m * (k + 1) + m == (k + 2) * m
  {
  }

  lemma QuotientShift(a: int, d: int, k: int)
    requires d > 0
    ensures (d * k + a) / d == k + a / d
  {
    var i, j := a / d, (d * k + a) / d;
    assert a == i * d + a % d && d * k + a == j * d + (d * k + a) % d;
    assert (j - k - i) * d == j * d - d * k - i * d;
    assert (k + i - j) * d == d * k + i * d - j * d;
    SmallMultiple(j - k - i, d);
    SmallMultiple(k + i - j, d);
  }

  lemma QuotientIs(n: int, d: int, v: int)
    requires d > 0 && d * v <= n < d * v + d
    ensures n / d == v
  {
    var i := n / d;
    assert n == i * d + n % d;
    assert (v - i) * d == d * v - i * d && (i - v) * d == i * d - d * v;
    SmallMultiple(v - i, d);
    SmallMultiple(i - v, d);
  }
}
