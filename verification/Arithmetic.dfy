/** Non-linear facts about real products and quotients. */
module Arithmetic {

  /** Multiplication under a name, so that products match as terms. */
  function Times(x: real, y: real): real {
    x * y
  }

  lemma TimesMonotone(k: real, x: real, y: real)
    requires 0.0 <= k && x <= y
    ensures Times(k, x) <= Times(k, y)
  {
    assert k * (y - x) >= 0.0;
  }

  lemma TimesBounds(k: real, f: real)
    requires 0.0 <= f <= 1.0 && 0.0 <= k
    ensures 0.0 <= Times(k, f) <= k
  {
    assert k * f >= 0.0;
    assert k * (1.0 - f) >= 0.0;
  }

  lemma ScaleMonotone(k: real, x: real, y: real)
    requires 0.0 <= k && x <= y
    ensures k * x <= k * y
  {
    assert k * (y - x) >= 0.0;
  }

  lemma ScaleStrict(k: real, x: real, y: real)
    requires 0.0 < k && x < y
    ensures x * k < y * k
  {
    assert (y - x) * k > 0.0;
  }

  lemma QuotientBetween(lo: real, total: real, hi: real, n: real)
    requires n > 0.0 && lo * n <= total <= hi * n
    ensures lo <= total / n <= hi
  {
    var q := total / n;
    assert q * n == total;
    if q < lo { ScaleStrict(n, q, lo); }
    if hi < q { ScaleStrict(n, hi, q); }
  }

  lemma DivideMonotone(a: real, b: real, n: real)
    requires a <= b && n > 0.0
    ensures a / n <= b / n
  {
    var p, q := a / n, b / n;
    assert p * n == a && q * n == b;
    if q < p { ScaleStrict(n, q, p); }
  }

  lemma FractionBounds(r: real, d: real)
    requires 0.0 <= r < d
    ensures 0.0 <= r / d < 1.0
  {
    var f := r / d;
    assert f * d == r;
    if f < 0.0 { ScaleStrict(d, f, 0.0); }
    if f >= 1.0 { ScaleMonotone(d, 1.0, f); }
  }

  lemma CancelFactor(x: real, y: real, k: real)
    requires k != 0.0 && x * k == y * k
    ensures x == y
  {
    assert (x - y) * k == 0.0;
  }

  lemma DivMod(n: int, d: int)
    requires d > 0
    ensures n == (n / d) * d + n % d && 0 <= n % d < d
  {
  }

  lemma Multiple(k: int, d: int)
    requires d > 0
    ensures k >= 1 ==> k * d >= d
    ensures k <= -1 ==> k * d <= -d
  {
    if k >= 1 {
      assert (k - 1) * d >= 0;
    } else if k <= -1 {
      assert (-1 - k) * d >= 0;
    }
  }

  lemma Remainder(q: int, r: int, d: int)
    requires 0 <= r < d
    ensures (q * d + r) % d == r
  {
    var n := q * d + r;
    DivMod(n, d);
    assert (n / d - q) * d == r - n % d;
    Multiple(n / d - q, d);
  }

  lemma QuotientTimes(p: real, n: real)
    requires n > 0.0
    ensures p / n * n == p
    ensures p >= 0.0 ==> p / n >= 0.0
  {
    var q := p / n;
    assert q * n == p;
    if q < 0.0 { ScaleStrict(n, q, 0.0); }
  }
}
