/**
 The six-decimal rounding applied to every figure of a benchmark report.
 Floating point numbers are modelled as reals; `RoundHalfAway` is the rounding mode of Go's math.Round.
 */
module Rounding {
  import opened Arithmetic

  function RoundHalfAway(x: real): int {
    if x >= 0.0 then (x + 0.5).Floor else -((-x + 0.5).Floor)
  }

  function Round6(x: real): real {
    RoundHalfAway(x * 1000000.0) as real / 1000000.0
  }

  /** x is a whole number of millionths. */
  predicate OnGrid(x: real) {
    x * 1000000.0 == (x * 1000000.0).Floor as real
  }

  function Abs(x: real): real {
    if x < 0.0 then -x else x
  }

  lemma FloorMonotone(x: real, y: real)
    requires x <= y
    ensures x.Floor <= y.Floor
  {
    assert x.Floor as real < (y.Floor + 1) as real;
  }

  lemma HalfAwayMonotone(x: real, y: real)
    requires x <= y
    ensures RoundHalfAway(x) <= RoundHalfAway(y)
  {
    if x >= 0.0 {
      FloorMonotone(x + 0.5, y + 0.5);
    } else if y < 0.0 {
      FloorMonotone(-y + 0.5, -x + 0.5);
    } else {
      FloorMonotone(0.5, -x + 0.5);
      FloorMonotone(0.5, y + 0.5);
    }
  }

  lemma RoundMonotone(x: real, y: real)
    requires x <= y
    ensures Round6(x) <= Round6(y)
  {
    HalfAwayMonotone(x * 1000000.0, y * 1000000.0);
  }

  lemma RoundOdd(x: real)
    ensures Round6(-x) == -Round6(x)
  {
    assert (-x) * 1000000.0 == -(x * 1000000.0);
  }

  lemma GridPoint(k: int)
    ensures OnGrid(k as real / 1000000.0)
    ensures Round6(k as real / 1000000.0) == k as real / 1000000.0
  {
    assert k as real / 1000000.0 * 1000000.0 == k as real;
    assert (k as real).Floor == k;
    assert RoundHalfAway(k as real) == k;
  }

  /** Rounding keeps exactly the numbers that are on the grid, so rounding twice is rounding once. */
  lemma RoundFixesGrid(x: real)
    ensures Round6(x) == x <==> OnGrid(x)
    ensures OnGrid(Round6(x))
    ensures Round6(Round6(x)) == Round6(x)
  {
    GridPoint(RoundHalfAway(x * 1000000.0));
    if OnGrid(x) {
      var k := (x * 1000000.0).Floor;
      assert x == k as real / 1000000.0;
      GridPoint(k);
    }
  }

  /** No grid point is closer to x than Round6(x), and of two equally close ones the larger magnitude is taken. */
  lemma RoundIsNearest(x: real, g: real)
    requires OnGrid(g)
    ensures Abs(Round6(x) - x) <= 0.0000005
    ensures Abs(Round6(x) - x) <= Abs(g - x)
    ensures Abs(Round6(x) - x) == Abs(g - x) ==> Abs(g) <= Abs(Round6(x))
  {
    var k := RoundHalfAway(x * 1000000.0);
    var m := (g * 1000000.0).Floor;
    assert Round6(x) * 1000000.0 == k as real;
    assert g * 1000000.0 == m as real;
    assert m <= k - 1 || m == k || m >= k + 1;
  }

  /**
   Two non-negative shares of a whole that is on the grid round to shares that miss the whole by at
   most one millionth, and they miss it exactly when the first lies halfway between grid points.
   */
  lemma RoundComplement(x: real, whole: real)
    requires 0.0 <= x <= whole && OnGrid(whole)
    ensures Halfway(x) ==> Round6(x) + Round6(whole - x) == whole + 0.000001
    ensures !Halfway(x) ==> Round6(x) + Round6(whole - x) == whole
  {
    var t := x * 1000000.0;
    var w := (whole * 1000000.0).Floor;
    assert (whole - x) * 1000000.0 == w as real - t;
    assert ((w as real - t) + 0.5).Floor == w + (0.5 - t).Floor;
    var f := t.Floor;
    if Halfway(x) {
      assert (t + 0.5).Floor == f + 1;
      assert (0.5 - t).Floor == -f;
    } else if t - f as real < 0.5 {
      assert (t + 0.5).Floor == f;
      assert (0.5 - t).Floor == -f;
    } else {
      assert (t + 0.5).Floor == f + 1;
      assert (0.5 - t).Floor == -f - 1;
    }
  }

  predicate Halfway(x: real) {
    x * 1000000.0 - (x * 1000000.0).Floor as real == 0.5
  }

  /** Rounding never turns a sign around. */
  lemma RoundKeepsSign(x: real)
    ensures x >= 0.0 ==> Round6(x) >= 0.0
    ensures x <= 0.0 ==> Round6(x) <= 0.0
  {
    assert Round6(0.0) == 0.0;
    if x >= 0.0 {
      RoundMonotone(0.0, x);
    } else {
      RoundMonotone(x, 0.0);
    }
  }

  /** Rounding a factor moves the product by at most half a unit times the other factor. */
  lemma ScaledRounding(w: real, x: real)
    requires w > 0.0
    ensures Abs(Times(w, Round6(x)) - Times(w, x)) <= w * 0.0000005
  {
    RoundFixesGrid(x);
    RoundIsNearest(x, Round6(x));
    TimesMonotone(w, x - 0.0000005, Round6(x));
    TimesMonotone(w, Round6(x), x + 0.0000005);
    assert Times(w, x - 0.0000005) == Times(w, x) - w * 0.0000005;
    assert Times(w, x + 0.0000005) == Times(w, x) + w * 0.0000005;
  }
}
