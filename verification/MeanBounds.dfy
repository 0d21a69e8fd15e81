/** Exactly which extremes keep the rounded mean between them, whatever the values in between are. */
module MeanBounds {
  import opened Arithmetic
  import opened ResourceSummary
  import opened Rounding
  import opened Statistics

  /**
   Neither extreme is rounded outwards. One that lies halfway between two grid points may be, as long as the
   values are not all equal, because their mean then stays on the inner side of it.
   */
  predicate RoundsInward(lo: real, hi: real) {
    && (Round6(lo) >= lo || (lo < hi && Halfway(lo)))
    && (Round6(hi) <= hi || (lo < hi && Halfway(hi)))
  }

  // ---------- the condition is enough ----------

  lemma AboveHalfway(x: real, m: real)
    requires Halfway(x) && m > x
    ensures Round6(m) >= x
  {
    var k := (x * 1000000.0).Floor;
    assert m * 1000000.0 > k as real + 0.5;
    assert RoundHalfAway(m * 1000000.0) >= k + 1;
  }

  lemma HalfwayOdd(x: real)
    ensures Halfway(-x) <==> Halfway(x)
  {
    var t := x * 1000000.0;
    assert (-x) * 1000000.0 == -t;
    if Halfway(x) {
      assert (-t).Floor == -t.Floor - 1;
    }
    if Halfway(-x) {
      assert t.Floor == -(-t).Floor - 1;
    }
  }

  lemma {:induction false} SumAbove(values: seq<real>, lo: real, i: nat)
    requires i < |values| && forall j :: 0 <= j < |values| ==> lo <= values[j]
    ensures Sum(values) >= lo * (|values| - 1) as real + values[i]
  {
    var n := |values| - 1;
    var front := values[..n];
    assert lo * n as real == lo * (n - 1) as real + lo;
    if i < n {
      SumAbove(front, lo, i);
      assert |front| == n && front[i] == values[i];
    } else {
      AtLeast(front, lo);
    }
  }

  lemma {:induction false} AtLeast(values: seq<real>, lo: real)
    requires forall j :: 0 <= j < |values| ==> lo <= values[j]
    ensures Sum(values) >= lo * |values| as real
  {
    if values != [] {
      var n := |values| - 1;
      AtLeast(values[..n], lo);
      assert lo * (n + 1) as real == lo * n as real + lo;
    }
  }

  lemma MeanAbove(values: seq<real>, lo: real, hi: real)
    requires values != [] && Extremes(values, lo, hi) && lo < hi
    ensures Mean(values) > lo
  {
    var i :| 0 <= i < |values| && values[i] == hi;
    var n := |values| as real;
    SumAbove(values, lo, i);
    assert lo * (|values| - 1) as real == lo * n - lo;
    assert Sum(values) > lo * n;
    MeanOf(Sum(values), n, lo);
  }

  lemma MeanOf(sum: real, n: real, lo: real)
    requires n > 0.0 && sum > lo * n
    ensures sum / n > lo
  {
    var q := sum / n;
    QuotientTimes(sum, n);
    if q <= lo {
      ScaleMonotone(n, q, lo);
    }
  }

  lemma LowEnd(values: seq<real>, lo: real, hi: real)
    requires values != [] && Extremes(values, lo, hi) && (Round6(lo) >= lo || (lo < hi && Halfway(lo)))
    ensures lo <= Round6(Mean(values))
  {
    if Round6(lo) >= lo {
      MeanBetween(values, lo, hi);
      RoundMonotone(lo, Mean(values));
    } else {
      MeanAbove(values, lo, hi);
      AboveHalfway(lo, Mean(values));
    }
  }

  function Negated(values: seq<real>): (negated: seq<real>)
    ensures |negated| == |values|
  {
    seq(|values|, i requires 0 <= i < |values| => -values[i])
  }

  lemma {:induction false} SumNegated(values: seq<real>)
    ensures Sum(Negated(values)) == -Sum(values)
  {
    if values != [] {
      var n := |values| - 1;
      SumNegated(values[..n]);
      assert Negated(values)[..n] == Negated(values[..n]);
    }
  }

  lemma NegatedMirrors(values: seq<real>, lo: real, hi: real)
    requires values != [] && Extremes(values, lo, hi)
    ensures Extremes(Negated(values), -hi, -lo) && Mean(Negated(values)) == -Mean(values)
    ensures Round6(Mean(Negated(values))) == -Round6(Mean(values))
  {
    var i :| 0 <= i < |values| && values[i] == lo;
    var j :| 0 <= j < |values| && values[j] == hi;
    assert Negated(values)[i] == -lo && Negated(values)[j] == -hi;
    SumNegated(values);
    NegatedQuotient(Sum(values), |values| as real);
    RoundOdd(Mean(values));
  }

  lemma NegatedQuotient(x: real, n: real)
    requires n > 0.0
    ensures (-x) / n == -(x / n)
  {
    QuotientTimes(x, n);
    QuotientTimes(-x, n);
    CancelFactor((-x) / n, -(x / n), n);
  }

  /** Between such extremes the reported mean is between the reported minimum and peak. */
  lemma MeanStays(values: seq<real>, lo: real, hi: real)
    requires values != [] && Extremes(values, lo, hi) && RoundsInward(lo, hi)
    ensures lo <= Round6(Mean(values)) <= hi
  {
    LowEnd(values, lo, hi);
    NegatedMirrors(values, lo, hi);
    RoundOdd(hi);
    HalfwayOdd(hi);
    LowEnd(Negated(values), -hi, -lo);
  }

  // ---------- the condition is necessary ----------

  function Copies(x: real, n: nat): (copies: seq<real>)
    ensures |copies| == n && forall i :: 0 <= i < n ==> copies[i] == x
  {
    if n == 0 then [] else Copies(x, n - 1) + [x]
  }

  lemma {:induction false} SumCopies(x: real, n: nat)
    ensures Sum(Copies(x, n)) == x * n as real
  {
    if n > 0 {
      SumCopies(x, n - 1);
      assert Copies(x, n)[..n - 1] == Copies(x, n - 1);
      OneMore(x, n - 1);
    }
  }

  lemma OneMore(x: real, n: nat)
    ensures x * (n + 1) as real == x * n as real + x
  {
    assert (n + 1) as real == n as real + 1.0;
  }

  /** A value that is rounded down, and not from halfway, takes its neighbourhood above along. */
  lemma RoundedDown(lo: real) returns (margin: real)
    requires Round6(lo) < lo && !Halfway(lo)
    ensures margin > 0.0 && forall m :: lo <= m < lo + margin ==> Round6(m) <= Round6(lo)
  {
    var t := lo * 1000000.0;
    var k := RoundHalfAway(t);
    margin := (k as real + 0.5) / 1000000.0 - lo;
    assert k as real < t <= k as real + 0.5;
    assert t.Floor == k;
    assert t < k as real + 0.5;
    forall m | lo <= m < lo + margin ensures Round6(m) <= Round6(lo) {
      assert m * 1000000.0 < k as real + 0.5;
      assert RoundHalfAway(m * 1000000.0) <= k;
    }
  }

  lemma ManyCopies(lo: real, hi: real, margin: real) returns (values: seq<real>)
    requires lo <= hi && margin > 0.0
    ensures values != [] && Extremes(values, lo, hi) && lo <= Mean(values) < lo + margin
  {
    var n: nat := ((hi - lo) / margin).Floor + 1;
    QuotientTimes(hi - lo, margin);
    values := Copies(lo, n) + [hi];
    assert values[0] == lo && values[n] == hi;
    assert values[..n] == Copies(lo, n);
    SumCopies(lo, n);
    assert Sum(values) == lo * n as real + hi;
    MeanBetween(values, lo, hi);
    NearLow(lo, hi, margin, n, (hi - lo) / margin, Sum(values));
  }

  lemma NearLow(lo: real, hi: real, margin: real, n: nat, q: real, sum: real)
    requires margin > 0.0 && q * margin == hi - lo && q < n as real && sum == lo * n as real + hi
    ensures sum / (n + 1) as real < lo + margin
  {
    var d := (n + 1) as real;
    assert q * margin < d * margin by { ScaleStrict(margin, q, d); }
    assert lo * d == lo * n as real + lo;
    assert (lo + margin) * d == lo * d + d * margin;
    assert sum < (lo + margin) * d;
    var mean := sum / d;
    QuotientTimes(sum, d);
    if mean >= lo + margin {
      ScaleMonotone(d, lo + margin, mean);
    }
  }

  lemma LowEscapes(lo: real, hi: real) returns (values: seq<real>)
    requires lo <= hi && Round6(lo) < lo && !(lo < hi && Halfway(lo))
    ensures values != [] && Extremes(values, lo, hi) && Round6(Mean(values)) < lo
  {
    if lo == hi {
      values := [lo];
      assert values[..0] == [] && Sum(values) == lo;
    } else {
      var margin := RoundedDown(lo);
      values := ManyCopies(lo, hi, margin);
    }
  }

  /** For all other extremes there are values whose reported mean is outside the reported minimum and peak. */
  lemma MeanEscapes(lo: real, hi: real) returns (values: seq<real>)
    requires lo <= hi && !RoundsInward(lo, hi)
    ensures values != [] && Extremes(values, lo, hi) && !(lo <= Round6(Mean(values)) <= hi)
  {
    if Round6(lo) < lo && !(lo < hi && Halfway(lo)) {
      values := LowEscapes(lo, hi);
    } else {
      RoundOdd(hi);
      HalfwayOdd(hi);
      var mirrored := LowEscapes(-hi, -lo);
      NegatedMirrors(mirrored, -hi, -lo);
      values := Negated(mirrored);
    }
  }
}
