/** Minimum, rounded mean and peak of sampled values. */
module ResourceSummary {
  import opened Rounding
  import opened Statistics
  import opened Wrappers

  datatype Numeric = Numeric(minimum: real, mean: real, peak: real)

  /** lo and hi are the exact extremes of the values. */
  ghost predicate Extremes(values: seq<real>, lo: real, hi: real) {
    && lo in values && hi in values
    && forall i :: 0 <= i < |values| ==> lo <= values[i] <= hi
  }

  method BuildNumericStatistics(values: seq<real>) returns (statistics: Option<Numeric>)
    ensures statistics.None? <==> values == []
    ensures statistics.Some? ==>
              && Extremes(values, statistics.value.minimum, statistics.value.peak)
              && statistics.value.mean == Round6(Mean(values))
  {
    if |values| == 0 {
      return None;
    }
    var minimum, peak, total := values[0], values[0], 0.0;
    for i := 0 to |values|
      invariant minimum in values && peak in values
      invariant i > 0 ==> minimum <= values[0] <= peak
      invariant forall j :: 0 <= j < i ==> minimum <= values[j] <= peak
      invariant total == Sum(values[..i])
    {
      assert values[..i + 1][..i] == values[..i];
      total := total + values[i];
      if values[i] < minimum {
        minimum := values[i];
      }
      if values[i] > peak {
        peak := values[i];
      }
    }
    assert values[..|values|] == values;
    statistics := Some(Numeric(minimum, Round6(total / |values| as real), peak));
  }

  function ToReals(values: seq<int>): (reals: seq<real>)
    ensures |reals| == |values|
  {
    seq(|values|, i requires 0 <= i < |values| => values[i] as real)
  }

  datatype Integral = Integral(minimum: int, mean: real, peak: int)

  method BuildIntegerStatistics(values: seq<int>) returns (statistics: Option<Integral>)
    ensures statistics.None? <==> values == []
    ensures statistics.Some? ==>
              && Extremes(ToReals(values), statistics.value.minimum as real, statistics.value.peak as real)
              && statistics.value.mean == Round6(Mean(ToReals(values)))
              && statistics.value.minimum as real <= statistics.value.mean <= statistics.value.peak as real
  {
    if |values| == 0 {
      return None;
    }
    var minimum, peak, total := values[0], values[0], 0.0;
    ghost var reals := ToReals(values);
    ghost var lowest, highest := 0, 0;
    for i := 0 to |values|
      invariant 0 <= lowest < |values| && minimum == values[lowest]
      invariant 0 <= highest < |values| && peak == values[highest]
      invariant forall j :: 0 <= j < i ==> minimum <= values[j] <= peak
      invariant total == Sum(reals[..i])
    {
      assert reals[..i + 1][..i] == reals[..i];
      total := total + values[i] as real;
      if values[i] < minimum {
        minimum, lowest := values[i], i;
      }
      if values[i] > peak {
        peak, highest := values[i], i;
      }
    }
    assert reals[..|values|] == reals;
    assert reals[lowest] == minimum as real && reals[highest] == peak as real;
    statistics := Some(Integral(minimum, Round6(total / |values| as real), peak));
    WholeNumberOnGrid(minimum);
    WholeNumberOnGrid(peak);
    MeanWithinExtremes(reals, minimum as real, peak as real);
  }

  lemma WholeNumberOnGrid(k: int)
    ensures OnGrid(k as real)
  {
    assert k as real * 1000000.0 == (k * 1000000) as real;
    assert ((k * 1000000) as real).Floor == k * 1000000;
  }

  /** The rounded mean stays between extremes that have at most six decimals. */
  lemma MeanWithinExtremes(values: seq<real>, lo: real, hi: real)
    requires values != [] && Extremes(values, lo, hi) && OnGrid(lo) && OnGrid(hi)
    ensures lo <= Round6(Mean(values)) <= hi
  {
    MeanBetween(values, lo, hi);
    RoundMonotone(lo, Mean(values));
    RoundMonotone(Mean(values), hi);
    RoundFixesGrid(lo);
    RoundFixesGrid(hi);
  }
}
