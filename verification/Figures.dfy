/** The published latency figures told in whole nanoseconds and whole ranks. */
module Figures {
  import opened Arithmetic
  import opened Rounding
  import opened Statistics
  import opened Wrappers

  ghost predicate Ascending(ns: seq<int>) {
    forall i, j :: 0 <= i < j < |ns| ==> ns[i] <= ns[j]
  }

  function Total(ns: seq<int>): int {
    if ns == [] then 0 else Total(ns[..|ns| - 1]) + ns[|ns| - 1]
  }

  /** A hundredth of the way from rank to rank for every percent that is left over. */
  function AtPercent(ns: seq<int>, percent: nat): real
    requires ns != [] && percent <= 100
  {
    var steps := (|ns| - 1) * percent;
    RankInRange(|ns|, percent);
    if steps % 100 == 0 then ns[steps / 100] as real
    else ns[steps / 100] as real + (ns[steps / 100 + 1] - ns[steps / 100]) as real * (steps % 100) as real / 100.0
  }

  lemma RankInRange(n: nat, percent: nat)
    requires n > 0 && percent <= 100
    ensures var steps := (n - 1) * percent;
            0 <= steps / 100 < n && (steps % 100 != 0 ==> steps / 100 + 1 < n)
  {
    StepsBounded(n - 1, percent);
    LastRank(n - 1, (n - 1) * percent);
  }

  lemma StepsBounded(last: nat, percent: nat)
    requires percent <= 100
    ensures 0 <= last * percent <= last * 100
  {
    assert last * (100 - percent) >= 0;
  }

  lemma LastRank(last: nat, steps: nat)
    requires steps <= last * 100
    ensures 0 <= steps / 100 <= last && (steps % 100 != 0 ==> steps / 100 < last)
  {
  }

  /**
   The six figures, from the samples in ascending order: the extremes are exact, the mean is the rounded quotient of
   the total, and the median and the two high percentiles sit 50, 95 and 99 hundredths of the way up the ranks.
   */
  lemma FiguresExactly(samples: seq<int>, ns: seq<int>)
    requires Calculate(samples).Ok? && Ascending(ns) && multiset(ns) == multiset(samples)
    ensures ns != []
    ensures var r := Calculate(samples).value;
            && r.minimum * 1000000.0 == ns[0] as real && r.maximum * 1000000.0 == ns[|ns| - 1] as real
            && r.mean == Round6(Total(ns) as real / 1000000.0 / |ns| as real)
            && r.median == Round6(AtPercent(ns, 50) / 1000000.0)
            && r.p95 == Round6(AtPercent(ns, 95) / 1000000.0)
            && r.p99 == Round6(AtPercent(ns, 99) / 1000000.0)
  {
    var r := Calculate(samples).value;
    CalculatedFromSorted(samples, ns);
    ExtremesExactly(r, ns);
    MeanExactly(ns);
    RanksExactly(r, ns);
  }

  /** What the statistics are, of values whose sorted list is s. */
  ghost predicate Summarizes(r: LatencyStatistics, s: seq<real>) {
    && s != []
    && r.minimum == Round6(s[0]) && r.maximum == Round6(s[|s| - 1]) && r.mean == Round6(Mean(s))
    && r.median == Round6(Percentile(s, 50.0)) && r.p95 == Round6(Percentile(s, 95.0))
    && r.p99 == Round6(Percentile(s, 99.0))
  }

  lemma FromSorted(values: seq<real>, s: seq<real>)
    requires values != [] && s != [] && Sort(values) == s
    ensures Summarizes(StatisticsOf(values), s)
  {
  }

  lemma CalculatedFromSorted(samples: seq<int>, ns: seq<int>)
    requires Calculate(samples).Ok? && Ascending(ns) && multiset(ns) == multiset(samples)
    ensures Summarizes(Calculate(samples).value, ToMilliseconds(ns))
  {
    SameLength(ns, samples);
    SortedSamples(samples, ns);
    FromSorted(ToMilliseconds(samples), ToMilliseconds(ns));
  }

  lemma ExtremesExactly(r: LatencyStatistics, ns: seq<int>)
    requires ns != [] && Summarizes(r, ToMilliseconds(ns))
    ensures r.minimum * 1000000.0 == ns[0] as real && r.maximum * 1000000.0 == ns[|ns| - 1] as real
  {
    ExactNanoseconds(ns[0]);
    ExactNanoseconds(ns[|ns| - 1]);
  }

  lemma MeanExactly(ns: seq<int>)
    requires ns != []
    ensures Mean(ToMilliseconds(ns)) == Total(ns) as real / 1000000.0 / |ns| as real
  {
    SumOfMilliseconds(ns);
    SameQuotient(Sum(ToMilliseconds(ns)), Total(ns) as real / 1000000.0, |ns| as real);
  }

  lemma SameQuotient(sum: real, total: real, n: real)
    requires n > 0.0 && sum == total
    ensures sum / n == total / n
  {
  }

  lemma RanksExactly(r: LatencyStatistics, ns: seq<int>)
    requires ns != [] && Summarizes(r, ToMilliseconds(ns))
    ensures r.median == Round6(AtPercent(ns, 50) / 1000000.0)
    ensures r.p95 == Round6(AtPercent(ns, 95) / 1000000.0)
    ensures r.p99 == Round6(AtPercent(ns, 99) / 1000000.0)
  {
    PercentilesExactly(ns);
  }

  lemma PercentilesExactly(ns: seq<int>)
    requires ns != []
    ensures Percentile(ToMilliseconds(ns), 50.0) == AtPercent(ns, 50) / 1000000.0
    ensures Percentile(ToMilliseconds(ns), 95.0) == AtPercent(ns, 95) / 1000000.0
    ensures Percentile(ToMilliseconds(ns), 99.0) == AtPercent(ns, 99) / 1000000.0
  {
    PercentileExactly(ns, 50);
    PercentileExactly(ns, 95);
    PercentileExactly(ns, 99);
  }

  lemma SortedSamples(samples: seq<int>, ns: seq<int>)
    requires Ascending(ns) && multiset(ns) == multiset(samples)
    ensures Sort(ToMilliseconds(samples)) == ToMilliseconds(ns)
  {
    var values := ToMilliseconds(samples);
    MillisecondsContents(ns, samples);
    SortIsOrderedPermutation(values);
    forall i, j | 0 <= i < j < |ns| ensures Milliseconds(ns[i]) <= Milliseconds(ns[j]) {
      DivideMonotone(ns[i] as real, ns[j] as real, 1000000.0);
    }
    SortedIsUnique(Sort(values), ToMilliseconds(ns));
  }

  lemma ExactNanoseconds(ns: int)
    ensures Round6(Milliseconds(ns)) * 1000000.0 == ns as real
  {
    GridPoint(ns);
  }

  lemma {:induction false} SumOfMilliseconds(ns: seq<int>)
    ensures Sum(ToMilliseconds(ns)) == Total(ns) as real / 1000000.0
  {
    if ns != [] {
      var n := |ns| - 1;
      SumOfMilliseconds(ns[..n]);
      assert ToMilliseconds(ns)[..n] == ToMilliseconds(ns[..n]);
      assert Total(ns) as real == Total(ns[..n]) as real + ns[n] as real;
    }
  }

  /** A whole number of hundredths. */
  lemma Hundredths(steps: int)
    requires steps >= 0
    ensures (steps as real / 100.0).Floor == steps / 100
    ensures Ceil(steps as real / 100.0) == steps / 100 + if steps % 100 == 0 then 0 else 1
    ensures steps as real / 100.0 - (steps / 100) as real == (steps % 100) as real / 100.0
  {
    var q, r := steps / 100, steps % 100;
    assert steps == 100 * q + r;
    assert steps as real / 100.0 == q as real + r as real / 100.0;
    assert (-(steps as real / 100.0)).Floor == -q - if r == 0 then 0 else 1;
  }

  lemma PositionOfPercent(n: nat, percent: nat)
    requires n > 0 && percent <= 100
    ensures Position(n, percent as real) == ((n - 1) * percent) as real / 100.0
  {
    assert (n - 1) as real * percent as real == ((n - 1) * percent) as real;
  }

  lemma PercentileExactly(ns: seq<int>, percent: nat)
    requires ns != [] && percent <= 100
    ensures Percentile(ToMilliseconds(ns), percent as real) == AtPercent(ns, percent) / 1000000.0
  {
    var steps, s := (|ns| - 1) * percent, ToMilliseconds(ns);
    RankInRange(|ns|, percent);
    if |ns| > 1 {
      PositionOfPercent(|ns|, percent);
      Hundredths(steps);
      if steps % 100 != 0 {
        var lower, upper := ns[steps / 100], ns[steps / 100 + 1];
        BetweenRanks(lower as real, upper as real, (steps % 100) as real);
        assert (upper - lower) as real == upper as real - lower as real;
      }
    }
  }

  lemma BetweenRanks(lower: real, upper: real, rest: real)
    ensures lower / 1000000.0 + Times(upper / 1000000.0 - lower / 1000000.0, rest / 100.0)
         == (lower + (upper - lower) * rest / 100.0) / 1000000.0
  {
  }
}
