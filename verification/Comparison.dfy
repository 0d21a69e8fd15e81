/** The comparison of the forwarded path of a scenario with its direct path. */
module Comparison {
  import opened Arithmetic
  import opened Requests
  import opened Rounding
  import opened Runner
  import opened Wrappers
  import Statistics

  function Difference(baseline: real, value: real): real {
    Round6(value - baseline)
  }

  function PercentageChange(baseline: real, value: real): real {
    if baseline == 0.0 then 0.0 else Round6((value - baseline) / baseline * 100.0)
  }

  datatype Latency = Latency(mean: real, median: real, p95: real, p99: real)
  {
    function Negated(): Latency {
      Latency(-mean, -median, -p95, -p99)
    }

    ghost predicate All(p: real -> bool) {
      p(mean) && p(median) && p(p95) && p(p99)
    }
  }

  datatype Reliability = Reliability(success: real, failure: real, timeout: real)
  {
    function Negated(): Reliability {
      Reliability(-success, -failure, -timeout)
    }
  }

  datatype ScenarioComparison = ScenarioComparison(overhead: Latency, overheadPercent: Latency, reliability: Reliability)

  /** The published latency figures are zero when no request succeeded. */
  function Figures(l: SuccessfulLatency): Latency {
    match l
    case NoSamples => Latency(0.0, 0.0, 0.0, 0.0)
    case Samples(_, s) => Latency(s.mean, s.median, s.p95, s.p99)
  }

  function Overhead(d: Latency, f: Latency): Latency {
    Latency(Difference(d.mean, f.mean), Difference(d.median, f.median),
            Difference(d.p95, f.p95), Difference(d.p99, f.p99))
  }

  function ReliabilityDelta(d: RequestRates, f: RequestRates): Reliability {
    Reliability(Difference(d.success, f.success), Difference(d.failure, f.failure), Difference(d.timeout, f.timeout))
  }

  function Compare(direct: PathResult, forwarded: PathResult): ScenarioComparison {
    var d, f := Figures(direct.latency), Figures(forwarded.latency);
    ScenarioComparison(
      Overhead(d, f),
      Latency(PercentageChange(d.mean, f.mean), PercentageChange(d.median, f.median),
              PercentageChange(d.p95, f.p95), PercentageChange(d.p99, f.p99)),
      ReliabilityDelta(direct.rates, forwarded.rates))
  }

  /** Figures of a path as RunPath publishes them: rounded, and non-negative latencies. */
  ghost predicate Published(r: PathResult) {
    && Figures(r.latency).All(x => OnGrid(x) && x >= 0.0)
    && OnGrid(r.rates.success) && OnGrid(r.rates.failure) && OnGrid(r.rates.timeout)
  }

  /** Every result of RunPath is published in that sense. */
  lemma MeasuredIsPublished(r: PathResult, latencies: seq<int>)
    requires r.rates == CalculateRequestRates(r.requests) && LatencyOf(latencies) == Ok(r.latency)
    ensures Published(r)
  {
    RatesOnGrid(r.requests);
    assert OnGrid(0.0);
    if latencies != [] {
      assert Statistics.Calculate(latencies) == Ok(r.latency.statistics);
      LatenciesOnGrid(latencies);
    }
  }

  lemma LatenciesOnGrid(latencies: seq<int>)
    requires Statistics.Calculate(latencies).Ok?
    ensures var s := Statistics.Calculate(latencies).value;
            Latency(s.mean, s.median, s.p95, s.p99).All(x => OnGrid(x) && x >= 0.0)
  {
    Statistics.StatisticsOrdered(latencies);
    FiguresOnGrid(Statistics.ToMilliseconds(latencies));
  }

  lemma FiguresOnGrid(values: seq<real>)
    requires values != []
    ensures var s := Statistics.StatisticsOf(values);
            OnGrid(s.mean) && OnGrid(s.median) && OnGrid(s.p95) && OnGrid(s.p99)
  {
    Statistics.SortIsOrderedPermutation(values);
    var s := Statistics.Sort(values);
    RoundFixesGrid(Statistics.Mean(s));
    RoundFixesGrid(Statistics.Percentile(s, 50.0));
    RoundFixesGrid(Statistics.Percentile(s, 95.0));
    RoundFixesGrid(Statistics.Percentile(s, 99.0));
  }

  lemma RatesOnGrid(requests: RequestCounts)
    ensures var r := CalculateRequestRates(requests); OnGrid(r.success) && OnGrid(r.failure) && OnGrid(r.timeout)
  {
    if requests.attempted > 0 {
      RoundFixesGrid(requests.successful as real / requests.attempted as real * 100.0);
      RoundFixesGrid(requests.failed as real / requests.attempted as real * 100.0);
      RoundFixesGrid(requests.timeouts as real / requests.attempted as real * 100.0);
    } else {
      assert OnGrid(0.0);
    }
  }

  lemma GridDifference(x: real, y: real)
    requires OnGrid(x) && OnGrid(y)
    ensures Round6(x - y) == x - y
  {
    var i, j := (x * 1000000.0).Floor, (y * 1000000.0).Floor;
    assert (x - y) * 1000000.0 == (i - j) as real;
    assert ((i - j) as real).Floor == i - j;
    RoundFixesGrid(x - y);
  }

  /**
   No information is lost: the published differences are exact, so the direct figures and the comparison
   give back the forwarded figures.
   */
  lemma OverheadIsExact(direct: PathResult, forwarded: PathResult)
    requires Published(direct) && Published(forwarded)
    ensures var c, d, f := Compare(direct, forwarded), Figures(direct.latency), Figures(forwarded.latency);
            && f == Latency(d.mean + c.overhead.mean, d.median + c.overhead.median,
                            d.p95 + c.overhead.p95, d.p99 + c.overhead.p99)
            && forwarded.rates == RequestRates(direct.rates.success + c.reliability.success,
                                               direct.rates.failure + c.reliability.failure,
                                               direct.rates.timeout + c.reliability.timeout)
  {
    var d, f := Figures(direct.latency), Figures(forwarded.latency);
    GridDifference(f.mean, d.mean);
    GridDifference(f.median, d.median);
    GridDifference(f.p95, d.p95);
    GridDifference(f.p99, d.p99);
    GridDifference(forwarded.rates.success, direct.rates.success);
    GridDifference(forwarded.rates.failure, direct.rates.failure);
    GridDifference(forwarded.rates.timeout, direct.rates.timeout);
  }

  lemma DifferenceSwaps(x: real, y: real)
    ensures Difference(x, y) == -Difference(y, x)
  {
    RoundOdd(x - y);
    assert y - x == -(x - y);
  }

  lemma OverheadSwaps(d: Latency, f: Latency)
    ensures Overhead(f, d) == Overhead(d, f).Negated()
  {
    assert Difference(f.mean, d.mean) == -Difference(d.mean, f.mean) by { DifferenceSwaps(f.mean, d.mean); }
    assert Difference(f.median, d.median) == -Difference(d.median, f.median) by { DifferenceSwaps(f.median, d.median); }
    assert Difference(f.p95, d.p95) == -Difference(d.p95, f.p95) by { DifferenceSwaps(f.p95, d.p95); }
    assert Difference(f.p99, d.p99) == -Difference(d.p99, f.p99) by { DifferenceSwaps(f.p99, d.p99); }
  }

  lemma ReliabilitySwaps(d: RequestRates, f: RequestRates)
    ensures ReliabilityDelta(f, d) == ReliabilityDelta(d, f).Negated()
  {
    assert Difference(f.success, d.success) == -Difference(d.success, f.success) by { DifferenceSwaps(f.success, d.success); }
    assert Difference(f.failure, d.failure) == -Difference(d.failure, f.failure) by { DifferenceSwaps(f.failure, d.failure); }
    assert Difference(f.timeout, d.timeout) == -Difference(d.timeout, f.timeout) by { DifferenceSwaps(f.timeout, d.timeout); }
  }

  /** Exchanging the two paths negates every difference. */
  lemma SwapNegates(direct: PathResult, forwarded: PathResult)
    ensures var c, s := Compare(direct, forwarded), Compare(forwarded, direct);
            && s.overhead == c.overhead.Negated()
            && s.reliability == c.reliability.Negated()
  {
    OverheadSwaps(Figures(direct.latency), Figures(forwarded.latency));
    ReliabilitySwaps(direct.rates, forwarded.rates);
  }

  ghost predicate SignsAgree(difference: real, change: real) {
    !(difference > 0.0 && change < 0.0) && !(difference < 0.0 && change > 0.0)
  }

  lemma ChangeFollowsDifference(baseline: real, value: real)
    requires baseline >= 0.0
    ensures SignsAgree(Difference(baseline, value), PercentageChange(baseline, value))
  {
    RoundKeepsSign(value - baseline);
    if baseline > 0.0 {
      var ratio := (value - baseline) / baseline;
      assert ratio * baseline == value - baseline;
      assert ratio >= 0.0 <==> value - baseline >= 0.0;
      RoundKeepsSign(ratio * 100.0);
    }
  }

  /**
   The percentage of a baseline gives the difference back, up to half a millionth of a percent of the baseline,
   except for a zero baseline, of which no percentage is known.
   */
  lemma ChangeMeasuresDifference(baseline: real, value: real)
    requires baseline != 0.0
    ensures Abs(Times(baseline, PercentageChange(baseline, value)) - (value - baseline) * 100.0)
              <= Abs(baseline) * 0.0000005
  {
    var exact := (value - baseline) / baseline * 100.0;
    SignedQuotient(value - baseline, baseline);
    assert Times(baseline, exact) == (value - baseline) * 100.0;
    if baseline > 0.0 {
      ScaledRounding(baseline, exact);
    } else {
      ScaledRounding(-baseline, exact);
      assert Times(-baseline, exact) == -Times(baseline, exact);
      assert Times(-baseline, Round6(exact)) == -Times(baseline, Round6(exact));
    }
  }

  lemma SignedQuotient(x: real, y: real)
    requires y != 0.0
    ensures x / y * y == x
  {
  }

  /** An overhead says how far f is above d: exactly in milliseconds, and to half a millionth in percent of d. */
  ghost predicate Measures(overhead: real, percent: real, d: real, f: real) {
    && overhead == f - d
    && if d == 0.0 then percent == 0.0
       else OnGrid(percent) && Abs(Times(d, percent) - (f - d) * 100.0) <= Abs(d) * 0.0000005
  }

  lemma DifferenceMeasures(d: real, f: real)
    requires OnGrid(d) && OnGrid(f)
    ensures Measures(Difference(d, f), PercentageChange(d, f), d, f)
  {
    GridDifference(f, d);
    if d != 0.0 {
      ChangeMeasuresDifference(d, f);
      RoundFixesGrid((f - d) / d * 100.0);
    }
  }

  // The statistics of a path, zero if no query succeeded.

  function MeanOf(path: PathResult): real {
    if path.latency.Samples? then path.latency.statistics.mean else 0.0
  }

  function MedianOf(path: PathResult): real {
    if path.latency.Samples? then path.latency.statistics.median else 0.0
  }

  function P95Of(path: PathResult): real {
    if path.latency.Samples? then path.latency.statistics.p95 else 0.0
  }

  function P99Of(path: PathResult): real {
    if path.latency.Samples? then path.latency.statistics.p99 else 0.0
  }

  /** Each overhead compares its own statistic of the two paths. */
  lemma OverheadsMeasure(direct: PathResult, forwarded: PathResult)
    requires Published(direct) && Published(forwarded)
    ensures var c := Compare(direct, forwarded);
            && Measures(c.overhead.mean, c.overheadPercent.mean, MeanOf(direct), MeanOf(forwarded))
            && Measures(c.overhead.median, c.overheadPercent.median, MedianOf(direct), MedianOf(forwarded))
            && Measures(c.overhead.p95, c.overheadPercent.p95, P95Of(direct), P95Of(forwarded))
            && Measures(c.overhead.p99, c.overheadPercent.p99, P99Of(direct), P99Of(forwarded))
  {
    DifferenceMeasures(MeanOf(direct), MeanOf(forwarded));
    DifferenceMeasures(MedianOf(direct), MedianOf(forwarded));
    DifferenceMeasures(P95Of(direct), P95Of(forwarded));
    DifferenceMeasures(P99Of(direct), P99Of(forwarded));
  }

  /** An overhead in milliseconds and the same overhead in percent never point in opposite directions. */
  lemma OverheadSignsAgree(direct: PathResult, forwarded: PathResult)
    requires Figures(direct.latency).All(x => x >= 0.0)
    ensures var c := Compare(direct, forwarded);
            && SignsAgree(c.overhead.mean, c.overheadPercent.mean)
            && SignsAgree(c.overhead.median, c.overheadPercent.median)
            && SignsAgree(c.overhead.p95, c.overheadPercent.p95)
            && SignsAgree(c.overhead.p99, c.overheadPercent.p99)
  {
    var d, f := Figures(direct.latency), Figures(forwarded.latency);
    ChangeFollowsDifference(d.mean, f.mean);
    ChangeFollowsDifference(d.median, f.median);
    ChangeFollowsDifference(d.p95, f.p95);
    ChangeFollowsDifference(d.p99, f.p99);
  }
}
