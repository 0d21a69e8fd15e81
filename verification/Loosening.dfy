/** What happens to the status of a measured benchmark when the configured thresholds are loosened. */
module Loosening {
  import opened Report
  import opened Requests
  import opened Rounding
  import opened Runner
  import opened Verdicts
  import Comparison
  import Statistics
  import Suite
  import SummaryRates

  function ReportStatus(scenarios: seq<ScenarioResult>, configured: Thresholds): Status {
    Summarize(ClassifyScenarios(scenarios, ResolvedThresholds(configured))).status
  }

  /**
   Loosening leaves "all zero", which stands for the defaults, for thresholds of which one is below its
   default by so much that a reportable rate, a whole number of millionths of a percent, fits in between.
   */
  predicate LeavesDefaults(from: Thresholds, to: Thresholds) {
    && from == NO_THRESHOLDS && to != NO_THRESHOLDS
    && (|| to.degradedFailure <= 1.0 - 0.000001 || to.failedFailure <= 5.0 - 0.000001
        || to.degradedTimeout <= 1.0 - 0.000001 || to.failedTimeout <= 5.0 - 0.000001)
  }

  // ---------- otherwise it helps ----------

  lemma WholeNumbers(x: real, y: real, r: int, b: int)
    requires x == r as real && y == b as real && x > y - 1.0
    ensures x >= y
  {
    assert (r - b) as real > -1.0;
  }

  lemma NothingBetween(rate: real, x: real, bound: real)
    requires OnGrid(rate) && OnGrid(bound) && bound - 0.000001 < x <= rate
    ensures bound <= rate
  {
    var r, b := (rate * 1000000.0).Floor, (bound * 1000000.0).Floor;
    assert rate * 1000000.0 == r as real && bound * 1000000.0 == b as real;
    WholeNumbers(rate * 1000000.0, bound * 1000000.0, r, b);
  }

  lemma RateLoosens(rate: real, degraded: real, failed: real)
    requires OnGrid(rate) && degraded > 1.0 - 0.000001 && failed > 5.0 - 0.000001
    ensures RateSeverity(rate, degraded, failed) <= RateSeverity(rate, 1.0, 5.0)
  {
    assert OnGrid(1.0) && OnGrid(5.0);
    if rate >= failed {
      NothingBetween(rate, failed, 5.0);
    } else if rate >= degraded {
      NothingBetween(rate, degraded, 1.0);
    }
  }

  lemma PathLoosens(path: PathResult, to: Thresholds)
    requires path.rates == CalculateRequestRates(path.requests) && !LeavesDefaults(NO_THRESHOLDS, to)
    ensures PathSeverity(path, ResolvedThresholds(to)) <= PathSeverity(path, DEFAULT_THRESHOLDS)
  {
    if to != NO_THRESHOLDS {
      Comparison.RatesOnGrid(path.requests);
      RateLoosens(path.rates.failure, to.degradedFailure, to.failedFailure);
      RateLoosens(path.rates.timeout, to.degradedTimeout, to.failedTimeout);
    }
  }

  lemma {:induction false} PathsLoosen(paths: seq<PathResult>, to: Thresholds)
    requires forall i :: 0 <= i < |paths| ==> paths[i].rates == CalculateRequestRates(paths[i].requests)
    requires !LeavesDefaults(NO_THRESHOLDS, to)
    ensures WorstSeverity(paths, ResolvedThresholds(to)) <= WorstSeverity(paths, DEFAULT_THRESHOLDS)
  {
    if paths != [] {
      PathsLoosen(paths[..|paths| - 1], to);
      PathLoosens(paths[|paths| - 1], to);
    }
  }

  /** Loosening the configured thresholds does not worsen the status of any measured benchmark ... */
  lemma LooseningHelps(scenarios: seq<ScenarioResult>, from: Thresholds, to: Thresholds)
    requires SummaryRates.Measured(scenarios) && to.LooserThan(from) && !LeavesDefaults(from, to)
    ensures Severity(ReportStatus(scenarios, to)) <= Severity(ReportStatus(scenarios, from))
  {
    if from == NO_THRESHOLDS {
      StatusIsWorstPath(scenarios, ResolvedThresholds(to));
      StatusIsWorstPath(scenarios, DEFAULT_THRESHOLDS);
      PathsLoosen(Paths(scenarios), to);
    } else {
      StatusMonotone(scenarios, scenarios, ResolvedThresholds(to), from);
    }
  }

  // ---------- in that case it hurts ----------

  const WITNESS_QUERIES := 100000000

  /** A path with this many failures among its hundred million queries, timeouts or network errors, all fast. */
  function FailingPath(failed: int, timeouts: bool): PathResult {
    var requests := RequestCounts(WITNESS_QUERIES, WITNESS_QUERIES - failed, failed,
                                  if timeouts then failed else 0, if timeouts then 0 else failed);
    PathResult(requests, FailureCounts(requests.timeouts, requests.nonTimeoutFailures, 0, 0, 0, 0),
               CalculateRequestRates(requests),
               Samples(requests.successful, Statistics.LatencyStatistics(0.0, 0.0, 0.0, 0.0, 0.0, 0.0)))
  }

  function Everywhere(path: PathResult): (scenarios: seq<ScenarioResult>)
    ensures |scenarios| == |Suite.SCENARIO_NAMES|
  {
    seq(|Suite.SCENARIO_NAMES|, i requires 0 <= i < |Suite.SCENARIO_NAMES| =>
      ScenarioResult(Suite.SCENARIO_NAMES[i], Unknown, [], path, path))
  }

  lemma FailingRates(failed: int, timeouts: bool)
    requires 0 <= failed <= WITNESS_QUERIES
    ensures Conserved(FailingPath(failed, timeouts).requests)
    ensures FailingPath(failed, timeouts).rates.failure == failed as real / 1000000.0
    ensures FailingPath(failed, timeouts).rates.timeout == if timeouts then failed as real / 1000000.0 else 0.0
  {
    GridPoint(failed);
    GridPoint(0);
    assert failed as real / WITNESS_QUERIES as real * 100.0 == failed as real / 1000000.0;
  }

  lemma {:induction false} PathsEverywhere(scenarios: seq<ScenarioResult>, path: PathResult, t: Thresholds)
    requires forall i :: 0 <= i < |scenarios| ==> scenarios[i].direct == scenarios[i].forwarded == path
    ensures forall i :: 0 <= i < |Paths(scenarios)| ==> Paths(scenarios)[i] == path
    ensures scenarios != [] ==> WorstSeverity(Paths(scenarios), t) == PathSeverity(path, t)
  {
    if scenarios != [] {
      var n := |scenarios| - 1;
      PathsEverywhere(scenarios[..n], path, t);
      WorstSeverityPair(Paths(scenarios[..n]), path, path, t);
    }
  }

  lemma StatusEverywhere(path: PathResult, t: Thresholds)
    ensures Severity(Summarize(ClassifyScenarios(Everywhere(path), t)).status) == PathSeverity(path, t)
  {
    StatusIsWorstPath(Everywhere(path), t);
    PathsEverywhere(Everywhere(path), path, t);
  }

  /** The largest reportable rate below the default that the new thresholds no longer tolerate. */
  function WitnessPath(to: Thresholds): PathResult {
    if to.degradedFailure <= 1.0 - 0.000001 then FailingPath(999999, false)
    else if to.failedFailure <= 5.0 - 0.000001 then FailingPath(4999999, false)
    else if to.degradedTimeout <= 1.0 - 0.000001 then FailingPath(999999, true)
    else FailingPath(4999999, true)
  }

  lemma WitnessWorsens(to: Thresholds)
    requires LeavesDefaults(NO_THRESHOLDS, to)
    ensures PathSeverity(WitnessPath(to), to) > PathSeverity(WitnessPath(to), DEFAULT_THRESHOLDS)
  {
    FailingRates(999999, false);
    FailingRates(4999999, false);
    FailingRates(999999, true);
    FailingRates(4999999, true);
  }

  /**
   ... unless it leaves the defaults in that sense: then there is a benchmark of four scenarios, with the
   counters, failure classes, rates and sample counts that a successful suite returns, whose status it worsens.
   */
  lemma LooseningHurts(from: Thresholds, to: Thresholds) returns (scenarios: seq<ScenarioResult>)
    requires LeavesDefaults(from, to)
    ensures Severity(ReportStatus(scenarios, to)) > Severity(ReportStatus(scenarios, from))
    ensures SummaryRates.Measured(scenarios)
    ensures |scenarios| == |Suite.SCENARIO_NAMES|
    ensures forall i, c: Suite.Config :: 0 <= i < |scenarios| && c.queryCount == WITNESS_QUERIES ==>
                                           Suite.MeasuredScenario(c, i + 1, scenarios[i])
    ensures forall i :: 0 <= i < |Paths(scenarios)| ==>
                          && Paths(scenarios)[i].failures.Total() == Paths(scenarios)[i].requests.failed
                          && Paths(scenarios)[i].failures.timeout == Paths(scenarios)[i].requests.timeouts
                          && Paths(scenarios)[i].latency.Count() == Paths(scenarios)[i].requests.successful
  {
    var path := WitnessPath(to);
    scenarios := Everywhere(path);
    WitnessWorsens(to);
    StatusEverywhere(path, to);
    StatusEverywhere(path, DEFAULT_THRESHOLDS);
    PathsEverywhere(scenarios, path, to);
  }

  /** Loosening from one configuration to another never worsens the status of a measured benchmark. */
  ghost predicate NeverWorse(from: Thresholds, to: Thresholds) {
    forall scenarios: seq<ScenarioResult> :: SummaryRates.Measured(scenarios) ==>
                                               Severity(ReportStatus(scenarios, to)) <= Severity(ReportStatus(scenarios, from))
  }

  lemma LooseningExactly(from: Thresholds, to: Thresholds)
    requires to.LooserThan(from)
    ensures NeverWorse(from, to) <==> !LeavesDefaults(from, to)
  {
    if LeavesDefaults(from, to) {
      var scenarios := LooseningHurts(from, to);
    } else {
      forall scenarios: seq<ScenarioResult> | SummaryRates.Measured(scenarios)
        ensures Severity(ReportStatus(scenarios, to)) <= Severity(ReportStatus(scenarios, from))
      {
        LooseningHelps(scenarios, from, to);
      }
    }
  }
}
