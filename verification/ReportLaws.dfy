/** What a report says, in terms of the paths it was made from. */
module ReportLaws {
  import opened Report
  import opened Requests
  import opened Runner
  import opened SummaryRates
  import opened Verdicts
  import opened Wrappers

  // ---------- reasons ----------

  /** The threshold that a rate has reached: the failed one if possible. */
  predicate Reached(rate: real, degraded: real, failed: real, threshold: Option<real>) {
    if rate >= failed then threshold == Some(failed) else rate >= degraded && threshold == Some(degraded)
  }

  /** The reason is a true statement about this path. */
  predicate Holds(r: Reason, scenario: string, name: PathName, path: PathResult, t: Thresholds) {
    && r.scenario == scenario && r.path == Some(name)
    && match r.code
       case NoRequestsAttempted => path.requests.attempted <= 0 && r.observed == None && r.threshold == None
       case FailureRateExceeded =>
         && path.requests.attempted > 0 && r.observed == Some(path.rates.failure)
         && Reached(path.rates.failure, t.degradedFailure, t.failedFailure, r.threshold)
       case TimeoutRateExceeded =>
         && path.requests.attempted > 0 && r.observed == Some(path.rates.timeout)
         && Reached(path.rates.timeout, t.degradedTimeout, t.failedTimeout, r.threshold)
       case NoScenariosExecuted => false
  }

  predicate HoldsOf(r: Reason, s: ScenarioResult, t: Thresholds) {
    Holds(r, s.name, Direct, s.direct, t) || Holds(r, s.name, Forwarded, s.forwarded, t)
  }

  /** Direct before forwarded, failures before timeouts. */
  function Rank(r: Reason): int {
    (if r.path == Some(Forwarded) then 2 else 0) + (if r.code.TimeoutRateExceeded? then 1 else 0)
  }

  ghost predicate InOrder(reasons: seq<Reason>) {
    forall i, j :: 0 <= i < j < |reasons| ==> Rank(reasons[i]) < Rank(reasons[j])
  }

  /** What classifying one path appends. */
  function PathReasons(scenario: string, name: PathName, path: PathResult, t: Thresholds): seq<Reason> {
    ClassifyPath(Verdict(Passed, []), scenario, name, path, t).reasons
  }

  lemma PathReasonsAppended(v: Verdict, scenario: string, name: PathName, path: PathResult, t: Thresholds)
    ensures ClassifyPath(v, scenario, name, path, t).reasons == v.reasons + PathReasons(scenario, name, path, t)
  {
  }

  lemma PathReasonsExactly(r: Reason, scenario: string, name: PathName, path: PathResult, t: Thresholds)
    ensures r in PathReasons(scenario, name, path, t) <==> Holds(r, scenario, name, path, t)
  {
  }

  lemma PathReasonsOrdered(scenario: string, name: PathName, path: PathResult, t: Thresholds)
    ensures InOrder(PathReasons(scenario, name, path, t))
    ensures forall r :: r in PathReasons(scenario, name, path, t) ==> r.path == Some(name)
  {
  }

  /** The reasons of a scenario are exactly the true ones, each once and in order. */
  lemma ScenarioReasonsExactly(s: ScenarioResult, t: Thresholds)
    ensures forall r :: r in ClassifyScenario(s, t).reasons <==> HoldsOf(r, s, t)
    ensures InOrder(ClassifyScenario(s, t).reasons)
  {
    var direct, forwarded := PathReasons(s.name, Direct, s.direct, t), PathReasons(s.name, Forwarded, s.forwarded, t);
    var reasons := ClassifyScenario(s, t).reasons;
    assert reasons == direct + forwarded by {
      PathReasonsAppended(ClassifyPath(Verdict(Passed, []), s.name, Direct, s.direct, t),
                          s.name, Forwarded, s.forwarded, t);
    }
    forall r ensures r in reasons <==> HoldsOf(r, s, t) {
      PathReasonsExactly(r, s.name, Direct, s.direct, t);
      PathReasonsExactly(r, s.name, Forwarded, s.forwarded, t);
    }
    PathReasonsOrdered(s.name, Direct, s.direct, t);
    PathReasonsOrdered(s.name, Forwarded, s.forwarded, t);
    JoinInOrder(direct, forwarded);
  }

  lemma JoinInOrder(direct: seq<Reason>, forwarded: seq<Reason>)
    requires InOrder(direct) && InOrder(forwarded)
    requires forall r :: r in direct ==> r.path == Some(Direct)
    requires forall r :: r in forwarded ==> r.path == Some(Forwarded)
    ensures InOrder(direct + forwarded)
  {
    var all := direct + forwarded;
    forall i, j | 0 <= i < j < |all| ensures Rank(all[i]) < Rank(all[j]) {
      if i < |direct| {
        assert direct[i] in direct;
      }
      if j >= |direct| {
        assert forwarded[j - |direct|] in forwarded;
      }
    }
  }

  ghost predicate SomeHolds(r: Reason, scenarios: seq<ScenarioResult>, t: Thresholds) {
    exists i :: 0 <= i < |scenarios| && HoldsOf(r, scenarios[i], t)
  }

  lemma LastHolds(r: Reason, scenarios: seq<ScenarioResult>, t: Thresholds)
    requires scenarios != []
    ensures var n := |scenarios| - 1;
            SomeHolds(r, scenarios, t) <==> SomeHolds(r, scenarios[..n], t) || HoldsOf(r, scenarios[n], t)
  {
    var n := |scenarios| - 1;
    assert forall i :: 0 <= i < n ==> scenarios[i] == scenarios[..n][i];
  }

  lemma LastReasons(r: Reason, scenarios: seq<ScenarioResult>)
    requires scenarios != []
    ensures var n := |scenarios| - 1;
            r in TotalsOf(scenarios).reasons <==> r in TotalsOf(scenarios[..n]).reasons || r in scenarios[n].reasons
  {
  }

  lemma {:induction false} TotalReasons(r: Reason, scenarios: seq<ScenarioResult>, t: Thresholds)
    ensures r in TotalsOf(ClassifyScenarios(scenarios, t)).reasons <==> SomeHolds(r, scenarios, t)
  {
    if scenarios != [] {
      var n, classified := |scenarios| - 1, ClassifyScenarios(scenarios, t);
      var front := classified[..n];
      assert front == ClassifyScenarios(scenarios[..n], t);
      TotalReasons(r, scenarios[..n], t);
      LastReasons(r, classified);
      LastHolds(r, scenarios, t);
      assert r in classified[n].reasons <==> HoldsOf(r, scenarios[n], t) by {
        ScenarioReasonsExactly(scenarios[n], t);
      }
    }
  }

  /** A report gives every reason that holds of one of its paths, and no other. */
  lemma ReportReasonsExactly(scenarios: seq<ScenarioResult>, t: Thresholds)
    ensures var reasons := Summarize(ClassifyScenarios(scenarios, t)).totals.reasons;
            if scenarios == [] then reasons == [Reason(NoScenariosExecuted, "", None, None, None)]
            else forall r :: r in reasons <==> SomeHolds(r, scenarios, t)
  {
    if scenarios != [] {
      forall r ensures r in TotalsOf(ClassifyScenarios(scenarios, t)).reasons <==> SomeHolds(r, scenarios, t) {
        TotalReasons(r, scenarios, t);
      }
    }
  }

  // ---------- the status ----------

  /** The k-th path of a report. */
  function PathAt(scenarios: seq<ScenarioResult>, k: nat): PathResult
    requires k < 2 * |scenarios|
  {
    if k % 2 == 0 then scenarios[k / 2].direct else scenarios[k / 2].forwarded
  }

  lemma {:induction false} PathsAt(scenarios: seq<ScenarioResult>, k: nat)
    requires k < 2 * |scenarios|
    ensures Paths(scenarios)[k] == PathAt(scenarios, k)
  {
    var n := |scenarios| - 1;
    if k < 2 * n {
      PathsAt(scenarios[..n], k);
      assert scenarios[..n][k / 2] == scenarios[k / 2];
    }
  }

  lemma {:induction false} WorstReaches(paths: seq<PathResult>, t: Thresholds, level: nat)
    requires level > 0
    ensures WorstSeverity(paths, t) >= level <==> exists i :: 0 <= i < |paths| && PathSeverity(paths[i], t) >= level
  {
    if paths != [] {
      var n := |paths| - 1;
      WorstReaches(paths[..n], t, level);
      assert forall i :: 0 <= i < n ==> paths[..n][i] == paths[i];
    }
  }

  predicate Idle(path: PathResult) {
    path.requests.attempted <= 0
  }

  /** A rate of the path has reached its limit. */
  predicate Exceeds(path: PathResult, failure: real, timeout: real) {
    path.rates.failure >= failure || path.rates.timeout >= timeout
  }

  lemma LevelOfPath(path: PathResult, t: Thresholds)
    ensures PathSeverity(path, t) >= 4 <==> Idle(path)
    ensures PathSeverity(path, t) >= 3 <==> Idle(path) || Exceeds(path, t.failedFailure, t.failedTimeout)
    ensures PathSeverity(path, t) >= 2 <==>
            || Idle(path) || Exceeds(path, t.failedFailure, t.failedTimeout)
            || Exceeds(path, t.degradedFailure, t.degradedTimeout)
  {
  }

  ghost predicate SomePathReaches(scenarios: seq<ScenarioResult>, t: Thresholds, level: nat) {
    exists k :: 0 <= k < 2 * |scenarios| && PathSeverity(PathAt(scenarios, k), t) >= level
  }

  lemma StatusReaches(scenarios: seq<ScenarioResult>, t: Thresholds, level: nat)
    requires scenarios != [] && level > 0
    ensures Severity(Summarize(ClassifyScenarios(scenarios, t)).status) >= level <==> SomePathReaches(scenarios, t, level)
  {
    var paths := Paths(scenarios);
    StatusIsWorstPath(scenarios, t);
    WorstReaches(paths, t, level);
    forall k | 0 <= k < |paths| ensures paths[k] == PathAt(scenarios, k) {
      PathsAt(scenarios, k);
    }
  }

  /**
   The status of a report that has scenarios: invalid if a path attempted nothing, otherwise failed or degraded if a
   rate of a path has reached that limit; limits that are all zero mean 1 and 5 percent.
   */
  lemma StatusExactly(scenarios: seq<ScenarioResult>, configured: Thresholds)
    requires scenarios != []
    ensures var status := Summarize(ClassifyScenarios(scenarios, ResolvedThresholds(configured))).status;
            var t := if configured == Thresholds(0.0, 0.0, 0.0, 0.0) then Thresholds(1.0, 5.0, 1.0, 5.0) else configured;
            status == (
              if exists k :: 0 <= k < 2 * |scenarios| && Idle(PathAt(scenarios, k)) then Invalid
              else if exists k :: 0 <= k < 2 * |scenarios|
                                  && Exceeds(PathAt(scenarios, k), t.failedFailure, t.failedTimeout) then Status.Failed
              else if exists k :: 0 <= k < 2 * |scenarios|
                                  && Exceeds(PathAt(scenarios, k), t.degradedFailure, t.degradedTimeout) then Degraded
              else Passed)
  {
    var t := ResolvedThresholds(configured);
    StatusReaches(scenarios, t, 4);
    StatusReaches(scenarios, t, 3);
    StatusReaches(scenarios, t, 2);
    StatusReaches(scenarios, t, 1);
    forall k | 0 <= k < 2 * |scenarios|
      ensures var path := PathAt(scenarios, k);
              && (PathSeverity(path, t) >= 4 <==> Idle(path))
              && (PathSeverity(path, t) >= 3 <==> Idle(path) || Exceeds(path, t.failedFailure, t.failedTimeout))
              && (PathSeverity(path, t) >= 2 <==>
                    || Idle(path) || Exceeds(path, t.failedFailure, t.failedTimeout)
                    || Exceeds(path, t.degradedFailure, t.degradedTimeout))
    {
      LevelOfPath(PathAt(scenarios, k), t);
    }
    assert PathSeverity(PathAt(scenarios, 0), t) >= 1;
  }

  // ---------- sums ----------

  function Sum(scenarios: seq<ScenarioResult>, figure: ScenarioResult -> int): int {
    if scenarios == [] then 0 else Sum(scenarios[..|scenarios| - 1], figure) + figure(scenarios[|scenarios| - 1])
  }

  /** Every counter is the sum of that counter over one path of all scenarios. */
  ghost predicate AddsUp(total: RequestCounts, scenarios: seq<ScenarioResult>, path: ScenarioResult -> PathResult) {
    && total.attempted == Sum(scenarios, s => path(s).requests.attempted)
    && total.successful == Sum(scenarios, s => path(s).requests.successful)
    && total.failed == Sum(scenarios, s => path(s).requests.failed)
    && total.timeouts == Sum(scenarios, s => path(s).requests.timeouts)
    && total.nonTimeoutFailures == Sum(scenarios, s => path(s).requests.nonTimeoutFailures)
  }

  lemma {:induction false} PathSums(scenarios: seq<ScenarioResult>)
    ensures AddsUp(TotalsOf(scenarios).direct, scenarios, (s: ScenarioResult) => s.direct)
    ensures AddsUp(TotalsOf(scenarios).forwarded, scenarios, (s: ScenarioResult) => s.forwarded)
  {
    if scenarios != [] {
      PathSums(scenarios[..|scenarios| - 1]);
    }
  }

  ghost predicate FieldwiseSum(total: RequestCounts, a: RequestCounts, b: RequestCounts) {
    && total.attempted == a.attempted + b.attempted && total.successful == a.successful + b.successful
    && total.failed == a.failed + b.failed && total.timeouts == a.timeouts + b.timeouts
    && total.nonTimeoutFailures == a.nonTimeoutFailures + b.nonTimeoutFailures
  }

  /** The counters of a report and of its two kinds of path, with the rates of each. */
  lemma SummaryAddsUp(scenarios: seq<ScenarioResult>)
    requires scenarios != []
    ensures var s := Summarize(scenarios);
            && AddsUp(s.totals.direct, scenarios, (s: ScenarioResult) => s.direct)
            && AddsUp(s.totals.forwarded, scenarios, (s: ScenarioResult) => s.forwarded)
            && FieldwiseSum(s.totals.requests, s.totals.direct, s.totals.forwarded)
            && RatesMeasure(s.rates, s.totals.requests)
            && RatesMeasure(s.directRates, s.totals.direct) && RatesMeasure(s.forwardedRates, s.totals.forwarded)
  {
    var t := TotalsOf(scenarios);
    PathSums(scenarios);
    TotalsAddUp(scenarios);
    CalculatedRates(t.requests);
    CalculatedRates(t.direct);
    CalculatedRates(t.forwarded);
  }

  // ---------- the worst path ----------

  /** The 95th percentile, or zero if nothing was measured. */
  function TailLatency(path: PathResult): real {
    if path.latency.Samples? then path.latency.statistics.p95 else 0.0
  }

  /** Compared by failure rate, then by timeout rate, then by tail latency. */
  predicate WorsePath(a: PathResult, b: PathResult) {
    || a.rates.failure > b.rates.failure
    || (a.rates.failure == b.rates.failure
        && (a.rates.timeout > b.rates.timeout
            || (a.rates.timeout == b.rates.timeout && TailLatency(a) > TailLatency(b))))
  }

  /** The entry that the report would make for the k-th path. */
  ghost predicate Describes(w: WorstScenario, scenarios: seq<ScenarioResult>, k: nat)
    requires k < 2 * |scenarios|
  {
    var path := PathAt(scenarios, k);
    && w.name == scenarios[k / 2].name && w.path == (if k % 2 == 0 then Direct else Forwarded)
    && w.failure == path.rates.failure && w.timeout == path.rates.timeout && w.p95 == TailLatency(path)
  }

  lemma {:induction false} CandidateAt(scenarios: seq<ScenarioResult>, k: nat)
    requires k < 2 * |scenarios|
    ensures Describes(Candidates(scenarios)[k], scenarios, k)
  {
    var n := |scenarios| - 1;
    if k < 2 * n {
      CandidateAt(scenarios[..n], k);
      assert scenarios[..n][k / 2] == scenarios[k / 2];
    }
  }

  lemma WorseDescribed(a: WorstScenario, b: WorstScenario, scenarios: seq<ScenarioResult>, i: nat, j: nat)
    requires i < 2 * |scenarios| && j < 2 * |scenarios| && Describes(a, scenarios, i) && Describes(b, scenarios, j)
    ensures IsWorse(a, b) <==> WorsePath(PathAt(scenarios, i), PathAt(scenarios, j))
  {
  }

  /** The reported worst scenario describes the first path that no other is worse than. */
  lemma WorstPathExactly(scenarios: seq<ScenarioResult>) returns (k: nat)
    requires scenarios != []
    ensures k < 2 * |scenarios|
    ensures TotalsOf(scenarios).worst.Some? && Describes(TotalsOf(scenarios).worst.value, scenarios, k)
    ensures forall j :: 0 <= j < 2 * |scenarios| ==> !WorsePath(PathAt(scenarios, j), PathAt(scenarios, k))
    ensures forall j :: 0 <= j < k ==> WorsePath(PathAt(scenarios, k), PathAt(scenarios, j))
  {
    k := WorstIsFirstMaximum(scenarios);
    var candidates := Candidates(scenarios);
    CandidateAt(scenarios, k);
    forall j | 0 <= j < 2 * |scenarios|
      ensures !WorsePath(PathAt(scenarios, j), PathAt(scenarios, k))
      ensures j < k ==> WorsePath(PathAt(scenarios, k), PathAt(scenarios, j))
    {
      CandidateAt(scenarios, j);
      WorseDescribed(candidates[j], candidates[k], scenarios, j, k);
      WorseDescribed(candidates[k], candidates[j], scenarios, k, j);
    }
  }
}
