/** Laws of the status of a report. */
module Verdicts {
  import opened Requests
  import opened Report
  import opened Runner
  import opened Wrappers

  // ---------- a reference definition: one maximum over all paths and both rates ----------

  function Max(a: nat, b: nat): nat {
    if a < b then b else a
  }

  function RateSeverity(observed: real, degraded: real, failed: real): nat {
    if observed >= failed then 3 else if observed >= degraded then 2 else 1
  }

  function PathSeverity(path: PathResult, t: Thresholds): nat {
    if path.requests.attempted <= 0 then 4
    else Max(RateSeverity(path.rates.failure, t.degradedFailure, t.failedFailure),
             RateSeverity(path.rates.timeout, t.degradedTimeout, t.failedTimeout))
  }

  /** All paths in report order: direct and forwarded of each scenario. */
  function Paths(scenarios: seq<ScenarioResult>): (paths: seq<PathResult>)
    ensures |paths| == 2 * |scenarios|
  {
    if scenarios == [] then []
    else
      var last := scenarios[|scenarios| - 1];
      Paths(scenarios[..|scenarios| - 1]) + [last.direct, last.forwarded]
  }

  function WorstSeverity(paths: seq<PathResult>, t: Thresholds): nat {
    if paths == [] then 0
    else Max(WorstSeverity(paths[..|paths| - 1], t), PathSeverity(paths[|paths| - 1], t))
  }

  lemma AddRateSeverity(v: Verdict, rate: (Status, Option<Reason>))
    requires rate.1.None? <==> Severity(rate.0) <= 1
    requires Severity(v.status) >= 1
    ensures Severity(AddRate(v, rate).status) == Max(Severity(v.status), Severity(rate.0))
    ensures AddRate(v, rate).reasons == [] <==> v.reasons == [] && Severity(rate.0) <= 1
  {
  }

  lemma ClassifyPathSeverity(v: Verdict, scenario: string, name: PathName, path: PathResult, t: Thresholds)
    requires Severity(v.status) >= 1
    ensures Severity(ClassifyPath(v, scenario, name, path, t).status) == Max(Severity(v.status), PathSeverity(path, t))
    ensures ClassifyPath(v, scenario, name, path, t).reasons == [] <==> v.reasons == [] && PathSeverity(path, t) == 1
  {
    var f := ClassifyRate(FailureRateExceeded, scenario, name, path.rates.failure, t.degradedFailure, t.failedFailure);
    var o := ClassifyRate(TimeoutRateExceeded, scenario, name, path.rates.timeout, t.degradedTimeout, t.failedTimeout);
    AddRateSeverity(v, f);
    AddRateSeverity(AddRate(v, f), o);
  }

  lemma ScenarioSeverity(s: ScenarioResult, t: Thresholds)
    ensures Severity(ClassifyScenario(s, t).status) == Max(PathSeverity(s.direct, t), PathSeverity(s.forwarded, t))
    ensures ClassifyScenario(s, t).reasons == [] <==> ClassifyScenario(s, t).status.Passed?
    ensures !ClassifyScenario(s, t).status.Unknown?
  {
    var v := Verdict(Passed, []);
    ClassifyPathSeverity(v, s.name, Direct, s.direct, t);
    ClassifyPathSeverity(ClassifyPath(v, s.name, Direct, s.direct, t), s.name, Forwarded, s.forwarded, t);
  }

  function SeverityOfNames(names: Names): nat {
    Severity(SummarizeStatuses(names))
  }

  lemma AddNameSeverity(names: Names, status: Status, name: string)
    ensures !status.Unknown? ==>
              SeverityOfNames(AddName(names, status, name)) == Max(SeverityOfNames(names), Severity(status))
  {
  }

  lemma {:induction false} NamesSeverity(scenarios: seq<ScenarioResult>, t: Thresholds)
    ensures var totals := TotalsOf(ClassifyScenarios(scenarios, t));
            && SeverityOfNames(totals.names) == WorstSeverity(Paths(scenarios), t)
            && (totals.reasons == [] <==> SeverityOfNames(totals.names) <= 1)
  {
    if scenarios != [] {
      var n := |scenarios| - 1;
      var classified := ClassifyScenarios(scenarios, t);
      NamesSeverity(scenarios[..n], t);
      assert classified[..n] == ClassifyScenarios(scenarios[..n], t);
      ScenarioSeverity(scenarios[n], t);
      AddNameSeverity(TotalsOf(classified[..n]).names, classified[n].status, classified[n].name);
      WorstSeverityPair(Paths(scenarios[..n]), scenarios[n].direct, scenarios[n].forwarded, t);
    }
  }

  lemma WorstSeverityPair(paths: seq<PathResult>, d: PathResult, f: PathResult, t: Thresholds)
    ensures WorstSeverity(paths + [d, f], t) == Max(WorstSeverity(paths, t), Max(PathSeverity(d, t), PathSeverity(f, t)))
  {
    var all := paths + [d, f];
    assert all[..|all| - 1] == paths + [d];
    assert (paths + [d])[..|paths|] == paths;
  }

  /**
   The status of a report is one maximum: the scenario fold and the four name lists together compute
   the greatest severity of any rate of any path. It is passed exactly when there is nothing to complain about.
   */
  lemma StatusIsWorstPath(scenarios: seq<ScenarioResult>, t: Thresholds)
    ensures var summary := Summarize(ClassifyScenarios(scenarios, t));
            && Severity(summary.status) == (if scenarios == [] then 4 else WorstSeverity(Paths(scenarios), t))
            && (summary.status.Passed? <==> summary.totals.reasons == [])
  {
    NamesSeverity(scenarios, t);
    if scenarios != [] {
      WorstSeverityPositive(Paths(scenarios), t);
    }
  }

  lemma WorstSeverityPositive(paths: seq<PathResult>, t: Thresholds)
    requires paths != []
    ensures WorstSeverity(paths, t) >= 1
  {
  }

  lemma {:induction false} WorstSeverityBounds(paths: seq<PathResult>, t: Thresholds, i: nat)
    requires i < |paths|
    ensures PathSeverity(paths[i], t) <= WorstSeverity(paths, t)
  {
    if i < |paths| - 1 {
      WorstSeverityBounds(paths[..|paths| - 1], t, i);
    }
  }

  // ---------- monotonicity ----------

  /** No rate of b is lower than that of a. */
  predicate NoBetter(b: PathResult, a: PathResult) {
    && (a.requests.attempted <= 0 ==> b.requests.attempted <= 0)
    && a.rates.failure <= b.rates.failure && a.rates.timeout <= b.rates.timeout
  }

  lemma {:induction false} WorstSeverityMonotone(a: seq<PathResult>, b: seq<PathResult>, ta: Thresholds, tb: Thresholds)
    requires |a| == |b| && ta.LooserThan(tb)
    requires forall i :: 0 <= i < |a| ==> NoBetter(b[i], a[i])
    ensures WorstSeverity(a, ta) <= WorstSeverity(b, tb)
  {
    if a != [] {
      var n := |a| - 1;
      WorstSeverityMonotone(a[..n], b[..n], ta, tb);
      assert NoBetter(b[n], a[n]);
    }
  }

  lemma {:induction false} PathsNoBetter(a: seq<ScenarioResult>, b: seq<ScenarioResult>)
    requires |a| == |b|
    requires forall i :: 0 <= i < |a| ==> NoBetter(b[i].direct, a[i].direct) && NoBetter(b[i].forwarded, a[i].forwarded)
    ensures forall i :: 0 <= i < |Paths(a)| ==> NoBetter(Paths(b)[i], Paths(a)[i])
  {
    if a != [] {
      PathsNoBetter(a[..|a| - 1], b[..|b| - 1]);
    }
  }

  /** Worsening rates, or tightening the effective thresholds, never improves the status. */
  lemma StatusMonotone(a: seq<ScenarioResult>, b: seq<ScenarioResult>, ta: Thresholds, tb: Thresholds)
    requires |a| == |b| && ta.LooserThan(tb)
    requires forall i :: 0 <= i < |a| ==> NoBetter(b[i].direct, a[i].direct) && NoBetter(b[i].forwarded, a[i].forwarded)
    ensures Severity(Summarize(ClassifyScenarios(a, ta)).status) <= Severity(Summarize(ClassifyScenarios(b, tb)).status)
  {
    StatusIsWorstPath(a, ta);
    StatusIsWorstPath(b, tb);
    PathsNoBetter(a, b);
    WorstSeverityMonotone(Paths(a), Paths(b), ta, tb);
  }

  // ---------- names ----------

  function WithStatus(scenarios: seq<ScenarioResult>, status: Status): seq<string> {
    if scenarios == [] then []
    else
      var last := scenarios[|scenarios| - 1];
      WithStatus(scenarios[..|scenarios| - 1], status) + if last.status == status then [last.name] else []
  }

  ghost predicate NamesByStatus(names: Names, scenarios: seq<ScenarioResult>) {
    && names.passed == WithStatus(scenarios, Passed)
    && names.degraded == WithStatus(scenarios, Degraded)
    && names.failed == WithStatus(scenarios, Status.Failed)
    && names.invalid == WithStatus(scenarios, Invalid)
    && |names.passed| + |names.degraded| + |names.failed| + |names.invalid| == |scenarios|
  }

  lemma NextName(names: Names, scenarios: seq<ScenarioResult>)
    requires scenarios != [] && !scenarios[|scenarios| - 1].status.Unknown?
    requires NamesByStatus(names, scenarios[..|scenarios| - 1])
    ensures var last := scenarios[|scenarios| - 1]; NamesByStatus(AddName(names, last.status, last.name), scenarios)
  {
  }

  lemma {:induction false} NamesOfTotals(scenarios: seq<ScenarioResult>)
    requires forall i :: 0 <= i < |scenarios| ==> !scenarios[i].status.Unknown?
    ensures NamesByStatus(TotalsOf(scenarios).names, scenarios)
  {
    if scenarios != [] {
      NamesOfTotals(scenarios[..|scenarios| - 1]);
      NextName(TotalsOf(scenarios[..|scenarios| - 1]).names, scenarios);
    }
  }

  /** Each list names the scenarios of its status in report order, and every scenario is in one list. */
  lemma NamesPartition(scenarios: seq<ScenarioResult>, t: Thresholds)
    ensures NamesByStatus(TotalsOf(ClassifyScenarios(scenarios, t)).names, ClassifyScenarios(scenarios, t))
  {
    forall i | 0 <= i < |scenarios| ensures !ClassifyScenarios(scenarios, t)[i].status.Unknown? {
      ScenarioSeverity(scenarios[i], t);
    }
    NamesOfTotals(ClassifyScenarios(scenarios, t));
  }

  // ---------- timeouts and failures ----------

  /** The timeout rule of a path is no stricter than its failure rule. */
  predicate TimeoutRuleLooser(t: Thresholds) {
    t.degradedFailure <= t.degradedTimeout && t.failedFailure <= t.failedTimeout
  }

  /**
   Under such thresholds, the defaults among them, a path with measured rates never has a timeout reason
   without a failure reason that is at least as severe.
   */
  lemma TimeoutImpliesFailureReason(scenario: string, name: PathName, path: PathResult, t: Thresholds)
    requires TimeoutRuleLooser(t)
    requires Conserved(path.requests) && path.rates == CalculateRequestRates(path.requests)
    ensures var failure := ClassifyRate(FailureRateExceeded, scenario, name, path.rates.failure,
                                        t.degradedFailure, t.failedFailure);
            var timeout := ClassifyRate(TimeoutRateExceeded, scenario, name, path.rates.timeout,
                                        t.degradedTimeout, t.failedTimeout);
            timeout.1.Some? ==> failure.1.Some? && Severity(timeout.0) <= Severity(failure.0)
    ensures TimeoutRuleLooser(ResolvedThresholds(NO_THRESHOLDS))
  {
    RatesOrdered(path.requests);
  }
}
