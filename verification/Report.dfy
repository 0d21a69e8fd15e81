/**
 From path results to the verdict of a benchmark report: classification of every path against the
 thresholds, the status of each scenario, and the summary over all scenarios.
 */
module Report {
  import opened Requests
  import opened Runner
  import opened Wrappers

  datatype Status = Unknown | Passed | Degraded | Failed | Invalid

  function Severity(status: Status): nat {
    match status
    case Unknown => 0
    case Passed => 1
    case Degraded => 2
    case Failed => 3
    case Invalid => 4
  }

  function HigherStatus(current: Status, candidate: Status): Status {
    if Severity(candidate) > Severity(current) then candidate else current
  }

  datatype Thresholds = Thresholds(
    degradedFailure: real, failedFailure: real, degradedTimeout: real, failedTimeout: real)
  {
    /** At most as strict as `other` in every figure. */
    predicate LooserThan(other: Thresholds) {
      && other.degradedFailure <= degradedFailure && other.failedFailure <= failedFailure
      && other.degradedTimeout <= degradedTimeout && other.failedTimeout <= failedTimeout
    }
  }

  const NO_THRESHOLDS := Thresholds(0.0, 0.0, 0.0, 0.0)
  const DEFAULT_THRESHOLDS := Thresholds(1.0, 5.0, 1.0, 5.0)

  function ResolvedThresholds(thresholds: Thresholds): Thresholds {
    if thresholds == NO_THRESHOLDS then DEFAULT_THRESHOLDS else thresholds
  }

  datatype ReasonCode = NoRequestsAttempted | FailureRateExceeded | TimeoutRateExceeded | NoScenariosExecuted

  datatype PathName = Direct | Forwarded

  datatype Reason = Reason(
    code: ReasonCode, scenario: string, path: Option<PathName>, observed: Option<real>, threshold: Option<real>)

  datatype ScenarioResult = ScenarioResult(
    name: string, status: Status, reasons: seq<Reason>, direct: PathResult, forwarded: PathResult)

  // ---------- classification ----------

  function ClassifyRate(
    code: ReasonCode, scenario: string, path: PathName, observed: real, degraded: real, failed: real)
    : (Status, Option<Reason>)
  {
    if observed >= failed then (Failed, Some(Reason(code, scenario, Some(path), Some(observed), Some(failed))))
    else if observed >= degraded then (Degraded, Some(Reason(code, scenario, Some(path), Some(observed), Some(degraded))))
    else (Passed, None)
  }

  datatype Verdict = Verdict(status: Status, reasons: seq<Reason>)

  function AddRate(v: Verdict, rate: (Status, Option<Reason>)): Verdict {
    if rate.1.None? then v else Verdict(HigherStatus(v.status, rate.0), v.reasons + [rate.1.value])
  }

  function ClassifyPath(v: Verdict, scenario: string, name: PathName, path: PathResult, t: Thresholds): Verdict {
    if path.requests.attempted <= 0 then
      Verdict(HigherStatus(v.status, Invalid), v.reasons + [Reason(NoRequestsAttempted, scenario, Some(name), None, None)])
    else
      AddRate(
        AddRate(v, ClassifyRate(FailureRateExceeded, scenario, name, path.rates.failure, t.degradedFailure, t.failedFailure)),
        ClassifyRate(TimeoutRateExceeded, scenario, name, path.rates.timeout, t.degradedTimeout, t.failedTimeout))
  }

  function ClassifyScenario(scenario: ScenarioResult, t: Thresholds): ScenarioResult {
    var v := ClassifyPath(ClassifyPath(Verdict(Passed, []), scenario.name, Direct, scenario.direct, t),
                          scenario.name, Forwarded, scenario.forwarded, t);
    scenario.(status := v.status, reasons := v.reasons)
  }

  function ClassifyScenarios(scenarios: seq<ScenarioResult>, t: Thresholds): (results: seq<ScenarioResult>)
    ensures |results| == |scenarios|
  {
    seq(|scenarios|, i requires 0 <= i < |scenarios| => ClassifyScenario(scenarios[i], t))
  }

  class ScenarioRecord {
    var scenario: ScenarioResult

    constructor (scenario: ScenarioResult)
      ensures this.scenario == scenario
    {
      this.scenario := scenario;
    }

    ghost function Current(): Verdict
      reads this
    {
      Verdict(scenario.status, scenario.reasons)
    }

    method Classify(t: Thresholds)
      modifies this
      ensures scenario == ClassifyScenario(old(scenario), t)
    {
      scenario := scenario.(status := Passed, reasons := []);
      AddPath(Direct, scenario.direct, t);
      AddPath(Forwarded, scenario.forwarded, t);
    }

    method AddPath(name: PathName, path: PathResult, t: Thresholds)
      modifies this
      ensures Current() == ClassifyPath(old(Current()), scenario.name, name, path, t)
      ensures scenario == old(scenario).(status := scenario.status, reasons := scenario.reasons)
    {
      if path.requests.attempted <= 0 {
        scenario := scenario.(
          status := HigherStatus(scenario.status, Invalid),
          reasons := scenario.reasons + [Reason(NoRequestsAttempted, scenario.name, Some(name), None, None)]);
        return;
      }
      var (failureStatus, failureReason) :=
        ClassifyRate(FailureRateExceeded, scenario.name, name, path.rates.failure, t.degradedFailure, t.failedFailure);
      if failureReason.Some? {
        scenario := scenario.(status := HigherStatus(scenario.status, failureStatus),
                              reasons := scenario.reasons + [failureReason.value]);
      }
      var (timeoutStatus, timeoutReason) :=
        ClassifyRate(TimeoutRateExceeded, scenario.name, name, path.rates.timeout, t.degradedTimeout, t.failedTimeout);
      if timeoutReason.Some? {
        scenario := scenario.(status := HigherStatus(scenario.status, timeoutStatus),
                              reasons := scenario.reasons + [timeoutReason.value]);
      }
    }
  }

  method ClassifyAll(scenarios: seq<ScenarioResult>, t: Thresholds) returns (results: seq<ScenarioResult>)
    ensures results == ClassifyScenarios(scenarios, t)
  {
    results := [];
    for index := 0 to |scenarios|
      invariant |results| == index
      invariant forall i :: 0 <= i < index ==> results[i] == ClassifyScenario(scenarios[i], t)
    {
      var record := new ScenarioRecord(scenarios[index]);
      record.Classify(t);
      results := results + [record.scenario];
    }
  }

  // ---------- the summary ----------

  datatype WorstScenario = WorstScenario(name: string, path: PathName, failure: real, timeout: real, p95: real)

  function Candidate(name: string, pathName: PathName, path: PathResult): WorstScenario {
    WorstScenario(name, pathName, path.rates.failure, path.rates.timeout, path.latency.P95())
  }

  predicate IsWorse(candidate: WorstScenario, current: WorstScenario) {
    if candidate.failure != current.failure then candidate.failure > current.failure
    else if candidate.timeout != current.timeout then candidate.timeout > current.timeout
    else candidate.p95 > current.p95
  }

  function WorseOf(worst: Option<WorstScenario>, candidate: WorstScenario): Option<WorstScenario> {
    if worst.None? || IsWorse(candidate, worst.value) then Some(candidate) else worst
  }

  const NO_REQUESTS := RequestCounts(0, 0, 0, 0, 0)

  function AddRequests(total: RequestCounts, path: RequestCounts): RequestCounts {
    RequestCounts(
      total.attempted + path.attempted, total.successful + path.successful, total.failed + path.failed,
      total.timeouts + path.timeouts, total.nonTimeoutFailures + path.nonTimeoutFailures)
  }

  datatype Names = Names(passed: seq<string>, degraded: seq<string>, failed: seq<string>, invalid: seq<string>)

  function AddName(names: Names, status: Status, name: string): Names {
    match status
    case Passed => names.(passed := names.passed + [name])
    case Degraded => names.(degraded := names.degraded + [name])
    case Failed => names.(failed := names.failed + [name])
    case _ => names.(invalid := names.invalid + [name])
  }

  function SummarizeStatuses(names: Names): Status {
    if |names.invalid| > 0 then Invalid
    else if |names.failed| > 0 then Failed
    else if |names.degraded| > 0 then Degraded
    else if |names.passed| > 0 then Passed
    else Unknown
  }

  datatype Totals = Totals(
    requests: RequestCounts, direct: RequestCounts, forwarded: RequestCounts,
    reasons: seq<Reason>, names: Names, worst: Option<WorstScenario>)

  function Accumulate(t: Totals, s: ScenarioResult): Totals {
    Totals(
      AddRequests(AddRequests(t.requests, s.direct.requests), s.forwarded.requests),
      AddRequests(t.direct, s.direct.requests),
      AddRequests(t.forwarded, s.forwarded.requests),
      t.reasons + s.reasons,
      AddName(t.names, s.status, s.name),
      WorseOf(WorseOf(t.worst, Candidate(s.name, Direct, s.direct)), Candidate(s.name, Forwarded, s.forwarded)))
  }

  function TotalsOf(scenarios: seq<ScenarioResult>): Totals {
    if scenarios == [] then Totals(NO_REQUESTS, NO_REQUESTS, NO_REQUESTS, [], Names([], [], [], []), None)
    else Accumulate(TotalsOf(scenarios[..|scenarios| - 1]), scenarios[|scenarios| - 1])
  }

  datatype Note = NothingExecuted | QueriesFailed | QueriesTimedOut

  datatype Summary = Summary(
    status: Status, totals: Totals, rates: RequestRates, directRates: RequestRates, forwardedRates: RequestRates,
    notes: seq<Note>)

  function NotesOf(requests: RequestCounts): seq<Note> {
    (if requests.failed > 0 then [QueriesFailed] else []) + (if requests.timeouts > 0 then [QueriesTimedOut] else [])
  }

  function Summarize(scenarios: seq<ScenarioResult>): Summary {
    var t := TotalsOf(scenarios);
    if scenarios == [] then
      Summary(Invalid, t.(reasons := [Reason(NoScenariosExecuted, "", None, None, None)]),
              RequestRates(0.0, 0.0, 0.0), RequestRates(0.0, 0.0, 0.0), RequestRates(0.0, 0.0, 0.0),
              [NothingExecuted])
    else
      Summary(SummarizeStatuses(t.names), t,
              CalculateRequestRates(t.requests), CalculateRequestRates(t.direct), CalculateRequestRates(t.forwarded),
              NotesOf(t.requests))
  }

  class SummaryBuilder {
    var totals: Totals

    constructor ()
      ensures totals == TotalsOf([])
    {
      totals := Totals(NO_REQUESTS, NO_REQUESTS, NO_REQUESTS, [], Names([], [], [], []), None);
    }

    method AccumulateStatus(scenario: ScenarioResult)
      modifies this
      ensures totals == old(totals).(reasons := old(totals).reasons + scenario.reasons,
                                     names := AddName(old(totals).names, scenario.status, scenario.name))
    {
      totals := totals.(reasons := totals.reasons + scenario.reasons);
      var names := totals.names;
      match scenario.status {
        case Passed => names := names.(passed := names.passed + [scenario.name]);
        case Degraded => names := names.(degraded := names.degraded + [scenario.name]);
        case Failed => names := names.(failed := names.failed + [scenario.name]);
        case _ => names := names.(invalid := names.invalid + [scenario.name]);
      }
      totals := totals.(names := names);
    }

    method UpdateWorst(name: string, pathName: PathName, path: PathResult)
      modifies this
      ensures totals == old(totals).(worst := WorseOf(old(totals).worst, Candidate(name, pathName, path)))
    {
      var candidate := Candidate(name, pathName, path);
      if totals.worst.None? || IsWorse(candidate, totals.worst.value) {
        totals := totals.(worst := Some(candidate));
      }
    }

    method Add(scenario: ScenarioResult)
      modifies this
      ensures totals == Accumulate(old(totals), scenario)
    {
      totals := totals.(requests := AddRequests(totals.requests, scenario.direct.requests));
      totals := totals.(requests := AddRequests(totals.requests, scenario.forwarded.requests));
      totals := totals.(direct := AddRequests(totals.direct, scenario.direct.requests));
      totals := totals.(forwarded := AddRequests(totals.forwarded, scenario.forwarded.requests));
      AccumulateStatus(scenario);
      UpdateWorst(scenario.name, Direct, scenario.direct);
      UpdateWorst(scenario.name, Forwarded, scenario.forwarded);
    }
  }

  method SummarizeScenarios(scenarios: seq<ScenarioResult>) returns (summary: Summary)
    ensures summary == Summarize(scenarios)
  {
    var none := RequestRates(0.0, 0.0, 0.0);
    var builder := new SummaryBuilder();
    if |scenarios| == 0 {
      var reason := Reason(NoScenariosExecuted, "", None, None, None);
      return Summary(Invalid, builder.totals.(reasons := builder.totals.reasons + [reason]), none, none, none,
                     [NothingExecuted]);
    }
    for i := 0 to |scenarios|
      invariant builder.totals == TotalsOf(scenarios[..i])
    {
      assert scenarios[..i + 1][..i] == scenarios[..i];
      builder.Add(scenarios[i]);
    }
    assert scenarios[..|scenarios|] == scenarios;
    var notes := [];
    if builder.totals.requests.failed > 0 {
      notes := notes + [QueriesFailed];
    }
    if builder.totals.requests.timeouts > 0 {
      notes := notes + [QueriesTimedOut];
    }
    summary := Summary(
      SummarizeStatuses(builder.totals.names), builder.totals,
      CalculateRequestRates(builder.totals.requests),
      CalculateRequestRates(builder.totals.direct),
      CalculateRequestRates(builder.totals.forwarded),
      notes);
  }
}
