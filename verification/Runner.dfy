/**
 What one benchmark path does with the outcome of its queries: classification of an exchange, the
 failure counters, the collector loop and the final accounting.
 */
module Runner {
  import opened Requests
  import opened Wrappers
  import Statistics

  /** What ctx.Err() returns: nothing while the context is live. */
  datatype Context = Live | Canceled | DeadlineExceeded

  // ---------- one query ----------

  /** An error of the DNS client, described by the tests the runner applies to it. */
  datatype ExchangeError = ExchangeError(deadlineExceeded: bool, canceled: bool, network: Option<NetworkError>)
  datatype NetworkError = NetworkError(timeout: bool)

  datatype Exchange =
    | Errored(error: ExchangeError)
    | NoResponse
    | Response(idMatches: bool, responseCode: int, latency: int)

  datatype Outcome = Success(latency: int) | Failure(kind: FailureKind)

  function IsTimeout(error: ExchangeError): bool {
    error.deadlineExceeded || (error.network.Some? && error.network.value.timeout)
  }

  function ClassifyExchangeError(error: ExchangeError): FailureKind {
    if IsTimeout(error) then Timeout
    else if error.network.Some? then Network
    else if error.canceled || error.deadlineExceeded then Internal
    else Other
  }

  function ExecuteQuery(exchange: Exchange): Outcome {
    match exchange
    case Errored(error) => Failure(ClassifyExchangeError(error))
    case NoResponse => Failure(InvalidResponse)
    case Response(idMatches, responseCode, latency) =>
      if !idMatches then Failure(InvalidResponse)
      else if responseCode != 0 then Failure(DnsResponse)
      else Success(latency)
  }

  /**
   Which exchanges end in which class, told by the tests on the error alone. The deadline is always classified as a
   timeout, so of the context errors only a cancellation is internal.
   */
  lemma OutcomeClasses(exchange: Exchange)
    ensures ExecuteQuery(exchange).Success? <==>
              exchange.Response? && exchange.idMatches && exchange.responseCode == 0
    ensures ExecuteQuery(exchange).Success? ==> ExecuteQuery(exchange).latency == exchange.latency
    ensures ExecuteQuery(exchange) == Failure(DnsResponse) <==>
              exchange.Response? && exchange.idMatches && exchange.responseCode != 0
    ensures ExecuteQuery(exchange) == Failure(InvalidResponse) <==>
              exchange.NoResponse? || (exchange.Response? && !exchange.idMatches)
    ensures exchange.Errored? ==>
              var e := exchange.error;
              && (ExecuteQuery(exchange) == Failure(Timeout) <==>
                    e.deadlineExceeded || (e.network.Some? && e.network.value.timeout))
              && (ExecuteQuery(exchange) == Failure(Network) <==>
                    !e.deadlineExceeded && e.network.Some? && !e.network.value.timeout)
              && (ExecuteQuery(exchange) == Failure(Internal) <==>
                    !e.deadlineExceeded && e.network.None? && e.canceled)
              && (ExecuteQuery(exchange) == Failure(Other) <==>
                    !e.deadlineExceeded && e.network.None? && !e.canceled)
  {
  }

  // ---------- counters ----------

  datatype Tally = Tally(requests: RequestCounts, failures: FailureCounts, latencies: seq<int>)

  function EmptyTally(queryCount: int): Tally {
    Tally(RequestCounts(queryCount, 0, 0, 0, 0), FailureCounts(0, 0, 0, 0, 0, 0), [])
  }

  function AddFailures(f: FailureCounts, kind: FailureKind, count: int): FailureCounts {
    match kind
    case Timeout => f.(timeout := f.timeout + count)
    case Network => f.(network := f.network + count)
    case DnsResponse => f.(dnsResponse := f.dnsResponse + count)
    case InvalidResponse => f.(invalidResponse := f.invalidResponse + count)
    case Internal => f.(internal := f.internal + count)
    case Other => f.(other := f.other + count)
  }

  function ChargeFailures(t: Tally, kind: FailureKind, count: int): Tally {
    t.(requests := t.requests.(failed := t.requests.failed + count,
                               timeouts := t.requests.timeouts + if kind.Timeout? then count else 0),
       failures := AddFailures(t.failures, kind, count))
  }

  /** The class that queries which were never handed to a worker are charged to. */
  function UnscheduledKind(ctx: Context): FailureKind {
    match ctx
    case DeadlineExceeded => Timeout
    case Canceled => Internal
    case Live => Other
  }

  function ChargeUnscheduled(t: Tally, count: int, ctx: Context): Tally {
    if count <= 0 then t else ChargeFailures(t, UnscheduledKind(ctx), count)
  }

  // ---------- the collector ----------

  /** The collector's locals; `reported` lists the Current value of every phase-progress event. */
  datatype Collector = Collector(tally: Tally, completed: int, reported: seq<int>)

  function NewCollector(queryCount: int): Collector {
    Collector(EmptyTally(queryCount), 0, [])
  }

  /** `first` says that nothing was reported yet, `secondElapsed` that a second passed since the last report. */
  function ShouldReport(current: int, total: int, first: bool, secondElapsed: bool): bool {
    current > 0 && (current >= total || first || secondElapsed)
  }

  function RecordOutcome(t: Tally, o: Outcome): Tally {
    match o
    case Failure(kind) => ChargeFailures(t, kind, 1)
    case Success(latency) =>
      t.(requests := t.requests.(successful := t.requests.successful + 1), latencies := t.latencies + [latency])
  }

  function CollectOne(v: Collector, queryCount: int, o: Outcome, secondElapsed: bool): Collector {
    var current := v.completed + 1;
    Collector(
      RecordOutcome(v.tally, o), current,
      if ShouldReport(current, queryCount, v.reported == [], secondElapsed) then v.reported + [current] else v.reported)
  }

  function CollectAll(queryCount: int, outcomes: seq<Outcome>, clock: seq<bool>): Collector
    requires |outcomes| == |clock|
  {
    if outcomes == [] then NewCollector(queryCount)
    else var n := |outcomes| - 1;
      CollectOne(CollectAll(queryCount, outcomes[..n], clock[..n]), queryCount, outcomes[n], clock[n])
  }

  datatype SuccessfulLatency = NoSamples | Samples(sampleCount: int, statistics: Statistics.LatencyStatistics)
  {
    function Count(): int {
      if NoSamples? then 0 else sampleCount
    }

    /** The published figures are zero when no request succeeded. */
    function P95(): real {
      if NoSamples? then 0.0 else statistics.p95
    }
  }

  datatype PathResult = PathResult(
    requests: RequestCounts, failures: FailureCounts, rates: RequestRates, latency: SuccessfulLatency)

  /** `completed` is the Current value of the phase-completed event, sent only along with a result. */
  datatype PathReturn = PathReturn(result: Result<PathResult>, completed: int)

  /** The counters after the loop: unscheduled queries are charged, then the other failures are totalled. */
  function Account(t: Tally, unscheduled: int, ctx: Context): Tally {
    var charged := ChargeUnscheduled(t, unscheduled, ctx);
    charged.(requests := charged.requests.(
      nonTimeoutFailures := charged.requests.failed - charged.requests.timeouts))
  }

  function LatencyOf(latencies: seq<int>): Result<SuccessfulLatency> {
    if latencies == [] then Ok(NoSamples)
    else
      match Statistics.Calculate(latencies)
      case Err => Err
      case Ok(statistics) => Ok(Samples(|latencies|, statistics))
  }

  function Finish(v: Collector, unscheduled: int, ctx: Context): PathReturn {
    var t := Account(v.tally, unscheduled, ctx);
    PathReturn(
      match LatencyOf(t.latencies)
      case Err => Err
      case Ok(latency) => Ok(PathResult(t.requests, t.failures, CalculateRequestRates(t.requests), latency)),
      if unscheduled > 0 then v.completed + unscheduled else v.completed)
  }

  // ---------- the same, updating counters in place ----------

  class PathCounters {
    var requests: RequestCounts
    var failures: FailureCounts

    constructor (queryCount: int)
      ensures requests == EmptyTally(queryCount).requests && failures == EmptyTally(queryCount).failures
    {
      requests := RequestCounts(queryCount, 0, 0, 0, 0);
      failures := FailureCounts(0, 0, 0, 0, 0, 0);
    }

    ghost function With(latencies: seq<int>): Tally
      reads this
    {
      Tally(requests, failures, latencies)
    }

    method RecordFailure(kind: FailureKind)
      modifies this
      ensures forall l :: With(l) == ChargeFailures(old(With(l)), kind, 1)
    {
      requests := requests.(failed := requests.failed + 1);
      match kind {
        case Timeout =>
          requests := requests.(timeouts := requests.timeouts + 1);
          failures := failures.(timeout := failures.timeout + 1);
        case Network => failures := failures.(network := failures.network + 1);
        case DnsResponse => failures := failures.(dnsResponse := failures.dnsResponse + 1);
        case InvalidResponse => failures := failures.(invalidResponse := failures.invalidResponse + 1);
        case Internal => failures := failures.(internal := failures.internal + 1);
        case Other => failures := failures.(other := failures.other + 1);
      }
    }

    method RecordUnscheduledFailures(count: int, ctx: Context)
      modifies this
      ensures forall l :: With(l) == ChargeUnscheduled(old(With(l)), count, ctx)
    {
      if count <= 0 {
        return;
      }
      requests := requests.(failed := requests.failed + count);
      if ctx.DeadlineExceeded? {
        requests := requests.(timeouts := requests.timeouts + count);
        failures := failures.(timeout := failures.timeout + count);
        return;
      }
      if ctx.Canceled? {
        failures := failures.(internal := failures.internal + count);
        return;
      }
      failures := failures.(other := failures.other + count);
    }
  }

  /**
   The collector loop and the accounting after it. `outcomes` is what the observations channel delivers
   before it is closed, `clock` answers the one-second test at each of them, and `scheduled` and `ctx`
   are what the atomic counter and ctx.Err() return after the loop.
   */
  method CollectPath(queryCount: int, outcomes: seq<Outcome>, clock: seq<bool>, scheduled: int, ctx: Context)
    returns (ret: PathReturn, reported: seq<int>)
    requires |outcomes| == |clock|
    ensures reported == CollectAll(queryCount, outcomes, clock).reported
    ensures ret == Finish(CollectAll(queryCount, outcomes, clock), queryCount - scheduled, ctx)
  {
    var result := new PathCounters(queryCount);
    var latencies, completed;
    latencies, completed, reported := CollectObservations(result, queryCount, outcomes, clock);
    var unscheduled := queryCount - scheduled;
    if unscheduled > 0 {
      result.RecordUnscheduledFailures(unscheduled, ctx);
      completed := completed + unscheduled;
    }
    result.requests := result.requests.(nonTimeoutFailures := result.requests.failed - result.requests.timeouts);
    assert result.With(latencies) == Account(CollectAll(queryCount, outcomes, clock).tally, unscheduled, ctx);
    var rates := CalculateRequestRates(result.requests);
    var latency := PublishLatency(latencies);
    if latency.Err? {
      return PathReturn(Err, completed), reported;
    }
    ret := PathReturn(Ok(PathResult(result.requests, result.failures, rates, latency.value)), completed);
  }

  method CollectObservations(result: PathCounters, queryCount: int, outcomes: seq<Outcome>, clock: seq<bool>)
    returns (latencies: seq<int>, completed: int, reported: seq<int>)
    requires |outcomes| == |clock|
    requires result.With([]) == EmptyTally(queryCount)
    modifies result
    ensures Collector(result.With(latencies), completed, reported) == CollectAll(queryCount, outcomes, clock)
  {
    latencies, completed, reported := [], 0, [];
    var i := 0;
    while i < |outcomes|
      invariant 0 <= i <= |outcomes|
      invariant Collector(result.With(latencies), completed, reported) == CollectAll(queryCount, outcomes[..i], clock[..i])
    {
      assert outcomes[..i + 1][..i] == outcomes[..i] && clock[..i + 1][..i] == clock[..i];
      ghost var before := result.With(latencies);
      completed := completed + 1;
      match outcomes[i] {
        case Failure(kind) => result.RecordFailure(kind);
        case Success(latency) =>
          result.requests := result.requests.(successful := result.requests.successful + 1);
          latencies := latencies + [latency];
      }
      assert result.With(latencies) == RecordOutcome(before, outcomes[i]);
      if ShouldReport(completed, queryCount, reported == [], clock[i]) {
        reported := reported + [completed];
      }
      i := i + 1;
    }
    assert outcomes[..i] == outcomes && clock[..i] == clock;
  }

  method PublishLatency(latencies: seq<int>) returns (latency: Result<SuccessfulLatency>)
    ensures latency == LatencyOf(latencies)
  {
    if |latencies| == 0 {
      return Ok(NoSamples);
    }
    var samples := new int[|latencies|](k requires 0 <= k < |latencies| => latencies[k]);
    assert samples[..] == latencies;
    var statistics := Statistics.CalculateLatencyStatistics(samples);
    latency := match statistics case Err => Err case Ok(value) => Ok(Samples(|latencies|, value));
  }

  // ---------- what the counters mean ----------

  function CountSuccesses(outcomes: seq<Outcome>): nat {
    if outcomes == [] then 0
    else CountSuccesses(outcomes[..|outcomes| - 1]) + if outcomes[|outcomes| - 1].Success? then 1 else 0
  }

  function CountFailures(outcomes: seq<Outcome>, kind: FailureKind): nat {
    if outcomes == [] then 0
    else CountFailures(outcomes[..|outcomes| - 1], kind) + if outcomes[|outcomes| - 1] == Failure(kind) then 1 else 0
  }

  function Latencies(outcomes: seq<Outcome>): seq<int> {
    if outcomes == [] then []
    else
      Latencies(outcomes[..|outcomes| - 1])
      + if outcomes[|outcomes| - 1].Success? then [outcomes[|outcomes| - 1].latency] else []
  }

  ghost predicate Tallies(t: Tally, queryCount: int, outcomes: seq<Outcome>) {
    && t.requests.attempted == queryCount
    && t.requests.successful == CountSuccesses(outcomes)
    && t.requests.failed == |outcomes| - CountSuccesses(outcomes)
    && t.requests.timeouts == CountFailures(outcomes, Timeout)
    && (forall kind: FailureKind :: t.failures.Of(kind) == CountFailures(outcomes, kind))
    && t.failures.Total() == t.requests.failed
    && t.latencies == Latencies(outcomes)
    && |t.latencies| == t.requests.successful
  }

  /** The progress values rise from 1, and reach the total when every query was observed. */
  ghost predicate Reports(reported: seq<int>, completed: int, queryCount: int) {
    && (forall i :: 0 <= i < |reported| ==> 1 <= reported[i] <= completed)
    && (forall i, j :: 0 <= i < j < |reported| ==> reported[i] < reported[j])
    && (completed > 0 ==> reported != [] && reported[0] == 1)
    && (completed == queryCount > 0 ==> reported[|reported| - 1] == queryCount)
  }

  lemma {:induction false} CollectAllTallies(queryCount: int, outcomes: seq<Outcome>, clock: seq<bool>)
    requires |outcomes| == |clock|
    ensures Tallies(CollectAll(queryCount, outcomes, clock).tally, queryCount, outcomes)
    ensures CollectAll(queryCount, outcomes, clock).completed == |outcomes|
  {
    if outcomes == [] {
      forall kind: FailureKind ensures EmptyTally(queryCount).failures.Of(kind) == 0 {}
    } else {
      var n := |outcomes| - 1;
      CollectAllTallies(queryCount, outcomes[..n], clock[..n]);
      RecordOutcomeTallies(CollectAll(queryCount, outcomes[..n], clock[..n]).tally, queryCount, outcomes);
    }
  }

  lemma {:induction false} CollectAllReports(queryCount: int, outcomes: seq<Outcome>, clock: seq<bool>)
    requires |outcomes| == |clock|
    ensures CollectAll(queryCount, outcomes, clock).completed == |outcomes|
    ensures Reports(CollectAll(queryCount, outcomes, clock).reported, |outcomes|, queryCount)
  {
    if outcomes != [] {
      var n := |outcomes| - 1;
      CollectAllReports(queryCount, outcomes[..n], clock[..n]);
    }
  }

  /** Exactly the first, the last and those a second after the one before are reported. */
  lemma {:induction false} ReportedExactly(queryCount: int, outcomes: seq<Outcome>, clock: seq<bool>, current: int)
    requires |outcomes| == |clock|
    ensures current in CollectAll(queryCount, outcomes, clock).reported <==>
            1 <= current <= |outcomes| && (current == 1 || current >= queryCount || clock[current - 1])
  {
    if outcomes != [] {
      var n := |outcomes| - 1;
      ReportedExactly(queryCount, outcomes[..n], clock[..n], current);
      CollectAllReports(queryCount, outcomes[..n], clock[..n]);
    }
  }

  lemma RecordOutcomeTallies(t: Tally, queryCount: int, outcomes: seq<Outcome>)
    requires outcomes != [] && Tallies(t, queryCount, outcomes[..|outcomes| - 1])
    ensures Tallies(RecordOutcome(t, outcomes[|outcomes| - 1]), queryCount, outcomes)
  {
    var o := outcomes[|outcomes| - 1];
    var t' := RecordOutcome(t, o);
    forall kind: FailureKind ensures t'.failures.Of(kind) == CountFailures(outcomes, kind) {
      assert t.failures.Of(kind) == CountFailures(outcomes[..|outcomes| - 1], kind);
    }
  }

  /**
   The returned counters are conserved whatever mix of outcomes arrived: they split the queries of the
   path without remainder, each class holds the observations of that class, and the queries that were
   never scheduled are charged to the class their context error selects.
   */
  lemma AccountConserves(t: Tally, queryCount: int, outcomes: seq<Outcome>, ctx: Context)
    requires Tallies(t, queryCount, outcomes) && |outcomes| <= queryCount
    ensures var missing := queryCount - |outcomes|;
            var r := Account(t, missing, ctx);
            && r.requests.attempted == queryCount
            && Conserved(r.requests)
            && r.requests.successful == CountSuccesses(outcomes) == |r.latencies|
            && r.failures.Total() == r.requests.failed
            && r.requests.timeouts == r.failures.timeout
            && r.requests.nonTimeoutFailures == r.failures.Total() - r.failures.timeout
            && r.latencies == Latencies(outcomes)
            && forall kind: FailureKind :: r.failures.Of(kind) ==
                 CountFailures(outcomes, kind) + if kind == UnscheduledKind(ctx) then missing else 0
  {
    var missing := queryCount - |outcomes|;
    var r := Account(t, missing, ctx);
    SuccessesBounded(outcomes);
    forall kind: FailureKind
      ensures r.failures.Of(kind) == CountFailures(outcomes, kind) + if kind == UnscheduledKind(ctx) then missing else 0
    {
      assert t.failures.Of(kind) == CountFailures(outcomes, kind);
    }
    assert t.failures.Of(Timeout) == CountFailures(outcomes, Timeout);
  }

  /**
   What is returned: the counters split the queries of the path, each class holds the observations of that class and
   the missing queries if the context error selects it, and rates and statistics are those of the counters.
   Only a negative latency makes the path fail.
   */
  ghost predicate Accounted(ret: PathReturn, queryCount: int, outcomes: seq<Outcome>, ctx: Context) {
    && ret.completed == queryCount
    && (ret.result.Err? <==> exists i :: 0 <= i < |outcomes| && outcomes[i].Success? && outcomes[i].latency < 0)
    && (ret.result.Ok? ==>
          var r := ret.result.value;
          && r.requests.attempted == queryCount && Conserved(r.requests)
          && r.requests.successful == CountSuccesses(outcomes) == r.latency.Count()
          && r.failures.Total() == r.requests.failed
          && r.requests.timeouts == r.failures.timeout
          && r.requests.nonTimeoutFailures == r.failures.Total() - r.failures.timeout
          && (forall kind: FailureKind :: r.failures.Of(kind)
                == CountFailures(outcomes, kind) + if kind == UnscheduledKind(ctx) then queryCount - |outcomes| else 0)
          && r.rates == CalculateRequestRates(r.requests)
          && LatencyOf(Latencies(outcomes)) == Ok(r.latency))
  }

  lemma FinishConserves(v: Collector, queryCount: int, outcomes: seq<Outcome>, ctx: Context)
    requires Tallies(v.tally, queryCount, outcomes) && v.completed == |outcomes| <= queryCount
    ensures Accounted(Finish(v, queryCount - |outcomes|, ctx), queryCount, outcomes, ctx)
  {
    AccountConserves(v.tally, queryCount, outcomes, ctx);
    LatencyPublished(outcomes);
  }

  /** The same for the collector after any observations. */
  lemma CollectedIsAccounted(
    ret: PathReturn, queryCount: int, outcomes: seq<Outcome>, clock: seq<bool>, ctx: Context)
    requires |clock| == |outcomes| <= queryCount
    requires ret == Finish(CollectAll(queryCount, outcomes, clock), queryCount - |outcomes|, ctx)
    ensures Accounted(ret, queryCount, outcomes, ctx)
  {
    CollectAllTallies(queryCount, outcomes, clock);
    FinishConserves(CollectAll(queryCount, outcomes, clock), queryCount, outcomes, ctx);
  }

  /**
   Where the missing queries go, class by class: a cancellation makes them internal failures, a deadline timeouts,
   and no other class has anything but its observations.
   */
  lemma MissingQueries(ret: PathReturn, queryCount: int, outcomes: seq<Outcome>, ctx: Context)
    requires Accounted(ret, queryCount, outcomes, ctx) && ret.result.Ok? && |outcomes| <= queryCount
    requires |outcomes| < queryCount ==> !ctx.Live?
    ensures var missing := queryCount - |outcomes|;
            var requests, failures := ret.result.value.requests, ret.result.value.failures;
            && failures.timeout == requests.timeouts
            && requests.timeouts == CountFailures(outcomes, Timeout) + (if ctx.DeadlineExceeded? then missing else 0)
            && failures.internal == CountFailures(outcomes, Internal) + (if ctx.Canceled? then missing else 0)
            && failures.network == CountFailures(outcomes, Network)
            && failures.dnsResponse == CountFailures(outcomes, DnsResponse)
            && failures.invalidResponse == CountFailures(outcomes, InvalidResponse)
            && failures.other == CountFailures(outcomes, Other)
  {
    ClassCount(ret, queryCount, outcomes, ctx, Timeout);
    ClassCount(ret, queryCount, outcomes, ctx, Network);
    ClassCount(ret, queryCount, outcomes, ctx, DnsResponse);
    ClassCount(ret, queryCount, outcomes, ctx, InvalidResponse);
    ClassCount(ret, queryCount, outcomes, ctx, Internal);
    ClassCount(ret, queryCount, outcomes, ctx, Other);
    TimeoutsAgree(ret, queryCount, outcomes, ctx);
  }

  lemma ClassCount(ret: PathReturn, queryCount: int, outcomes: seq<Outcome>, ctx: Context, kind: FailureKind)
    requires Accounted(ret, queryCount, outcomes, ctx) && ret.result.Ok?
    ensures ret.result.value.failures.Of(kind)
         == CountFailures(outcomes, kind) + if kind == UnscheduledKind(ctx) then queryCount - |outcomes| else 0
  {
  }

  lemma TimeoutsAgree(ret: PathReturn, queryCount: int, outcomes: seq<Outcome>, ctx: Context)
    requires Accounted(ret, queryCount, outcomes, ctx) && ret.result.Ok?
    ensures ret.result.value.requests.timeouts == ret.result.value.failures.timeout
  {
  }

  /** A path fails to report only when a successful query came with a negative latency. */
  lemma LatencyPublished(outcomes: seq<Outcome>)
    ensures LatencyOf(Latencies(outcomes)).Err?
            <==> exists i :: 0 <= i < |outcomes| && outcomes[i].Success? && outcomes[i].latency < 0
    ensures LatencyOf(Latencies(outcomes)).Ok? ==>
              LatencyOf(Latencies(outcomes)).value.Count() == |Latencies(outcomes)|
    ensures LatencyOf(Latencies(outcomes)).Ok? && CountSuccesses(outcomes) > 0 ==>
              var latency := LatencyOf(Latencies(outcomes)).value;
              latency.Samples? && Statistics.Calculate(Latencies(outcomes)) == Ok(latency.statistics)
  {
    NegativeLatency(outcomes);
    LatenciesCounted(outcomes);
  }

  lemma {:induction false} LatenciesCounted(outcomes: seq<Outcome>)
    ensures |Latencies(outcomes)| == CountSuccesses(outcomes)
  {
    if outcomes != [] {
      LatenciesCounted(outcomes[..|outcomes| - 1]);
    }
  }

  lemma {:induction false} SuccessesBounded(outcomes: seq<Outcome>)
    ensures CountSuccesses(outcomes) + CountFailures(outcomes, Timeout) <= |outcomes|
  {
    if outcomes != [] {
      SuccessesBounded(outcomes[..|outcomes| - 1]);
    }
  }

  lemma {:induction false} NegativeLatency(outcomes: seq<Outcome>)
    ensures (exists i :: 0 <= i < |Latencies(outcomes)| && Latencies(outcomes)[i] < 0)
            <==> exists i :: 0 <= i < |outcomes| && outcomes[i].Success? && outcomes[i].latency < 0
  {
    if i :| 0 <= i < |Latencies(outcomes)| && Latencies(outcomes)[i] < 0 {
      var k := OutcomeOfLatency(outcomes, i);
    }
    if i :| 0 <= i < |outcomes| && outcomes[i].Success? && outcomes[i].latency < 0 {
      var k := LatencyOfOutcome(outcomes, i);
    }
  }

  lemma {:induction false} OutcomeOfLatency(outcomes: seq<Outcome>, i: nat) returns (k: nat)
    requires i < |Latencies(outcomes)|
    ensures k < |outcomes| && outcomes[k] == Success(Latencies(outcomes)[i])
  {
    var n := |outcomes| - 1;
    if i < |Latencies(outcomes[..n])| {
      k := OutcomeOfLatency(outcomes[..n], i);
    } else {
      k := n;
    }
  }

  lemma {:induction false} LatencyOfOutcome(outcomes: seq<Outcome>, k: nat) returns (i: nat)
    requires k < |outcomes| && outcomes[k].Success?
    ensures i < |Latencies(outcomes)| && Latencies(outcomes)[i] == outcomes[k].latency
  {
    var n := |outcomes| - 1;
    if k < n {
      i := LatencyOfOutcome(outcomes[..n], k);
    } else {
      i := |Latencies(outcomes[..n])|;
    }
  }
}
