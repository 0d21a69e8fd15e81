/** Laws of the aggregate rates and of the worst scenario of a report. */
module SummaryRates {
  import opened Arithmetic
  import opened Report
  import opened Requests
  import opened Rounding
  import opened Runner
  import opened Verdicts
  import opened Wrappers

  // ---------- the worst scenario ----------

  /** The candidates in the order in which the summary looks at them. */
  function Candidates(scenarios: seq<ScenarioResult>): (candidates: seq<WorstScenario>)
    ensures |candidates| == 2 * |scenarios|
  {
    if scenarios == [] then []
    else
      var last := scenarios[|scenarios| - 1];
      Candidates(scenarios[..|scenarios| - 1])
      + [Candidate(last.name, Direct, last.direct), Candidate(last.name, Forwarded, last.forwarded)]
  }

  lemma {:induction false} CandidatesOfPaths(scenarios: seq<ScenarioResult>)
    ensures forall i :: 0 <= i < |Paths(scenarios)| ==>
                          && Candidates(scenarios)[i].failure == Paths(scenarios)[i].rates.failure
                          && Candidates(scenarios)[i].timeout == Paths(scenarios)[i].rates.timeout
                          && Candidates(scenarios)[i].p95 == Paths(scenarios)[i].latency.P95()
  {
    if scenarios != [] {
      CandidatesOfPaths(scenarios[..|scenarios| - 1]);
    }
  }

  /** IsWorse orders candidates like a strict weak order: ties are those that agree in all three figures. */
  lemma IsWorseIsLexicographic(a: WorstScenario, b: WorstScenario, c: WorstScenario)
    ensures !IsWorse(a, b) && !IsWorse(b, a) <==> (a.failure, a.timeout, a.p95) == (b.failure, b.timeout, b.p95)
    ensures !(IsWorse(a, b) && IsWorse(b, a))
    ensures IsWorse(a, b) && IsWorse(b, c) ==> IsWorse(a, c)
    ensures !IsWorse(a, b) && !IsWorse(b, c) ==> !IsWorse(a, c)
  {
  }

  /** The first of the greatest candidates. */
  ghost predicate IsFirstWorst(candidates: seq<WorstScenario>, i: nat) {
    && i < |candidates|
    && (forall j :: 0 <= j < |candidates| ==> !IsWorse(candidates[j], candidates[i]))
    && (forall j :: 0 <= j < i ==> IsWorse(candidates[i], candidates[j]))
  }

  lemma ExtendFirstWorst(candidates: seq<WorstScenario>, i: nat, c: WorstScenario) returns (i': nat)
    requires IsFirstWorst(candidates, i)
    ensures IsFirstWorst(candidates + [c], i')
    ensures WorseOf(Some(candidates[i]), c) == Some((candidates + [c])[i'])
  {
    var all := candidates + [c];
    i' := if IsWorse(c, candidates[i]) then |candidates| else i;
    forall j | 0 <= j < |all| ensures !IsWorse(all[j], all[i']) && (j < i' ==> IsWorse(all[i'], all[j])) {
      if j < |candidates| {
        IsWorseIsLexicographic(c, candidates[i], candidates[j]);
      }
    }
  }

  /** The reported worst scenario is the earliest lexicographic maximum over all paths. */
  lemma {:induction false} WorstIsFirstMaximum(scenarios: seq<ScenarioResult>) returns (i: nat)
    requires scenarios != []
    ensures IsFirstWorst(Candidates(scenarios), i)
    ensures TotalsOf(scenarios).worst == Some(Candidates(scenarios)[i])
  {
    var n := |scenarios| - 1;
    var front, last := Candidates(scenarios[..n]), scenarios[n];
    var d, f := Candidate(last.name, Direct, last.direct), Candidate(last.name, Forwarded, last.forwarded);
    if n == 0 {
      assert IsFirstWorst([d], 0);
      i := ExtendFirstWorst([d], 0, f);
      assert Candidates(scenarios) == [d] + [f];
    } else {
      i := WorstIsFirstMaximum(scenarios[..n]);
      i := ExtendFirstWorst(front, i, d);
      i := ExtendFirstWorst(front + [d], i, f);
      assert Candidates(scenarios) == front + [d] + [f];
    }
  }

  // ---------- totals ----------

  function SumRequests(counts: seq<RequestCounts>): RequestCounts {
    if counts == [] then NO_REQUESTS
    else AddRequests(SumRequests(counts[..|counts| - 1]), counts[|counts| - 1])
  }

  function PathCounts(scenarios: seq<ScenarioResult>): (counts: seq<RequestCounts>) {
    seq(2 * |scenarios|, i requires 0 <= i < 2 * |scenarios| => Paths(scenarios)[i].requests)
  }

  lemma NextCounts(scenarios: seq<ScenarioResult>)
    requires scenarios != []
    ensures PathCounts(scenarios)
         == PathCounts(scenarios[..|scenarios| - 1])
            + [scenarios[|scenarios| - 1].direct.requests, scenarios[|scenarios| - 1].forwarded.requests]
  {
  }

  /** The summary's request counters add up every path once. */
  lemma {:induction false} TotalsAddUp(scenarios: seq<ScenarioResult>)
    ensures TotalsOf(scenarios).requests == SumRequests(PathCounts(scenarios))
    ensures TotalsOf(scenarios).requests == AddRequests(TotalsOf(scenarios).direct, TotalsOf(scenarios).forwarded)
  {
    if scenarios != [] {
      var n := |scenarios| - 1;
      TotalsAddUp(scenarios[..n]);
      NextCounts(scenarios);
      SumPair(PathCounts(scenarios[..n]), scenarios[n].direct.requests, scenarios[n].forwarded.requests);
    }
  }

  lemma SumPair(counts: seq<RequestCounts>, d: RequestCounts, f: RequestCounts)
    ensures SumRequests(counts + [d, f]) == AddRequests(AddRequests(SumRequests(counts), d), f)
  {
    assert (counts + [d, f])[..|counts| + 1] == counts + [d];
    assert (counts + [d])[..|counts|] == counts;
  }

  // ---------- the mediant property ----------

  ghost predicate AllConserved(counts: seq<RequestCounts>) {
    forall i :: 0 <= i < |counts| ==> Conserved(counts[i])
  }

  lemma AddConserved(a: RequestCounts, b: RequestCounts)
    requires Conserved(a) && Conserved(b)
    ensures Conserved(AddRequests(a, b)) && AddRequests(a, b).attempted == a.attempted + b.attempted
    ensures a.attempted >= 0 && b.attempted >= 0
  {
  }

  lemma {:induction false} SumConserved(counts: seq<RequestCounts>)
    requires AllConserved(counts)
    ensures Conserved(SumRequests(counts)) && SumRequests(counts).attempted >= 0
  {
    if counts != [] {
      SumConserved(counts[..|counts| - 1]);
      AddConserved(SumRequests(counts[..|counts| - 1]), counts[|counts| - 1]);
    }
  }

  lemma {:induction false} SomeAttempted(counts: seq<RequestCounts>) returns (i: nat)
    requires AllConserved(counts) && SumRequests(counts).attempted > 0
    ensures i < |counts| && counts[i].attempted > 0
  {
    var n := |counts| - 1;
    if counts[n].attempted > 0 {
      i := n;
    } else {
      i := SomeAttempted(counts[..n]);
    }
  }

  /** The two kinds of failure rate that a report compares with thresholds. */
  datatype Part = Failures | Timeouts

  function PartOf(part: Part, counts: RequestCounts): int {
    match part
    case Failures => counts.failed
    case Timeouts => counts.timeouts
  }

  function RateOf(part: Part, rates: RequestRates): real {
    match part
    case Failures => rates.failure
    case Timeouts => rates.timeout
  }

  function Ratio(part: Part, counts: RequestCounts): real {
    if counts.attempted <= 0 then 0.0 else PartOf(part, counts) as real / counts.attempted as real
  }

  lemma PartBounds(part: Part, counts: RequestCounts)
    requires Conserved(counts)
    ensures 0 <= PartOf(part, counts) <= counts.attempted
  {
  }

  /** part lies between lo and hi times the whole. */
  ghost predicate Within(lo: real, hi: real, part: int, whole: int) {
    whole >= 0 && lo * whole as real <= part as real <= hi * whole as real
  }

  lemma WithinWiden(lo: real, r: real, hi: real, part: int, whole: int)
    requires Within(r, r, part, whole) && r <= hi
    requires whole > 0 ==> lo <= r
    ensures Within(lo, hi, part, whole)
  {
    if whole > 0 {
      ScaleMonotone(whole as real, lo, r);
      ScaleMonotone(whole as real, r, hi);
    }
  }

  lemma WithinAdds(lo: real, hi: real, p: int, w: int, p': int, w': int)
    requires Within(lo, hi, p, w) && Within(lo, hi, p', w')
    ensures Within(lo, hi, p + p', w + w')
  {
    assert lo * (w + w') as real == lo * w as real + lo * w' as real;
    assert hi * (w + w') as real == hi * w as real + hi * w' as real;
  }

  lemma WithinQuotient(lo: real, hi: real, part: int, whole: int)
    requires Within(lo, hi, part, whole) && whole > 0
    ensures lo <= part as real / whole as real <= hi
  {
    QuotientBetween(lo, part as real, hi, whole as real);
  }

  lemma QuotientWithin(part: int, whole: int)
    requires 0 <= part && 0 < whole
    ensures Within(part as real / whole as real, part as real / whole as real, part, whole)
    ensures 0.0 <= part as real / whole as real
  {
    QuotientTimes(part as real, whole as real);
  }

  lemma RatioTimes(part: Part, counts: RequestCounts)
    requires Conserved(counts)
    ensures Within(Ratio(part, counts), Ratio(part, counts), PartOf(part, counts), counts.attempted)
    ensures 0.0 <= Ratio(part, counts)
  {
    PartBounds(part, counts);
    if counts.attempted > 0 {
      QuotientWithin(PartOf(part, counts), counts.attempted);
    }
  }

  lemma RateIsRoundedRatio(part: Part, counts: RequestCounts)
    ensures RateOf(part, CalculateRequestRates(counts)) == Round6(Ratio(part, counts) * 100.0)
  {
    assert Round6(0.0) == 0.0;
  }

  lemma RateMonotone(part: Part, a: RequestCounts, b: RequestCounts)
    requires Ratio(part, a) <= Ratio(part, b)
    ensures RateOf(part, CalculateRequestRates(a)) <= RateOf(part, CalculateRequestRates(b))
  {
    RateIsRoundedRatio(part, a);
    RateIsRoundedRatio(part, b);
    RoundMonotone(Ratio(part, a) * 100.0, Ratio(part, b) * 100.0);
  }

  lemma WithinRatio(part: Part, counts: RequestCounts, lo: real, hi: real)
    requires Conserved(counts) && Ratio(part, counts) <= hi
    requires counts.attempted > 0 ==> lo <= Ratio(part, counts)
    ensures Within(lo, hi, PartOf(part, counts), counts.attempted)
  {
    RatioTimes(part, counts);
    WithinWiden(lo, Ratio(part, counts), hi, PartOf(part, counts), counts.attempted);
  }

  lemma RequestsWithin(part: Part, a: RequestCounts, b: RequestCounts, lo: real, hi: real)
    requires Within(lo, hi, PartOf(part, a), a.attempted) && Within(lo, hi, PartOf(part, b), b.attempted)
    ensures Within(lo, hi, PartOf(part, AddRequests(a, b)), AddRequests(a, b).attempted)
  {
    assert PartOf(part, AddRequests(a, b)) == PartOf(part, a) + PartOf(part, b);
    WithinAdds(lo, hi, PartOf(part, a), a.attempted, PartOf(part, b), b.attempted);
  }

  /** If no ratio exceeds hi and none is below lo, the ratio of the sums is within both. */
  lemma {:induction false} SumWithin(part: Part, counts: seq<RequestCounts>, lo: real, hi: real)
    requires AllConserved(counts)
    requires forall i :: 0 <= i < |counts| ==> Ratio(part, counts[i]) <= hi
    requires forall i :: 0 <= i < |counts| && counts[i].attempted > 0 ==> lo <= Ratio(part, counts[i])
    ensures Within(lo, hi, PartOf(part, SumRequests(counts)), SumRequests(counts).attempted)
  {
    if counts != [] {
      var n := |counts| - 1;
      var front := SumRequests(counts[..n]);
      SumWithin(part, counts[..n], lo, hi);
      WithinRatio(part, counts[n], lo, hi);
      RequestsWithin(part, front, counts[n], lo, hi);
    }
  }

  lemma {:induction false} GreatestRatio(part: Part, counts: seq<RequestCounts>) returns (i: nat)
    requires counts != []
    ensures i < |counts| && forall j :: 0 <= j < |counts| ==> Ratio(part, counts[j]) <= Ratio(part, counts[i])
  {
    var n := |counts| - 1;
    if n == 0 {
      i := 0;
    } else {
      i := GreatestRatio(part, counts[..n]);
      if Ratio(part, counts[i]) < Ratio(part, counts[n]) {
        i := n;
      }
    }
  }

  lemma {:induction false} LeastRatio(part: Part, counts: seq<RequestCounts>, k: nat) returns (i: nat)
    requires k < |counts| && counts[k].attempted > 0
    ensures i < |counts| && counts[i].attempted > 0
    ensures forall j :: 0 <= j < |counts| && counts[j].attempted > 0 ==> Ratio(part, counts[i]) <= Ratio(part, counts[j])
  {
    var n := |counts| - 1;
    if k < n {
      i := LeastRatio(part, counts[..n], k);
    } else if j :| 0 <= j < n && counts[j].attempted > 0 {
      i := LeastRatio(part, counts[..n], j);
    } else {
      i := n;
    }
    if counts[n].attempted > 0 && Ratio(part, counts[n]) < Ratio(part, counts[i]) {
      i := n;
    }
  }

  /**
   Even after rounding, the rate of the summed counters lies between the rates of two of the summands
   (as long as one of them attempted anything).
   */
  lemma MediantThroughRounding(part: Part, counts: seq<RequestCounts>) returns (least: nat, greatest: nat)
    requires counts != [] && AllConserved(counts)
    ensures least < |counts| && greatest < |counts|
    ensures RateOf(part, CalculateRequestRates(counts[least]))
         <= RateOf(part, CalculateRequestRates(SumRequests(counts)))
         <= RateOf(part, CalculateRequestRates(counts[greatest]))
    ensures SumRequests(counts).attempted > 0 ==> counts[least].attempted > 0
  {
    var total := SumRequests(counts);
    greatest := GreatestRatio(part, counts);
    if total.attempted > 0 {
      var k := SomeAttempted(counts);
      least := LeastRatio(part, counts, k);
      RatioWithin(part, counts, total, Ratio(part, counts[least]), Ratio(part, counts[greatest]));
    } else {
      least := 0;
      AttemptedWithinSum(counts, 0);
      RatioTimes(part, counts[greatest]);
    }
    RateMonotone(part, counts[least], total);
    RateMonotone(part, total, counts[greatest]);
  }

  lemma RatioWithin(part: Part, counts: seq<RequestCounts>, total: RequestCounts, lo: real, hi: real)
    requires AllConserved(counts) && total == SumRequests(counts) && total.attempted > 0
    requires forall i :: 0 <= i < |counts| ==> Ratio(part, counts[i]) <= hi
    requires forall i :: 0 <= i < |counts| && counts[i].attempted > 0 ==> lo <= Ratio(part, counts[i])
    ensures lo <= Ratio(part, total) <= hi
  {
    SumWithin(part, counts, lo, hi);
    WithinQuotient(lo, hi, PartOf(part, total), total.attempted);
  }

  lemma {:induction false} AttemptedWithinSum(counts: seq<RequestCounts>, i: nat)
    requires AllConserved(counts) && i < |counts|
    ensures 0 <= counts[i].attempted <= SumRequests(counts).attempted
  {
    var front, last := counts[..|counts| - 1], counts[|counts| - 1];
    var sum := SumRequests(front).attempted;
    assert SumRequests(counts).attempted == sum + last.attempted;
    assert 0 <= sum by { SumConserved(front); }
    assert 0 <= last.attempted by { assert Conserved(counts[|counts| - 1]); }
    if i < |front| {
      AttemptedWithinSum(front, i);
      assert front[i] == counts[i];
    }
  }

  // ---------- the summary against its paths ----------

  /** Every path carries the rates of its own conserved counters, as RunPath returns them. */
  ghost predicate Measured(scenarios: seq<ScenarioResult>) {
    forall i :: 0 <= i < |Paths(scenarios)| ==>
                  && Conserved(Paths(scenarios)[i].requests)
                  && Paths(scenarios)[i].rates == CalculateRequestRates(Paths(scenarios)[i].requests)
  }

  /** The summary failure rate is at least the best path's and at most the reported worst scenario's. */
  lemma SummaryRateWithinPaths(scenarios: seq<ScenarioResult>) returns (best: nat)
    requires scenarios != [] && Measured(scenarios)
    ensures best < |Paths(scenarios)|
    ensures Paths(scenarios)[best].rates.failure <= Summarize(scenarios).rates.failure
    ensures TotalsOf(scenarios).worst.Some?
    ensures Summarize(scenarios).rates.failure <= TotalsOf(scenarios).worst.value.failure
  {
    var counts := PathCounts(scenarios);
    TotalsAddUp(scenarios);
    var greatest;
    best, greatest := MediantThroughRounding(Failures, counts);
    var w := WorstIsFirstMaximum(scenarios);
    CandidatesOfPaths(scenarios);
    assert !IsWorse(Candidates(scenarios)[greatest], Candidates(scenarios)[w]);
  }

  lemma RateSeverityMonotone(a: real, b: real, degraded: real, failed: real)
    requires a <= b
    ensures RateSeverity(a, degraded, failed) <= RateSeverity(b, degraded, failed)
  {
  }

  /**
   Judged by the same thresholds as a path, the summary's own rates are never more severe than the
   reported status; in particular they are below the degraded thresholds when the status is passed.
   */
  lemma SummaryNoWorseThanStatus(scenarios: seq<ScenarioResult>, t: Thresholds)
    requires scenarios != [] && Measured(scenarios)
    ensures var summary := Summarize(ClassifyScenarios(scenarios, t));
            && RateSeverity(summary.rates.failure, t.degradedFailure, t.failedFailure) <= Severity(summary.status)
            && RateSeverity(summary.rates.timeout, t.degradedTimeout, t.failedTimeout) <= Severity(summary.status)
            && (summary.status.Passed? ==>
                  summary.rates.failure < t.degradedFailure && summary.rates.timeout < t.degradedTimeout)
  {
    var summary := Summarize(ClassifyScenarios(scenarios, t));
    ClassifyingKeepsPaths(scenarios, t);
    StatusIsWorstPath(scenarios, t);
    var f := SummaryRateBelowPath(Failures, ClassifyScenarios(scenarios, t));
    var o := SummaryRateBelowPath(Timeouts, ClassifyScenarios(scenarios, t));
    WorstSeverityBounds(Paths(scenarios), t, f);
    WorstSeverityBounds(Paths(scenarios), t, o);
    RateSeverityMonotone(summary.rates.failure, Paths(scenarios)[f].rates.failure, t.degradedFailure, t.failedFailure);
    RateSeverityMonotone(summary.rates.timeout, Paths(scenarios)[o].rates.timeout, t.degradedTimeout, t.failedTimeout);
  }

  lemma SummaryRateBelowPath(part: Part, scenarios: seq<ScenarioResult>) returns (i: nat)
    requires scenarios != [] && Measured(scenarios)
    ensures i < |Paths(scenarios)|
    ensures RateOf(part, Summarize(scenarios).rates) <= RateOf(part, Paths(scenarios)[i].rates)
  {
    var l;
    TotalsAddUp(scenarios);
    l, i := MediantThroughRounding(part, PathCounts(scenarios));
  }

  lemma {:induction false} ClassifyingKeepsPaths(scenarios: seq<ScenarioResult>, t: Thresholds)
    ensures Paths(ClassifyScenarios(scenarios, t)) == Paths(scenarios)
  {
    if scenarios != [] {
      var n := |scenarios| - 1;
      ClassifyingKeepsPaths(scenarios[..n], t);
      assert ClassifyScenarios(scenarios, t)[..n] == ClassifyScenarios(scenarios[..n], t);
    }
  }

  // ---------- notes ----------

  lemma PartAdds(part: Part, a: RequestCounts, b: RequestCounts)
    ensures PartOf(part, AddRequests(a, b)) == PartOf(part, a) + PartOf(part, b)
  {
  }

  ghost predicate SomePositive(part: Part, counts: seq<RequestCounts>) {
    exists i :: 0 <= i < |counts| && PartOf(part, counts[i]) > 0
  }

  lemma SomeInFront(part: Part, counts: seq<RequestCounts>)
    requires counts != []
    ensures var n := |counts| - 1;
            SomePositive(part, counts) <==> SomePositive(part, counts[..n]) || PartOf(part, counts[n]) > 0
  {
    var n := |counts| - 1;
    assert forall i :: 0 <= i < n ==> counts[..n][i] == counts[i];
  }

  lemma {:induction false} SomeOfSum(part: Part, counts: seq<RequestCounts>)
    requires AllConserved(counts)
    ensures PartOf(part, SumRequests(counts)) > 0 <==> SomePositive(part, counts)
  {
    if counts != [] {
      var n := |counts| - 1;
      SomeOfSum(part, counts[..n]);
      SomeInFront(part, counts);
      PartAdds(part, SumRequests(counts[..n]), counts[n]);
      SumConserved(counts[..n]);
      PartBounds(part, SumRequests(counts[..n]));
      PartBounds(part, counts[n]);
    }
  }

  lemma SomePath(part: Part, scenarios: seq<ScenarioResult>)
    requires Measured(scenarios)
    ensures Conserved(TotalsOf(scenarios).requests)
    ensures PartOf(part, TotalsOf(scenarios).requests) > 0 <==>
            exists i :: 0 <= i < |Paths(scenarios)| && PartOf(part, Paths(scenarios)[i].requests) > 0
  {
    var counts := PathCounts(scenarios);
    TotalsAddUp(scenarios);
    SomeOfSum(part, counts);
    SumConserved(counts);
    assert |counts| == |Paths(scenarios)|;
    assert forall i :: 0 <= i < |counts| ==> counts[i] == Paths(scenarios)[i].requests;
  }

  lemma NotesSay(requests: RequestCounts)
    ensures QueriesFailed in NotesOf(requests) <==> requests.failed > 0
    ensures QueriesTimedOut in NotesOf(requests) <==> requests.timeouts > 0
    ensures NothingExecuted !in NotesOf(requests)
  {
  }

  /** The notes of a summary tell whether any query of any path failed or timed out. */
  lemma NotesTell(scenarios: seq<ScenarioResult>)
    requires Measured(scenarios)
    ensures var notes, paths := Summarize(scenarios).notes, Paths(scenarios);
            && (NothingExecuted in notes <==> scenarios == [])
            && (QueriesFailed in notes <==> exists i :: 0 <= i < |paths| && PartOf(Failures, paths[i].requests) > 0)
            && (QueriesTimedOut in notes <==> exists i :: 0 <= i < |paths| && PartOf(Timeouts, paths[i].requests) > 0)
            && (QueriesTimedOut in notes ==> QueriesFailed in notes)
  {
    if scenarios != [] {
      NotesSay(TotalsOf(scenarios).requests);
      SomePath(Failures, scenarios);
      SomePath(Timeouts, scenarios);
    }
  }
}
