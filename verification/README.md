# HomeDNS, verified model

This project models the two hard parts of the HomeDNS DNS service and proves properties of them.

*The benchmark engine.* `RunPath` runs the queries of one path through a worker pool (`Pool`, `Runner`). Three nested
runners execute a suite and emit one event stream (`Progress`, `Suite`). The results are turned into latency
statistics, rates, comparisons, verdicts and a summary (`Statistics`, `Figures`, `Requests`, `Comparison`, `Report`,
`Verdicts`, `Loosening`, `SummaryRates`, `ReportLaws`, `ResourceSummary`, `MeanBounds`), while a sampler reads CPU ticks
from procfs (`Sampler`, `Readings`, `ProcStat`).

*The running service.* Two servers with a lifecycle (`Health`, `Dns`), the application that composes them (`App`), and
a request handler whose concurrent executions keep a ledger of atomic counters (`Metrics`, `Journal`, `HandlerFlow`,
`Handler`, `HandlerLaws`, `HandlerOutcomes`, `Ledger`, `LedgerLaws`, `LedgerTotals`).

How things are modelled:

* A concurrent protocol is a transition system: a `State`, an `Action` for every atomic step, `Enabled`, `Apply` and
  `Execute`, which plays a list of actions. A theorem about runs quantifies over every list of actions, so over every
  interleaving, every moment of cancellation and every answer of the environment.
* Code that updates objects, slices or arrays is a class or a method with loops. Its `ensures` equates the new state or
  the result with a function, and the laws are proved about that function. The sequential methods of the two servers and
  of the handler are also tied to the transition systems (`Dns.StartIsARun`, `LedgerLaws.ArrivingAlone`; the
  sections of `Health` are shared by both).
* What such a function computes is in turn told without naming it: `HandlerOutcomes` says what a request counts and
  writes, `Readings` what a sample owes to the files, `Figures` which ranks the statistics are taken from, `ReportLaws`
  what status, reasons and sums a report has, `Runner.MissingQueries` where the missing queries go, and
  `Suite.SuiteSucceedsExactly` whose results a suite returns.
* Floating point numbers are reals. `Rounding` models the six-decimal rounding, half away from zero, which every
  published figure goes through; the theorems about figures hold after that rounding.
* Clocks, the network, the operating system and the DNS library are environment inputs: an exchange returns some
  outcome, a listener may end at any step, a second may or may not have passed.

What the proofs say about the code beyond its documentation:

* The DNS server does not isolate generations. A ready generation whose listeners run keeps its readiness over every
  run without a Shutdown and without the end of one of its own listeners exactly when no observer of an earlier
  generation is left (`Dns.IsolatedExactly`), and such observers can be left (`Dns.StaleObserverStrikes`). A caller who
  starts the server again only after the earlier observers are gone is safe (`Dns.PatientCallersAreIsolated`).
  Overlapping `Shutdown` calls can leave a server that claims to be ready, is not started, and whose sockets no
  `Shutdown` can reach (`Dns.OverlappingShutdownsLeak`); readiness is sound all along a run exactly when no `Shutdown`
  ends while the server is ready (`Dns.OverlapIsSoundExactly`). `App.Run` makes one `Start` and at most one `Shutdown`,
  and is safe (`Dns.FirstGenerationIsIsolated`, `App.RunIsOrderly`).
* Raising thresholds never worsens the status of a measured benchmark, with one exception: an all-zero configuration
  stands for the defaults, so replacing it worsens some benchmark if a new figure is below its default by at least a
  millionth of a percent, the step in which rates are reported (`Loosening.LooseningExactly`).
* Success and failure percentage add up to 100 or to 100.000001; `Requests.RatesComplement` says exactly when, and
  `Requests.ExcessOccurs` gives an instance of the latter.
* The rounded mean of samples stays between their unrounded extremes when the extremes have at most six decimals
  (`ResourceSummary.MeanWithinExtremes`). For finer samples it may not: `MeanBounds.RoundsInward` is the exact condition
  on the two extremes.
* A nil request is counted as invalid and gets no answer. A handler that panics still answers, so for every request
  with a writer exactly one call of WriteMsg is made that does not panic (`LedgerLaws.AnsweredOnce`). The request is
  counted as two responses exactly if WriteMsg itself panicked for the first of them; no other panic does that
  (`LedgerLaws.QuiescentLedger`).

## Model

| member | source | states |
|---|---|---|
| Pool.ScheduledIsExact | dns/internal/benchmark/runner.go:116-231 | For every interleaving and cancellation: when the collector has left its loop, the atomic counter equals the number of consumed observations although it is incremented after the hand-off; the queries executed are exactly 0..scheduled-1, each once; queries are missing only if the context is done; all goroutines have stopped and nothing is left in the channel. |
| Pool.ReturnedResult | dns/internal/benchmark/runner.go:162-286 | Every finished run: successes and failures add up to the query count, failures are the sum of the six classes, timeouts the timeout class, other failures the remaining five, the sample count is the success count, each class holds the observations of that class plus the missing queries if the context error selects it, the fallback class for missing queries is unused, and the run fails only on a negative latency. |
| Pool.MissingQueriesOfRun | dns/internal/benchmark/runner.go:558-590 | Every finished run, class by class: a cancellation makes the missing queries internal failures and leaves the timeouts as observed, a deadline makes them timeouts and leaves the internal failures as observed, a live context has none, and the other four classes are exactly their observations. |
| Pool.EndedAtOnce | dns/internal/benchmark/runner.go:116-160 | For either context error there is a finished run that executes no query: the context ends before the first hand-off, and the path still returns. |
| Pool.NeverStuck | dns/internal/benchmark/runner.go:116-160 | Until the path has returned some step other than a cancellation is enabled: no deadlock. |
| Pool.RunLength | dns/internal/benchmark/runner.go:116-160 | Termination: runs are bounded, and the length of a finished run is known exactly from the scheduled queries, the workers and the cancellation. |
| Pool.StepTakesOneUnit | dns/internal/benchmark/runner.go:116-160 | Every step takes exactly one unit off the remaining work of scheduler, workers, channel and collector. |
| Pool.SendNeverBlocks | dns/internal/benchmark/runner.go:116-160 | A worker with an observation never finds the channel full or closed. |
| Pool.StepInv | dns/internal/benchmark/runner.go:116-231 | Every step keeps the invariant: who stops before whom, every handed-out query is in exactly one place, and the collector's books match what it consumed. |
| Pool.CancelHarmless | dns/internal/benchmark/runner.go:222-236 | A cancellation after the return could not have changed the returned result. |
| Pool.ProgressOfRun | dns/internal/benchmark/runner.go:201-226 | The progress events of any run report exactly the first observation, each one a second after the report before, and the last, in rising order. |
| Pool.AskedIsShare | dns/internal/benchmark/runner.go:309-314 | However the observations of queries 0..n-1 are ordered, each position of the query names is asked for its share of them. |
| Pool.NamesBalanced | dns/internal/benchmark/runner.go:125-155 | Even after a cancellation the numbers of executed queries of two names differ by at most one, and each is known exactly. |
| Runner.CollectPath | dns/internal/benchmark/runner.go:162-286 | The collector loop and the accounting after it, with counters updated in place, return what the fold over the observations says, and report progress when it says so. |
| Runner.CollectObservations | dns/internal/benchmark/runner.go:174-227 | The loop over the observations channel leaves counters, latencies, completed count and reported values of the fold. |
| Runner.PublishLatency | dns/internal/benchmark/runner.go:262-283 | Statistics are published exactly when there was a success, over all successful latencies. |
| Runner.PathCounters.RecordFailure | dns/internal/benchmark/runner.go:526-556 | One failure: failed, its class, and timeouts for a timeout go up by one, nothing else changes. |
| Runner.PathCounters.RecordUnscheduledFailures | dns/internal/benchmark/runner.go:558-590 | Missing queries are charged to timeouts, to internal or to other failures, by the context error; a count of zero or less changes nothing. |
| Runner.CollectAllTallies | dns/internal/benchmark/runner.go:162-231 | After any list of observations the counters count successes and each failure class, conserve the total, and the latencies are those of the successes in order. |
| Runner.CollectAllReports | dns/internal/benchmark/runner.go:454-474 | Reported progress rises strictly, starts at the first observation and ends at the total. |
| Runner.ReportedExactly | dns/internal/benchmark/runner.go:454-474 | A count is reported exactly if it is the first, the query count, or comes when a second has passed. |
| Runner.OutcomeClasses | dns/internal/benchmark/runner.go:309-524 | Which exchanges succeed, and which end in each failure class, told by the tests on the error: the deadline or a network timeout is a timeout, another network error a network failure, a cancellation without either internal. |
| Runner.AccountConserves | dns/internal/benchmark/runner.go:526-590 | After charging the missing queries everything is conserved for any mix of observations and any context error. |
| Runner.LatencyPublished | dns/internal/benchmark/runner.go:262-283 | The statistics of a path fail exactly when a success came with a negative latency; otherwise they are those of all successful latencies, or absent without a success. |
| Runner.FinishConserves | dns/internal/benchmark/runner.go:222-286 | What a path returns is accounted for: attempted queries, classes, rates and statistics follow from the observations, the missing queries and the context error. |
| Runner.MissingQueries | dns/internal/benchmark/runner.go:558-590 | Each class of what a path returns, by name: its observations, plus the missing queries for internal after a cancellation and for timeout after a deadline. |
| Requests.RatesOrdered | dns/internal/benchmark/runner.go:592-625 | Rates of conserved counters lie between 0 and 100, and the timeout rate is at most the failure rate, after rounding. |
| Requests.CalculatedRates | dns/internal/benchmark/runner.go:592-625 | Success, failure and timeout rate are each the percentage of their own counter, to half a millionth; all are zero when nothing was attempted. |
| Requests.RatesComplement | dns/internal/benchmark/runner.go:592-625 | Success plus failure rate is 100 or 100.000001, and exactly when it is the latter is a test on the counters. |
| Requests.ExcessOccurs | dns/internal/benchmark/runner.go:592-625 | One success among 512 queries gives 100.000001. |
| Requests.PercentMonotone | dns/internal/benchmark/runner.go:592-625 | A larger part has no smaller rounded percentage. |
| Rounding.RoundMonotone | dns/internal/benchmark/statistics.go:91-95 | Rounding keeps order. |
| Rounding.RoundOdd | dns/internal/benchmark/statistics.go:91-95 | Rounding commutes with negation. |
| Rounding.RoundFixesGrid | dns/internal/benchmark/statistics.go:91-95 | Rounding keeps exactly the values with six decimals and is idempotent. |
| Rounding.RoundIsNearest | dns/internal/benchmark/statistics.go:91-95 | The rounded value is a nearest grid point, within half a unit, and of two equally near ones the one of larger magnitude. |
| Rounding.RoundComplement | dns/internal/benchmark/statistics.go:91-95 | Two shares of a whole on the grid round to a sum that exceeds the whole by one unit exactly in the halfway case. |
| Statistics.CalculateLatencyStatistics | dns/internal/benchmark/statistics.go:25-62 | Fails on no samples and on a negative sample; otherwise returns the figures of the sorted values, and leaves the input as it was. |
| Statistics.Summarize | dns/internal/benchmark/statistics.go:46-61 | Sorting in place and accumulating the total give the specified figures. |
| Statistics.AddUp | dns/internal/benchmark/statistics.go:48-52 | The loop accumulates the sum of all values. |
| Statistics.SortInPlace | dns/internal/benchmark/statistics.go:46 | The array holds the sorted values afterwards. |
| Statistics.SortIsOrderedPermutation | dns/internal/benchmark/statistics.go:46 | Sorting yields an ordered permutation. |
| Statistics.SortedIsUnique | dns/internal/benchmark/statistics.go:46 | There is only one ordered permutation, so which sorting algorithm is used does not matter. |
| Statistics.StatisticsOrdered | dns/internal/benchmark/statistics.go:25-62 | For all valid samples: minimum <= median <= P95 <= P99 <= maximum and minimum <= mean <= maximum after rounding; the extremes are exact. |
| Statistics.StatisticsIgnoreOrder | dns/internal/benchmark/statistics.go:25-62 | The result depends on the multiset of samples only. |
| Figures.FiguresExactly | dns/internal/benchmark/statistics.go:25-85 | All six figures in terms of the ascending samples in nanoseconds: exact extremes, the rounded mean of the total, and the interpolated values 50, 95 and 99 hundredths of the way up the ranks. |
| Statistics.InterpolateBetween | dns/internal/benchmark/statistics.go:64-85 | An interpolated value lies between the ranks around its position, hence within the samples. |
| Statistics.InterpolateMonotone | dns/internal/benchmark/statistics.go:64-85 | Interpolation over sorted values is monotone in the position, across ranks. |
| Statistics.PercentileMonotone | dns/internal/benchmark/statistics.go:64-85 | Percentiles are in bounds and monotone in the percent. |
| Statistics.PercentilePointwise | dns/internal/benchmark/statistics.go:64-85 | Percentiles are monotone in the samples, point by point. |
| Statistics.MeanBetween | dns/internal/benchmark/statistics.go:46-61 | A mean lies between any bounds of the values. |
| Progress.AdvanceLevel | dns/internal/benchmark/progress.go:124-163 | Each event of the language shows an overall completion that is at least the one before, and the fixed overall total. |
| Progress.CompletionRises | dns/internal/benchmark/progress.go:124-163 | Along every stream of the language overall completion never falls, never exceeds the total, and equals it when the benchmark has completed. |
| Suite.PathRead | dns/internal/benchmark/runner.go:103-286 | For every pool run a path emits one block (phase started, progress, phase completed), closed exactly when it has a result. |
| Suite.ScenarioRead | dns/internal/benchmark/scenario.go:179-304 | A scenario emits two or four blocks between its started and completed events, and stops inside on failure. |
| Suite.StreamInLanguage | dns/internal/benchmark/suite.go:238-308 | Whatever the pools do and wherever a scenario fails or is interrupted, the stream of the suite is a prefix of the language, and complete exactly when the suite succeeds. |
| Suite.SuiteCompletionRises | dns/internal/benchmark/progress.go:124-163 | Over the whole suite, warmups and cancellations included, overall completion is monotone and ends at eight paths' worth of queries when it succeeds. |
| Suite.InterruptedStays | dns/internal/benchmark/suite.go:253-294 | Nothing is emitted after a scenario has failed. |
| Suite.ReportSuite | dns/internal/benchmark/suite.go:238-311 | The loop over the scenarios emits and returns exactly what the specification of the suite says. |
| Suite.ReportScenario | dns/internal/benchmark/scenario.go:179-304 | The phases of a scenario run in order with early exits, emit their events and return the scenario result. |
| Suite.ReportWarmups | dns/internal/benchmark/scenario.go:195-243 | Both warmups run when configured, and the first failure stops them. |
| Suite.ReportPath | dns/internal/benchmark/runner.go:103-286 | One path emits its block of events and returns the pool's result. |
| Suite.WarmBeforeMeasured | dns/internal/benchmark/scenario.go:309-332 | A scenario has a result only if every query of both warmups was executed and succeeded. |
| Suite.PlannedPools | dns/internal/benchmark/suite.go:105-157 | The scenarios named concurrent run with the configured workers, the sequential ones and all warmups with one; warmups ask the warmup count, measured paths the query count. |
| Suite.ScenarioSucceedsExactly | dns/internal/benchmark/scenario.go:179-304 | A scenario has a result if and only if its runner exists, all warmup queries succeed and both measured pools have results; then the direct result is that of the direct pool and the forwarded one that of the forwarded pool. |
| Suite.SuiteSucceedsExactly | dns/internal/benchmark/suite.go:253-294 | A suite succeeds if and only if every scenario is reached with a live context and succeeds in that sense, and its results are those of the direct and forwarded pools, scenario by scenario. |
| Suite.ResultsMeasured | dns/internal/benchmark/suite.go:253-294 | A successful suite returns one result per scenario in order, each path with conserved counters, all queries attempted and the rates of its own counters. |
| Suite.BenchmarkVerdict | dns/internal/benchmark/report_runner.go:650-781 | End to end, from pool runs to the report: the status is passed, degraded or failed, the summary accounts for every query of all eight paths, and passed implies summary rates below the degraded thresholds. |
| Report.ClassifyAll | dns/internal/benchmark/report_runner.go:461-481 | Every scenario is classified, in place and in order. |
| Report.ScenarioRecord.Classify | dns/internal/benchmark/report_runner.go:483-513 | Status and reasons of a scenario are rebuilt from its two paths, nothing else changes. |
| Report.ScenarioRecord.AddPath | dns/internal/benchmark/report_runner.go:515-594 | A path without attempts makes the scenario invalid; otherwise each exceeded rate raises the status and adds its reason. |
| Report.SummarizeScenarios | dns/internal/benchmark/report_runner.go:650-781 | The loop over the scenarios returns the specified status, totals, reasons, names, worst scenario, rates and notes; no scenarios give an invalid report with its reason and note. |
| Report.SummaryBuilder.Add | dns/internal/benchmark/report_runner.go:680-725 | One scenario adds its requests to the three totals, its reasons, its name, and both paths as candidates for the worst. |
| Report.SummaryBuilder.UpdateWorst | dns/internal/benchmark/report_runner.go:946-979 | The worst scenario is replaced only by a worse candidate. |
| Verdicts.StatusIsWorstPath | dns/internal/benchmark/report_runner.go:846-927 | The two-level status equals one severity maximum over all paths and both rates, and it is passed exactly when there are no reasons. |
| ReportLaws.StatusExactly | dns/internal/benchmark/report_runner.go:399-648 | The status for any configured thresholds: invalid if a path attempted nothing, else failed or degraded if some rate of some path has reached that threshold, else passed; an all-zero configuration means 1 and 5 percent. |
| ReportLaws.ScenarioReasonsExactly | dns/internal/benchmark/report_runner.go:483-648 | The reasons of a scenario are exactly the true statements about its paths (code, path, observed rate, threshold reached), each once, direct before forwarded and failures before timeouts. |
| ReportLaws.ReportReasonsExactly | dns/internal/benchmark/report_runner.go:650-781 | A report gives a reason if and only if it holds of one of its scenarios; without scenarios it gives the one reason that says so. |
| Verdicts.ScenarioSeverity | dns/internal/benchmark/report_runner.go:483-648 | A scenario's status is the maximum of its paths' severities, passed exactly when it has no reasons, never unknown. |
| Verdicts.StatusMonotone | dns/internal/benchmark/report_runner.go:461-648 | Raising any rate or tightening any threshold never improves the status. |
| Loosening.LooseningHelps | dns/internal/benchmark/report_runner.go:399-415 | Looser configured thresholds never worsen the status of a benchmark whose rates come from its own counters, unless they leave the all-zero configuration for a figure at least a millionth of a percent below its default. |
| Loosening.LooseningHurts | dns/internal/benchmark/report_runner.go:399-415 | In that excepted case the status of some benchmark of four scenarios gets worse; its counters, classes, rates and sample counts are consistent. |
| Loosening.LooseningExactly | dns/internal/benchmark/report_runner.go:399-415 | Loosening never worsens the status of a measured benchmark if and only if it is not that exception. |
| Verdicts.NamesPartition | dns/internal/benchmark/report_runner.go:846-905 | Each of the four lists holds the scenarios of its status in report order, and every scenario is in exactly one. |
| Verdicts.TimeoutImpliesFailureReason | dns/internal/benchmark/report_runner.go:515-648 | When no timeout threshold is below its failure threshold, as in the defaults, a timeout reason never comes without a failure reason of at least its severity. |
| SummaryRates.IsWorseIsLexicographic | dns/internal/benchmark/report_runner.go:981-1001 | The comparison of candidates is a strict weak order whose ties agree in all three figures. |
| SummaryRates.WorstIsFirstMaximum | dns/internal/benchmark/report_runner.go:946-1001 | The worst scenario is the lexicographic maximum of failure, timeout and P95 over all paths, the earliest among ties. |
| ReportLaws.WorstPathExactly | dns/internal/benchmark/report_runner.go:946-1001 | The worst scenario carries name, path, rates and P95 of the first path that no other path is worse than. |
| SummaryRates.TotalsAddUp | dns/internal/benchmark/report_runner.go:680-725 | The request totals are the sums over all paths, and over the direct and forwarded ones. |
| ReportLaws.SummaryAddsUp | dns/internal/benchmark/report_runner.go:680-760 | Each of the five direct counters is the sum over the direct paths, each forwarded one over the forwarded paths, the overall ones are their sums, and the three sets of rates belong to them. |
| SummaryRates.MediantThroughRounding | dns/internal/benchmark/report_runner.go:725-781 | The rounded rate of summed counters lies between the rounded rates of two summands. |
| SummaryRates.SummaryRateWithinPaths | dns/internal/benchmark/report_runner.go:680-781 | The summary failure rate lies between the best path's and the reported worst scenario's. |
| SummaryRates.SummaryNoWorseThanStatus | dns/internal/benchmark/report_runner.go:650-781 | Judged by the same thresholds, the summary rates are never more severe than the status; a passed report has both below the degraded thresholds. |
| SummaryRates.NotesTell | dns/internal/benchmark/report_runner.go:763-779 | The notes say exactly whether some query of some path failed and whether one timed out, and a timeout note never comes without a failure note. |
| Comparison.MeasuredIsPublished | dns/internal/benchmark/runner.go:592-668 | Every rate and latency figure of a measured path has six decimals, and latencies are not negative. |
| Comparison.OverheadIsExact | dns/internal/benchmark/scenario.go:387-541 | Published differences lose nothing: direct figures plus the comparison give back the forwarded figures. |
| Comparison.OverheadsMeasure | dns/internal/benchmark/scenario.go:387-531 | Mean, median, P95 and P99 overhead each compare that statistic of the two paths: exactly in milliseconds, and to half a millionth in percent of the direct one, with zero percent for a zero baseline. |
| Comparison.SwapNegates | dns/internal/benchmark/scenario.go:387-541 | Exchanging the paths negates every difference. |
| Comparison.ChangeMeasuresDifference | dns/internal/benchmark/scenario.go:513-531 | The percentage of a non-zero baseline gives the difference back up to rounding. |
| Comparison.OverheadSignsAgree | dns/internal/benchmark/scenario.go:496-531 | A latency difference and its percentage change never have opposite signs. |
| ResourceSummary.BuildNumericStatistics | dns/internal/benchmark/resource_summary.go:410-446 | Nothing for no values; otherwise the exact extremes and the rounded mean. |
| ResourceSummary.BuildIntegerStatistics | dns/internal/benchmark/resource_summary.go:448-484 | For integers the rounded mean also lies between the extremes. |
| ResourceSummary.MeanWithinExtremes | dns/internal/benchmark/resource_summary.go:410-484 | With extremes of at most six decimals the rounded mean lies between them. |
| MeanBounds.MeanStays | dns/internal/benchmark/resource_summary.go:410-446 | For any values whose extremes are not rounded outwards (halfway extremes of unequal values excepted) the rounded mean lies between minimum and peak. |
| MeanBounds.MeanEscapes | dns/internal/benchmark/resource_summary.go:410-446 | For all other extremes there are values whose rounded mean lies outside, so the condition is exact. |
| Sampler.HandoverIsAChain | dns/internal/benchmark/resource_collector_linux.go:114-250 | For every interleaving of the main and the sampling goroutine: each sample (before, periodic, after) is measured against the snapshot of the sample collected just before. |
| Readings.CpuFromReadings | dns/internal/benchmark/resource_collector_linux.go:264-487 | For each of the two processes: the CPU percentage between two readings is the growth of its own user plus kernel ticks (summed in 64 bits) over the growth of the system ticks, times 100, rounded; it is absent exactly if a reading failed, the system ticks did not grow, or the process ticks fell. |
| Readings.PlainShare | dns/internal/benchmark/resource_collector_linux.go:446-487 | When the sums fit in 64 bits and do not fall, that is the plain difference of user plus kernel ticks. |
| Readings.SampleReads | dns/internal/benchmark/resource_collector_linux.go:264-444 | Every value that could be read is in the sample under its own name, and the failures are exactly the readers that failed, in the order in which they are called. |
| Readings.CollectionIsFaithful | dns/internal/benchmark/resource_collector_linux.go:62-250 | For every interleaving of the two goroutines, all of that holds of the samples of a finished collection, each measured against the readings of the one before; the first has no percentages. |
| Readings.FailuresInOrder | dns/internal/benchmark/resource_collector_linux.go:62-250 | The errors of a collection are those of its samples, one sample after the other. |
| Sampler.StepInv | dns/internal/benchmark/resource_collector_linux.go:138-232 | Every step of either goroutine keeps the chain of samples and the handover of the last snapshot. |
| Sampler.NoUnderflow | dns/internal/benchmark/resource_collector_linux.go:336-381 | A reported CPU percentage is the rounded exact quotient of the tick growths: the unsigned subtractions never wrap. |
| Sampler.WeightedMean | dns/internal/benchmark/resource_collector_linux.go:336-381 | With valid snapshots, advancing system ticks and non-decreasing process ticks, the mean of the percentages weighted by system ticks equals the end-to-end percentage, exactly before rounding and within half a millionth as reported. |
| Sampler.CollectionMean | dns/internal/benchmark/resource_collector_linux.go:114-250 | The same for the samples of every finished run of the two goroutines. |
| Sampler.Telescoping | dns/internal/benchmark/resource_collector_linux.go:336-381 | The weighted sum of the exact percentages is the process ticks between the first and the last snapshot. |
| Sampler.EverySampleReports | dns/internal/benchmark/resource_collector_linux.go:336-381 | In such a collection every sample but the first has a percentage. |
| Sampler.CollectSample | dns/internal/benchmark/resource_collector_linux.go:264-444 | A sample's percentages, process and system values, failures and next snapshot, for each combination of readable and unreadable files. |
| Sampler.CollectSystem | dns/internal/benchmark/resource_collector_linux.go:383-442 | The system values that could be read, and the failures of the others in the order of the readers. |
| Sampler.Collect | dns/internal/benchmark/resource_collector_linux.go:114-250 | The loop of collections keeps the chain, and the errors of the collection are those of its samples in order. |
| ProcStat.RoundTrip | dns/internal/benchmark/resource_collector_linux.go:489-559 | Reading a printed stat line returns its two counters, for every process ID, every command (spaces and parentheses included), every other field and all 64-bit values. |
| ProcStat.FixtureRoundTrip | dns/internal/benchmark/resource_collector_linux_test.go:1631-1644 | The same for the line format of the repository's tests. |
| ProcStat.CommandIsIrrelevant | dns/internal/benchmark/resource_collector_linux.go:508-559 | Only the words after the last parenthesis decide the result, error cases included. |
| ProcStat.Rejected | dns/internal/benchmark/resource_collector_linux.go:508-532 | A line is malformed exactly when it has no parenthesis, and too few words are reported as such. |
| ProcStat.FieldsOfLine | dns/internal/benchmark/resource_collector_linux.go:519-521 | Splitting a printed line gives its words back. |
| ProcStat.ParsePrinted | dns/internal/benchmark/resource_collector_linux.go:534-553 | Parsing a printed 64-bit number gives it back. |
| ProcStat.ParseUintExactly | dns/internal/benchmark/resource_collector_linux.go:534-553 | Parsing accepts exactly the decimal 64-bit numbers, leading zeros included, and returns their value. |
| ProcStat.SystemRoundTrip | dns/internal/benchmark/resource_collector_linux.go:667-717 | The ticks of a printed cpu line are the sum of all its fields modulo 2^64, whatever lines follow. |
| ProcStat.SystemRejected | dns/internal/benchmark/resource_collector_linux.go:667-717 | A cpu line is refused exactly if it has no fields or one that is not a 64-bit number. |
| ProcStat.ReadSystemCpuTicks | dns/internal/benchmark/resource_collector_linux.go:667-717 | The loop over the cpu line returns the sum of its fields modulo 2^64, or fails exactly on a missing, wrong or unparsable line. |
| Health.LifecycleInvariant | dns/internal/health/server.go:77-231 | In every reachable state of overlapping calls: ready implies a published server, server and listener are published together, Start is refused exactly while a server is published, and when all goroutines are done nothing is published or open. |
| Health.StepInv | dns/internal/health/server.go:77-231 | Every step of Start, Shutdown and the serving goroutines keeps the invariant. |
| Health.StartMakesReady | dns/internal/health/server.go:77-124 | After any run: a Start that finds nothing published and binds its address publishes a new generation that is open and ready; any other Start changes nothing. |
| Health.ReadyExactly | dns/internal/health/server.go:77-231 | In every reachable state a published server is ready if and only if no Shutdown has captured its generation. |
| Health.OthersAreHarmless | dns/internal/health/server.go:77-231 | Ready or being drained, the state of a published generation does not change over any run of Starts and of goroutines of other generations, however late they are. |
| Health.ReadyStep | dns/internal/health/server.go:130-231 | A step ends the readiness of a generation exactly when it is a Shutdown or the clean-up of its own Serve. |
| Health.StaysReady | dns/internal/health/server.go:77-231 | A ready generation keeps all its state over any run without such a step. |
| Health.RetiredForever | dns/internal/health/server.go:77-231 | Readiness never comes back to a generation. |
| Health.ShutdownUnpublishes | dns/internal/health/server.go:130-175 | Once a Shutdown has ended, its generation is never published again. |
| Health.Server.Start | dns/internal/health/server.go:77-124 | Refused while anything is published, fails without effect if it cannot bind, otherwise publishes server, listener and readiness. |
| Health.Server.BeginShutdown | dns/internal/health/server.go:138-152 | The first critical section of Shutdown: not ready from here on, and the captured server. |
| Health.Server.FinishShutdown | dns/internal/health/server.go:164-172 | The last one: unpublishes only the captured server. |
| Health.Server.CleanUpAfterServe | dns/internal/health/server.go:207-231 | Unpublishes only the server that was served. |
| Health.Server.Shutdown | dns/internal/health/server.go:130-175 | Uninterrupted, it leaves a stopped server. |
| Dns.LifecycleInvariant | dns/internal/dnsserver/server.go:84-263 | With at most one Shutdown in flight, in every reachable state: ready implies started, not shutting down and both servers published; Start is refused during shutdown; a server neither starting nor started owns no socket. |
| Dns.StepInv | dns/internal/dnsserver/server.go:84-337 | Every step keeps the invariant of fields, sockets and observers. |
| Dns.StartOutcome | dns/internal/dnsserver/server.go:84-195 | Start returns with both sockets published and open unless ended since, or fails and leaves nothing behind. |
| Dns.ReadyLost | dns/internal/dnsserver/server.go:202-300 | Readiness is lost only to a Shutdown or to an observer whose own listener has ended. |
| Dns.IsolatedExactly | dns/internal/dnsserver/server.go:269-300 | In every state of a ready generation whose listeners run: it stays ready over all runs without a Shutdown and without the end of one of its own listeners if and only if no observer of an earlier generation is left. |
| Dns.StaysReady | dns/internal/dnsserver/server.go:269-300 | The one half: without such observers all fields stay as they are over every such run. |
| Dns.StaleObserverTakesReadiness | dns/internal/dnsserver/server.go:269-300 | The other half: from every state with such an observer there is a run in which it takes the readiness away. |
| Dns.PatientCallersAreIsolated | dns/internal/dnsserver/server.go:84-300 | If no Start gets past its checks before all earlier observers are gone, every ready generation whose listeners run is isolated. |
| Dns.FirstGenerationIsIsolated | dns/internal/dnsserver/server.go:84-300 | The first generation is isolated in every reachable state. |
| Dns.StaleObserverStrikes | dns/internal/dnsserver/server.go:275-288 | States with an observer of an earlier generation are reachable: a run from the start in which one takes the readiness of a healthy later generation. |
| Dns.OverlapIsSoundExactly | dns/internal/dnsserver/server.go:202-263 | However many Start and Shutdown calls overlap, readiness is sound in every state of a run if and only if no Shutdown of the run ends while the server is ready. |
| Dns.OnlyLateResetBreaks | dns/internal/dnsserver/server.go:239-246 | One step breaks the soundness of readiness exactly when it is the end of a Shutdown that finds the server ready. |
| Dns.OverlappingShutdownsLeak | dns/internal/dnsserver/server.go:202-263 | A run in which this happens and open sockets become unreachable. |
| Dns.StartIsARun | dns/internal/dnsserver/server.go:84-195 | For every answer of the environment the Start of the server object is an uninterrupted run of the step-by-step Start. |
| Dns.Server.Start | dns/internal/dnsserver/server.go:84-195 | Fields, open sockets and result of Start for every answer of the environment. |
| Dns.Server.RollBackStartup | dns/internal/dnsserver/server.go:308-337 | Resets the server and closes both sockets. |
| Dns.Server.BeginShutdown | dns/internal/dnsserver/server.go:202-227 | Not ready from the first statement on; flags a started server and captures its servers. |
| Dns.Server.FinishShutdown | dns/internal/dnsserver/server.go:239-246 | Resets everything except readiness. |
| Dns.Server.Shutdown | dns/internal/dnsserver/server.go:202-263 | Uninterrupted, it stops the server and closes exactly the sockets it had published. |
| App.RunIsOrderly | dns/internal/app/app.go:82-176 | Over every run of the application, with all goroutines of both servers: while it waits for the signal the DNS server is up and the health server published and ready unless its Serve has returned; health is ready only while the DNS server is up; a DNS server that is up is not ready only if a listener ended; at most one Shutdown is in flight; and after the return both servers are stopped, no DNS socket is open, and success is reported exactly if the health server had been started. |
| App.Application.Run | dns/internal/app/app.go:82-176 | Which calls are made in which order for every outcome of the two starts, and that both servers end stopped with the sockets as before. |
| Metrics.Registry.RecordRequest | dns/internal/metrics/metrics.go:58-74 | The total and the counter of the network go up by one. |
| Metrics.Registry.RecordResponse | dns/internal/metrics/metrics.go:76-91 | The counter of the response code goes up by one. |
| Metrics.Registry.RecordUpstreamLatency | dns/internal/metrics/metrics.go:125-132 | Latency and sample count go up, unless the latency is negative. |
| Handler.DnsHandler.ServeDNS | dns/internal/dnsserver/handler.go:79-222 | For every request, writer, upstream behaviour, write result and panic: all fourteen counters grow by the increments of the outcome and exactly its messages are written, by the atomic operations of the program. |
| Handler.DnsHandler.Serve | dns/internal/dnsserver/handler.go:89-193 | The normal flow up to its end or to a panic. |
| Handler.DnsHandler.WriteErrorResponse | dns/internal/dnsserver/handler.go:256-279 | Nothing without writer or request; otherwise counts the response, writes it, and counts a failed write. |
| HandlerLaws.HandlerLaw | dns/internal/dnsserver/handler.go:79-279 | For every request and environment, at every point of the program responses are covered and the network is missing only right after the total; with a writer it ends with one response per real request (two exactly if WriteMsg panicked), a SERVFAIL for each upstream failure, and exactly one call of WriteMsg that does not panic, with the ID of the request. |
| HandlerOutcomes.OutcomeOf | dns/internal/dnsserver/handler.go:79-279 | The outcome of a request in every environment, told by what happens and not by steps: which network is counted, format error 1 without a question, server failure 2 without forwarder, on an error, a timeout or no answer, otherwise the upstream's own code and the counter selected by 0, 3, 2 or others; timeouts and other upstream errors apart; latency, write errors, panics and their recovery. |
| Ledger.ExecuteInv | dns/internal/metrics/metrics.go:58-140 | In every interleaving the shared counters, combined linearly, and the messages are exactly the sums of what the handlers have done. |
| LedgerLaws.RequestsPerNetwork | dns/internal/metrics/metrics.go:58-74 | In every state the total minus the counters per network is the number of handlers between the two increments. |
| LedgerLaws.ResponsesCovered | dns/internal/dnsserver/handler.go:79-279 | In every state responses are at most requests plus invalid requests plus panics. |
| LedgerLaws.QuiescentLedger | dns/internal/dnsserver/handler.go:79-279 | When all handlers are done, with writers: responses are the real requests plus the handlers whose WriteMsg panicked, so they are equal if and only if there are none of these; timeouts plus upstream errors are at most the SERVFAIL responses. |
| LedgerTotals.CountersAddUp | dns/internal/metrics/metrics.go:58-140 | In every interleaving, when all handlers have finished, each of the fourteen counters is the sum of the outcomes of the requests: no update is lost or made twice. |
| LedgerTotals.WrittenAsIfAlone | dns/internal/dnsserver/handler.go:79-279 | Whatever the other handlers do, a finished handler has written exactly the messages of its outcome. |
| LedgerLaws.AnsweredOnce | dns/internal/dnsserver/handler.go:169-193 | Whatever the others do, a finished handler with a writer has made exactly one call of WriteMsg that did not panic, with a message carrying the request ID (section 4.1.1 of RFC 1035), also after a panic. |
| LedgerLaws.ArrivingAlone | dns/internal/dnsserver/handler.go:79-87 | A handler that arrives and is then left alone takes the counters where the sequential code takes them. |

## Left out

- Durations, throughput, live queries per second, EstimatedRemaining, timestamps and report metadata: data plumbing with no hard claim.
- IEEE 754 effects: float64 figures are reals, so errors of floating point division and of the scaling inside `round` are not captured.
- Overflow of the metrics counters: they are unbounded integers here, 64-bit in the program. The tick counters of the sampler do wrap around in the model.
- Registry.Snapshot: it loads the counters one by one, so a snapshot taken during requests may mix moments; the laws are about the counters themselves.
- Nil receivers, nil contexts, missing dependencies and the field-by-field validation of configurations; the pool starts from what PathConfig.Validate guarantees (names, 1 <= concurrency <= queries).
- Sockets, miekg/dns and net/http: a listener may end at any step, a server's Shutdown call closes its listener, also when its context expires, and one generation of servers is one number. Errors returned by Shutdown are not modelled, only the state it leaves.
- The address checks of the health server and of the DNS server beyond "configured or not".
- slices.Sort is modelled by an insertion sort; `Statistics.SortedIsUnique` makes the choice irrelevant.
- strconv.ParseUint, strings.Fields and strings.LastIndex are modelled by what they compute; text is a sequence of characters, so bytes that are not valid UTF-8 are not represented.
- Reading files, /proc/<pid>/status, load average, memory, temperature and throttling: a reader succeeds or fails; process discovery and command-line matching.
- buildProcessResources and buildSystemResources: collecting optional values into lists; only the statistics of a list are modelled.
- The retry over TCP and the timeout of the upstream client: an exchange returns a response, an error, nothing, or panics.
- A panic inside the write of the panic recovery: the process ends, so no law is about what follows. A write that panics is taken not to have sent anything.
- A handler's request and response contents other than ID, response code and the number of questions.
- Logging, CLI, terminal rendering, frontend, YAML loading, packaging scripts.
- Dns.LifecycleInvariant: assumes at most one Shutdown in flight, which `App.Run` guarantees; the program does not provide more, as `Dns.OverlappingShutdownsLeak` shows.
- Report.SummarizeScenarios: does not compute the throughput and duration of the summary, which are left out everywhere.
- Sampler.CollectSample: does not carry the process IDs copied from the configuration and the time of collection; the status file is either readable, with its memory and thread values, or not.
- LedgerLaws.AnsweredOnce: does not say whether WriteMsg delivered the message; a call that returns an error counts, and is counted as a write error.
