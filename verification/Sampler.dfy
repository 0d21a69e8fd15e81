/**
 The Linux resource sampler: CPU percentages from consecutive snapshots of tick counters, where the previous
 snapshot travels from the main goroutine to the sampling goroutine and back.
 */
module Sampler {
  import opened Arithmetic
  import opened Rounding
  import opened Wrappers

  const WORD := 0x1_0000_0000_0000_0000

  /** An unsigned 64-bit integer. Sums and differences wrap around. */
  type Word = x: int | 0 <= x < WORD

  function Plus(a: Word, b: Word): Word {
    (a + b) % WORD
  }

  function Minus(a: Word, b: Word): Word {
    (a - b) % WORD
  }

  datatype Process = Benchmark | Target

  datatype ProcessReading = Unreadable | Readable(userTicks: Word, systemTicks: Word, rssBytes: Word, threads: Word)

  datatype Failure =
    | TicksFailure
    | ProcessFailure(process: Process)
    | LoadFailure
    | MemoryFailure
    | TemperatureFailure
    | ThrottlingFailure

  /** What the files say while one sample is collected. */
  datatype Moment = Moment(
    system: Result<Word>, benchmark: ProcessReading, target: ProcessReading,
    load: Result<real>, memory: Result<Word>, temperature: Result<real>, throttling: Result<string>)
  {
    function Of(p: Process): ProcessReading {
      if p.Benchmark? then benchmark else target
    }
  }

  datatype Snapshot = Snapshot(
    systemTicks: Word, benchmarkTicks: Word, targetTicks: Word,
    systemValid: bool, benchmarkValid: bool, targetValid: bool)
  {
    function Ticks(p: Process): Word {
      if p.Benchmark? then benchmarkTicks else targetTicks
    }

    predicate Valid(p: Process) {
      systemValid && if p.Benchmark? then benchmarkValid else targetValid
    }
  }

  /** The snapshot before the first sample. */
  const BLANK := Snapshot(0, 0, 0, false, false, false)

  function ProcessTicks(r: ProcessReading): Word {
    if r.Readable? then Plus(r.userTicks, r.systemTicks) else 0
  }

  function SnapshotOf(m: Moment): Snapshot {
    Snapshot(if m.system.Ok? then m.system.value else 0,
             ProcessTicks(m.benchmark), ProcessTicks(m.target),
             m.system.Ok?, m.benchmark.Readable?, m.target.Readable?)
  }

  function CpuPercentFromTicks(processDelta: Word, systemDelta: Word): real {
    if systemDelta == 0 then 0.0 else Round6(processDelta as real / systemDelta as real * 100.0)
  }

  function CpuPercent(previous: Snapshot, current: Snapshot, p: Process): Option<real> {
    if previous.Valid(p) && current.Valid(p)
       && current.systemTicks > previous.systemTicks && current.Ticks(p) >= previous.Ticks(p)
    then Some(CpuPercentFromTicks(Minus(current.Ticks(p), previous.Ticks(p)),
                                  Minus(current.systemTicks, previous.systemTicks)))
    else None
  }

  function TickFailures(m: Moment): seq<Failure> {
    (if m.system.Ok? then [] else [TicksFailure])
    + (if m.benchmark.Readable? then [] else [ProcessFailure(Benchmark)])
    + (if m.target.Readable? then [] else [ProcessFailure(Target)])
  }

  function SystemFailures(m: Moment): seq<Failure> {
    (if m.load.Ok? then [] else [LoadFailure])
    + (if m.memory.Ok? then [] else [MemoryFailure])
    + (if m.temperature.Ok? then [] else [TemperatureFailure])
    + (if m.throttling.Ok? then [] else [ThrottlingFailure])
  }

  datatype ProcessSample = ProcessSample(cpu: Option<real>, rssBytes: Option<Word>, threads: Option<Word>)

  datatype SystemSample = SystemSample(
    load: Option<real>, memory: Option<Word>, temperature: Option<real>, throttling: Option<string>)

  datatype Sample = Sample(
    benchmark: ProcessSample, target: ProcessSample, system: SystemSample, failures: seq<Failure>)
  {
    function Cpu(p: Process): Option<real> {
      if p.Benchmark? then benchmark.cpu else target.cpu
    }
  }

  function Present<T>(r: Result<T>): Option<T> {
    match r
    case Ok(value) => Some(value)
    case Err => None
  }

  function ProcessSampleOf(r: ProcessReading, cpu: Option<real>): ProcessSample {
    match r
    case Unreadable => ProcessSample(cpu, None, None)
    case Readable(_, _, rssBytes, threads) => ProcessSample(cpu, Some(rssBytes), Some(threads))
  }

  function SampleOf(previous: Snapshot, m: Moment): Sample {
    var current := SnapshotOf(m);
    Sample(ProcessSampleOf(m.benchmark, CpuPercent(previous, current, Benchmark)),
           ProcessSampleOf(m.target, CpuPercent(previous, current, Target)),
           SystemSample(Present(m.load), Present(m.memory), Present(m.temperature), Present(m.throttling)),
           TickFailures(m) + SystemFailures(m))
  }

  /** Each sample is measured against the snapshot taken by the sample just before it. */
  ghost predicate UsesPreceding(moments: seq<Moment>, samples: seq<Sample>) {
    && |samples| == |moments|
    && forall k {:trigger samples[k]} :: 0 <= k < |samples| ==>
        samples[k] == SampleOf(if k == 0 then BLANK else SnapshotOf(moments[k - 1]), moments[k])
  }

  // ---------- one sample ----------

  method CollectSample(m: Moment, previous: Snapshot) returns (sample: Sample, current: Snapshot)
    ensures sample == SampleOf(previous, m) && current == SnapshotOf(m)
  {
    current := SnapshotOf(m);
    var tickFailures := CollectTickFailures(m);
    var benchmarkCpu, targetCpu := None, None;
    if previous.systemValid && current.systemValid && current.systemTicks > previous.systemTicks {
      var systemDelta := Minus(current.systemTicks, previous.systemTicks);
      if previous.benchmarkValid && current.benchmarkValid && current.benchmarkTicks >= previous.benchmarkTicks {
        benchmarkCpu := Some(CpuPercentFromTicks(Minus(current.benchmarkTicks, previous.benchmarkTicks), systemDelta));
      }
      if previous.targetValid && current.targetValid && current.targetTicks >= previous.targetTicks {
        targetCpu := Some(CpuPercentFromTicks(Minus(current.targetTicks, previous.targetTicks), systemDelta));
      }
    }
    var system, systemFailures := CollectSystem(m);
    sample := Sample(ProcessSampleOf(m.benchmark, benchmarkCpu), ProcessSampleOf(m.target, targetCpu),
                     system, tickFailures + systemFailures);
  }

  method CollectTickFailures(m: Moment) returns (failures: seq<Failure>)
    ensures failures == TickFailures(m)
  {
    failures := if m.system.Ok? then [] else [TicksFailure];
    if m.benchmark.Unreadable? {
      failures := failures + [ProcessFailure(Benchmark)];
    }
    if m.target.Unreadable? {
      failures := failures + [ProcessFailure(Target)];
    }
  }

  method CollectSystem(m: Moment) returns (system: SystemSample, failures: seq<Failure>)
    ensures system == SystemSample(Present(m.load), Present(m.memory), Present(m.temperature), Present(m.throttling))
    ensures failures == SystemFailures(m)
  {
    system, failures := SystemSample(None, None, None, None), [];
    match m.load {
      case Ok(value) => system := system.(load := Some(value));
      case Err => failures := failures + [LoadFailure];
    }
    match m.memory {
      case Ok(value) => system := system.(memory := Some(value));
      case Err => failures := failures + [MemoryFailure];
    }
    match m.temperature {
      case Ok(value) => system := system.(temperature := Some(value));
      case Err => failures := failures + [TemperatureFailure];
    }
    match m.throttling {
      case Ok(value) => system := system.(throttling := Some(value));
      case Err => failures := failures + [ThrottlingFailure];
    }
  }

  function AllFailures(samples: seq<Sample>): seq<Failure> {
    if samples == [] then [] else AllFailures(samples[..|samples| - 1]) + samples[|samples| - 1].failures
  }

  // ---------- the handover ----------

  datatype MainPc = Starting | Running | Cancelled | Joined | Finished

  datatype SamplerPc = Absent | Waiting | Publishing(sample: Sample, next: Snapshot) | Gone

  /** `moments` only records what has been read. */
  datatype State = State(
    main: MainPc, sampler: SamplerPc, contextDone: bool,
    previous: Snapshot, localPrevious: Snapshot, finalSnapshot: Snapshot,
    before: seq<Sample>, samples: seq<Sample>, after: seq<Sample>, moments: seq<Moment>)

  datatype Action =
    | CollectBefore(moment: Moment)  // and start the sampling goroutine
    | ContextEnds
    | RunEnds                        // and cancel the sampling
    | Join
    | CollectAfter(moment: Moment)
    | Tick(moment: Moment)           // may win against a cancellation
    | Publish
    | Leave

  const INIT := State(Starting, Absent, false, BLANK, BLANK, BLANK, [], [], [], [])

  predicate Enabled(s: State, a: Action) {
    match a
    case CollectBefore(_) => s.main.Starting?
    case ContextEnds => true
    case RunEnds => s.main.Running?
    case Join => s.main.Cancelled? && s.sampler.Gone?
    case CollectAfter(_) => s.main.Joined?
    case Tick(_) => s.sampler.Waiting?
    case Publish => s.sampler.Publishing?
    case Leave => s.sampler.Waiting? && (s.main.Cancelled? || s.contextDone)
  }

  function Apply(s: State, a: Action): State
    requires Enabled(s, a)
  {
    match a
    case CollectBefore(m) =>
      var first := SnapshotOf(m);
      s.(main := Running, sampler := Waiting, before := [SampleOf(s.previous, m)],
         previous := first, localPrevious := first, finalSnapshot := first, moments := s.moments + [m])
    case ContextEnds => s.(contextDone := true)
    case RunEnds => s.(main := Cancelled)
    case Join => s.(main := Joined, previous := s.finalSnapshot)
    case CollectAfter(m) => s.(main := Finished, after := [SampleOf(s.previous, m)], moments := s.moments + [m])
    case Tick(m) =>
      s.(sampler := Publishing(SampleOf(s.localPrevious, m), SnapshotOf(m)), localPrevious := SnapshotOf(m),
         moments := s.moments + [m])
    case Publish =>
      s.(sampler := Waiting, samples := s.samples + [s.sampler.sample], finalSnapshot := s.sampler.next)
    case Leave => s.(sampler := Gone)
  }

  function Execute(s: State, run: seq<Action>): Option<State>
    decreases |run|
  {
    if run == [] then Some(s)
    else if Enabled(s, run[0]) then Execute(Apply(s, run[0]), run[1..])
    else None
  }

  /** All samples so far, in the order of their collection. */
  function Collected(s: State): seq<Sample> {
    s.before + s.samples + (if s.sampler.Publishing? then [s.sampler.sample] else []) + s.after
  }

  ghost predicate Inv(s: State) {
    UsesPreceding(s.moments, Collected(s)) && Handover(s)
  }

  /** Who holds the snapshot of the sample collected last. */
  ghost predicate Handover(s: State) {
    && (s.main.Starting? <==> s.sampler.Absent?)
    && (s.main.Starting? ==> s == INIT.(contextDone := s.contextDone))
    && (s.main.Joined? || s.main.Finished? ==> s.sampler.Gone?)
    && |s.before| == (if s.main.Starting? then 0 else 1) && |s.after| == (if s.main.Finished? then 1 else 0)
    && (!s.main.Starting? && !s.main.Finished? ==>
          s.moments != [] && s.localPrevious == SnapshotOf(s.moments[|s.moments| - 1]))
    && (s.sampler.Publishing? ==> s.sampler.next == s.localPrevious)
    && (!s.sampler.Publishing? ==> s.finalSnapshot == s.localPrevious)
    && (s.main.Joined? ==> s.previous == s.finalSnapshot)
  }

  lemma Grow(moments: seq<Moment>, samples: seq<Sample>, m: Moment, sample: Sample)
    requires UsesPreceding(moments, samples)
    requires sample == SampleOf(if moments == [] then BLANK else SnapshotOf(moments[|moments| - 1]), m)
    ensures UsesPreceding(moments + [m], samples + [sample])
  {
  }

  lemma StepHandover(s: State, a: Action)
    requires Handover(s) && Enabled(s, a)
    ensures Handover(Apply(s, a))
  {
  }

  /** The sample that a step collects. */
  function NewSample(s: State, a: Action): Sample
    requires Enabled(s, a) && (a.CollectBefore? || a.CollectAfter? || a.Tick?)
  {
    SampleOf(if a.Tick? then s.localPrevious else s.previous, a.moment)
  }

  lemma Collects(s: State, a: Action)
    requires Handover(s) && Enabled(s, a) && (a.CollectBefore? || a.CollectAfter? || a.Tick?)
    ensures Collected(Apply(s, a)) == Collected(s) + [NewSample(s, a)] && Apply(s, a).moments == s.moments + [a.moment]
  {
    match a {
      case CollectBefore(_) =>
      case CollectAfter(_) => assert s.after == [];
      case Tick(_) => assert s.after == [];
    }
  }

  lemma OnlyMoves(s: State, a: Action)
    requires Handover(s) && Enabled(s, a) && !(a.CollectBefore? || a.CollectAfter? || a.Tick?)
    ensures Collected(Apply(s, a)) == Collected(s) && Apply(s, a).moments == s.moments
  {
    if a.Publish? {
      assert s.after == [];
    }
  }

  lemma StepInv(s: State, a: Action)
    requires Inv(s) && Enabled(s, a)
    ensures Inv(Apply(s, a))
  {
    StepHandover(s, a);
    if a.CollectBefore? || a.CollectAfter? || a.Tick? {
      Collects(s, a);
      Grow(s.moments, Collected(s), a.moment, NewSample(s, a));
    } else {
      OnlyMoves(s, a);
    }
  }

  lemma {:induction false} ExecuteInv(s: State, run: seq<Action>)
    requires Inv(s)
    ensures Execute(s, run).Some? ==> Inv(Execute(s, run).value)
    decreases |run|
  {
    if run != [] && Enabled(s, run[0]) {
      StepInv(s, run[0]);
      ExecuteInv(Apply(s, run[0]), run[1..]);
    }
  }

  /**
   However the goroutines interleave, the samples of a finished collection (before, periodic, after) are each
   measured against the sample collected just before.
   */
  lemma HandoverIsAChain(run: seq<Action>)
    requires Execute(INIT, run).Some? && Execute(INIT, run).value.main.Finished?
    ensures var s := Execute(INIT, run).value;
            UsesPreceding(s.moments, s.before + s.samples + s.after) && |s.before| == |s.after| == 1
  {
    assert Inv(INIT);
    ExecuteInv(INIT, run);
    var s := Execute(INIT, run).value;
    assert Collected(s) == s.before + s.samples + s.after;
  }

  // ---------- what the percentages mean ----------

  /** The guards leave no room for a wrap-around: a percentage is the exact quotient of the growths, rounded. */
  lemma NoUnderflow(previous: Snapshot, current: Snapshot, p: Process)
    requires CpuPercent(previous, current, p).Some?
    ensures var used, passed := current.Ticks(p) - previous.Ticks(p), current.systemTicks - previous.systemTicks;
            && used >= 0 && passed > 0
            && CpuPercent(previous, current, p).value == Round6(used as real / passed as real * 100.0) >= 0.0
  {
    var used, passed := current.Ticks(p) - previous.Ticks(p), current.systemTicks - previous.systemTicks;
    SmallDifference(current.Ticks(p), previous.Ticks(p));
    SmallDifference(current.systemTicks, previous.systemTicks);
    PercentNotNegative(used as real, passed as real);
  }

  lemma SmallDifference(a: Word, b: Word)
    requires a >= b
    ensures Minus(a, b) == a - b
  {
  }

  lemma PercentNotNegative(used: real, passed: real)
    requires used >= 0.0 && passed > 0.0
    ensures Round6(used / passed * 100.0) >= 0.0
  {
    QuotientTimes(used, passed);
    RoundKeepsSign(used / passed * 100.0);
  }

  function Snapshots(moments: seq<Moment>): (chain: seq<Snapshot>)
    ensures |chain| == |moments|
  {
    seq(|moments|, i requires 0 <= i < |moments| => SnapshotOf(moments[i]))
  }

  /** All snapshots valid, the system strictly advancing, the process never going back. */
  ghost predicate Steady(chain: seq<Snapshot>, p: Process) {
    && (forall i :: 0 <= i < |chain| ==> chain[i].Valid(p))
    && (forall i, j :: 0 <= i < j < |chain| ==>
          chain[i].systemTicks < chain[j].systemTicks && chain[i].Ticks(p) <= chain[j].Ticks(p))
  }

  /** The percentage before rounding. */
  function Exact(previous: Snapshot, current: Snapshot, p: Process): real
    requires previous.systemTicks < current.systemTicks
  {
    (current.Ticks(p) - previous.Ticks(p)) as real / (current.systemTicks - previous.systemTicks) as real * 100.0
  }

  function Reported(sample: Sample, p: Process): real {
    if sample.Cpu(p).Some? then sample.Cpu(p).value else 0.0
  }

  function Passed(a: Snapshot, b: Snapshot): real {
    (b.systemTicks - a.systemTicks) as real
  }

  /** The sum of the percentages, each weighted with the system ticks it covers: unrounded ... */
  ghost function ExactSum(chain: seq<Snapshot>, p: Process): real
    requires Steady(chain, p)
  {
    var n := |chain| - 1;
    if n <= 0 then 0.0
    else ExactSum(chain[..n], p) + Times(Passed(chain[n - 1], chain[n]), Exact(chain[n - 1], chain[n], p))
  }

  /** ... and as reported. */
  function ReportedSum(chain: seq<Snapshot>, samples: seq<Sample>, p: Process): real
    requires |samples| == |chain|
  {
    var n := |chain| - 1;
    if n <= 0 then 0.0
    else ReportedSum(chain[..n], samples[..n], p) + Times(Passed(chain[n - 1], chain[n]), Reported(samples[n], p))
  }

  lemma OneTerm(a: Snapshot, b: Snapshot, p: Process)
    requires a.systemTicks < b.systemTicks
    ensures Times(Passed(a, b), Exact(a, b, p)) == (b.Ticks(p) - a.Ticks(p)) as real * 100.0
  {
    QuotientTimes((b.Ticks(p) - a.Ticks(p)) as real, Passed(a, b));
  }

  lemma {:induction false} Telescoping(chain: seq<Snapshot>, p: Process)
    requires chain != [] && Steady(chain, p)
    ensures ExactSum(chain, p) == (chain[|chain| - 1].Ticks(p) - chain[0].Ticks(p)) as real * 100.0
  {
    var n := |chain| - 1;
    if n > 0 {
      Telescoping(chain[..n], p);
      OneTerm(chain[n - 1], chain[n], p);
    }
  }

  /** Every sample after the first is measured against the snapshot before. */
  ghost predicate Measured(chain: seq<Snapshot>, samples: seq<Sample>, p: Process) {
    && |samples| == |chain|
    && forall k {:trigger samples[k]} :: 0 < k < |samples| ==> samples[k].Cpu(p) == CpuPercent(chain[k - 1], chain[k], p)
  }

  lemma ReportedTerm(chain: seq<Snapshot>, samples: seq<Sample>, p: Process, k: nat)
    requires Steady(chain, p) && Measured(chain, samples, p) && 0 < k < |chain|
    ensures var w := Passed(chain[k - 1], chain[k]);
            && samples[k].Cpu(p).Some?
            && Abs(Times(w, Reported(samples[k], p)) - Times(w, Exact(chain[k - 1], chain[k], p))) <= w * 0.0000005
  {
    var a, b := chain[k - 1], chain[k];
    assert a.Valid(p) && b.Valid(p) && a.systemTicks < b.systemTicks && a.Ticks(p) <= b.Ticks(p);
    NoUnderflow(a, b, p);
    ScaledRounding(Passed(a, b), Exact(a, b, p));
  }

  lemma {:induction false} ReportedNearExact(chain: seq<Snapshot>, samples: seq<Sample>, p: Process)
    requires chain != [] && Steady(chain, p) && Measured(chain, samples, p)
    ensures Abs(ReportedSum(chain, samples, p) - ExactSum(chain, p)) <= Passed(chain[0], chain[|chain| - 1]) * 0.0000005
  {
    var n := |chain| - 1;
    if n > 0 {
      ReportedNearExact(chain[..n], samples[..n], p);
      ReportedTerm(chain, samples, p, n);
    }
  }

  lemma MeanOf(passed: real, whole: real, sum: real)
    requires passed > 0.0 && Times(passed, whole) == sum
    ensures sum / passed == whole
  {
    CancelFactor(sum / passed, whole, passed);
  }

  lemma MeanNear(passed: real, whole: real, exact: real, sum: real, margin: real)
    requires passed > 0.0 && Times(passed, whole) == exact && Abs(sum - exact) <= passed * margin
    ensures Abs(sum / passed - whole) <= margin
  {
    assert (whole - margin) * passed <= sum <= (whole + margin) * passed;
    QuotientBetween(whole - margin, sum, whole + margin, passed);
  }

  /** The samples that a collection produced, seen through the snapshots. */
  lemma ChainMeasured(moments: seq<Moment>, samples: seq<Sample>, p: Process)
    requires UsesPreceding(moments, samples)
    ensures Measured(Snapshots(moments), samples, p)
  {
  }

  /** Every sample of a steady collection, except the first, reports a percentage. */
  lemma EverySampleReports(moments: seq<Moment>, samples: seq<Sample>, p: Process)
    requires UsesPreceding(moments, samples) && Steady(Snapshots(moments), p)
    ensures forall k :: 0 < k < |samples| ==> samples[k].Cpu(p).Some?
  {
    ChainMeasured(moments, samples, p);
    forall k | 0 < k < |samples| ensures samples[k].Cpu(p).Some? {
      ReportedTerm(Snapshots(moments), samples, p, k);
    }
  }

  lemma EndToEnd(chain: seq<Snapshot>, p: Process)
    requires |chain| >= 2 && Steady(chain, p)
    ensures Passed(chain[0], chain[|chain| - 1]) > 0.0
    ensures Times(Passed(chain[0], chain[|chain| - 1]), Exact(chain[0], chain[|chain| - 1], p)) == ExactSum(chain, p)
  {
    Telescoping(chain, p);
    OneTerm(chain[0], chain[|chain| - 1], p);
  }

  /** All that is known of the two sums when their means are taken. */
  lemma Means(passed: real, whole: real, exact: real, reported: real)
    requires passed > 0.0 && Times(passed, whole) == exact && Abs(reported - exact) <= passed * 0.0000005
    ensures exact / passed == whole && Abs(reported / passed - whole) <= 0.0000005
  {
    MeanOf(passed, whole, exact);
    MeanNear(passed, whole, exact, reported, 0.0000005);
  }

  /**
   The mean of the percentages of a collection, weighted with the system ticks each covers, is the percentage over
   the whole collection: exactly so before rounding, and within half a millionth as reported.
   */
  lemma WeightedMean(moments: seq<Moment>, samples: seq<Sample>, p: Process)
    requires UsesPreceding(moments, samples) && |moments| >= 2 && Steady(Snapshots(moments), p)
    ensures var chain := Snapshots(moments);
            var first, last := chain[0], chain[|chain| - 1];
            && first.systemTicks < last.systemTicks
            && ExactSum(chain, p) / Passed(first, last) == Exact(first, last, p)
            && Abs(ReportedSum(chain, samples, p) / Passed(first, last) - Exact(first, last, p)) <= 0.0000005
  {
    var chain := Snapshots(moments);
    var first, last := chain[0], chain[|chain| - 1];
    ChainMeasured(moments, samples, p);
    EndToEnd(chain, p);
    ReportedNearExact(chain, samples, p);
    Means(Passed(first, last), Exact(first, last, p), ExactSum(chain, p), ReportedSum(chain, samples, p));
  }

  /** The same for every collection that the two goroutines can produce. */
  lemma CollectionMean(run: seq<Action>, p: Process)
    requires Execute(INIT, run).Some? && Execute(INIT, run).value.main.Finished?
    requires Steady(Snapshots(Execute(INIT, run).value.moments), p)
    ensures var s := Execute(INIT, run).value;
            var chain := Snapshots(s.moments);
            && |s.before + s.samples + s.after| == |chain| >= 2
            && var first, last := chain[0], chain[|chain| - 1];
               && first.systemTicks < last.systemTicks
               && Abs(ReportedSum(chain, s.before + s.samples + s.after, p) / Passed(first, last)
                      - Exact(first, last, p)) <= 0.0000005
  {
    HandoverIsAChain(run);
    var s := Execute(INIT, run).value;
    WeightedMean(s.moments, s.before + s.samples + s.after, p);
  }

  lemma AllFailuresAppend(samples: seq<Sample>, sample: Sample)
    ensures AllFailures(samples + [sample]) == AllFailures(samples) + sample.failures
  {
    assert (samples + [sample])[..|samples|] == samples;
  }

  /** The collection as one sequence of calls, with the failures gathered in the order of the samples. */
  method Collect(before: Moment, ticks: seq<Moment>, after: Moment)
    returns (samples: seq<Sample>, failures: seq<Failure>)
    ensures UsesPreceding([before] + ticks + [after], samples)
    ensures failures == AllFailures(samples)
  {
    ghost var moments: seq<Moment>;
    var previous;
    samples, failures, previous, moments := CollectNext([], [], BLANK, before, []);
    for i := 0 to |ticks|
      invariant moments == [before] + ticks[..i] && UsesPreceding(moments, samples)
      invariant previous == SnapshotOf(moments[i]) && failures == AllFailures(samples)
    {
      samples, failures, previous, moments := CollectNext(samples, failures, previous, ticks[i], moments);
    }
    assert ticks[..|ticks|] == ticks;
    samples, failures, previous, moments := CollectNext(samples, failures, previous, after, moments);
  }

  method CollectNext(
    samples: seq<Sample>, failures: seq<Failure>, previous: Snapshot, m: Moment, ghost moments: seq<Moment>)
    returns (samples': seq<Sample>, failures': seq<Failure>, next: Snapshot, ghost moments': seq<Moment>)
    requires UsesPreceding(moments, samples) && failures == AllFailures(samples)
    requires previous == if moments == [] then BLANK else SnapshotOf(moments[|moments| - 1])
    ensures moments' == moments + [m] && UsesPreceding(moments', samples')
    ensures failures' == AllFailures(samples') && next == SnapshotOf(m)
  {
    var sample;
    sample, next := CollectSample(m, previous);
    Grow(moments, samples, m, sample);
    AllFailuresAppend(samples, sample);
    samples', failures', moments' := samples + [sample], failures + sample.failures, moments + [m];
  }
}
