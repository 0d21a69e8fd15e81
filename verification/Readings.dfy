/** What a sample says about the files it was read from, without the snapshots in between. */
module Readings {
  import opened Arithmetic
  import opened Rounding
  import opened Sampler
  import opened Wrappers

  /** The ticks a process has used so far, as the 64-bit sum of those in user mode and those in the kernel. */
  function Used(r: ProcessReading): int
    requires r.Readable?
  {
    (r.userTicks + r.systemTicks) % 0x1_0000_0000_0000_0000
  }

  /** The share of the time between two readings that a process used, in percent. */
  ghost predicate Share(
    system: Result<Word>, system': Result<Word>, r: ProcessReading, r': ProcessReading, cpu: Option<real>)
  {
    if system.Ok? && system'.Ok? && system.value < system'.value && r.Readable? && r'.Readable? && Used(r) <= Used(r')
    then cpu == Some(Round6((Used(r') - Used(r)) as real / (system'.value - system.value) as real * 100.0))
    else cpu == None
  }

  lemma ShareOfSnapshots(m: Moment, m': Moment, p: Process)
    ensures Share(m.system, m'.system, m.Of(p), m'.Of(p), CpuPercent(SnapshotOf(m), SnapshotOf(m'), p))
  {
    var previous, current := SnapshotOf(m), SnapshotOf(m');
    if CpuPercent(previous, current, p).Some? {
      NoUnderflow(previous, current, p);
    }
  }

  /** Each process of a sample is measured by its own two readings; an impossible measurement is left out. */
  lemma CpuFromReadings(m: Moment, m': Moment)
    ensures var s := SampleOf(SnapshotOf(m), m');
            && Share(m.system, m'.system, m.benchmark, m'.benchmark, s.benchmark.cpu)
            && Share(m.system, m'.system, m.target, m'.target, s.target.cpu)
  {
    ShareOfSnapshots(m, m', Benchmark);
    ShareOfSnapshots(m, m', Target);
  }

  /** With sums that fit in 64 bits and do not fall, it is the growth of user and kernel ticks per system tick. */
  lemma PlainShare(system: Word, system': Word, r: ProcessReading, r': ProcessReading, cpu: Option<real>)
    requires Share(Ok(system), Ok(system'), r, r', cpu) && system < system' && r.Readable? && r'.Readable?
    requires r.userTicks + r.systemTicks <= r'.userTicks + r'.systemTicks < 0x1_0000_0000_0000_0000
    ensures cpu == Some(Round6((r'.userTicks + r'.systemTicks - r.userTicks - r.systemTicks) as real
                               / (system' - system) as real * 100.0))
  {
    assert Used(r) == r.userTicks + r.systemTicks && Used(r') == r'.userTicks + r'.systemTicks;
  }

  // ---------- a whole collection ----------

  /** The samples of a collection, told by what was read for each and for the one before. */
  ghost predicate Faithful(moments: seq<Moment>, samples: seq<Sample>) {
    && |samples| == |moments|
    && (samples != [] ==> samples[0].benchmark.cpu == None && samples[0].target.cpu == None)
    && (forall k {:trigger samples[k]} :: 0 < k < |samples| ==>
          && Share(moments[k - 1].system, moments[k].system, moments[k - 1].benchmark, moments[k].benchmark,
                   samples[k].benchmark.cpu)
          && Share(moments[k - 1].system, moments[k].system, moments[k - 1].target, moments[k].target,
                   samples[k].target.cpu))
    && (forall k {:trigger samples[k]} :: 0 <= k < |samples| ==> ValuesRead(moments[k], samples[k]))
  }

  /** The values that could be read are in the sample, and each one that could not is a failure, in reader order. */
  ghost predicate ValuesRead(m: Moment, s: Sample) {
    && ProcessRead(m.benchmark, s.benchmark) && ProcessRead(m.target, s.target)
    && Read(m.load, s.system.load) && Read(m.memory, s.system.memory)
    && Read(m.temperature, s.system.temperature) && Read(m.throttling, s.system.throttling)
    && (forall f :: f in s.failures <==> Fails(m, f))
    && (forall i, j :: 0 <= i < j < |s.failures| ==> Rank(s.failures[i]) < Rank(s.failures[j]))
  }

  ghost predicate ProcessRead(r: ProcessReading, s: ProcessSample) {
    if r.Readable? then s.rssBytes == Some(r.rssBytes) && s.threads == Some(r.threads)
    else s.rssBytes == None && s.threads == None
  }

  ghost predicate Read<T>(r: Result<T>, value: Option<T>) {
    if r.Ok? then value == Some(r.value) else value == None
  }

  predicate Fails(m: Moment, f: Failure) {
    match f
    case TicksFailure => m.system.Err?
    case ProcessFailure(Benchmark) => m.benchmark.Unreadable?
    case ProcessFailure(Target) => m.target.Unreadable?
    case LoadFailure => m.load.Err?
    case MemoryFailure => m.memory.Err?
    case TemperatureFailure => m.temperature.Err?
    case ThrottlingFailure => m.throttling.Err?
  }

  /** The order in which the readers are called. */
  function Rank(f: Failure): nat {
    match f
    case TicksFailure => 0
    case ProcessFailure(Benchmark) => 1
    case ProcessFailure(Target) => 2
    case LoadFailure => 3
    case MemoryFailure => 4
    case TemperatureFailure => 5
    case ThrottlingFailure => 6
  }

  lemma FailuresOf(m: Moment)
    ensures forall f :: f in TickFailures(m) + SystemFailures(m) <==> Fails(m, f)
    ensures var failures := TickFailures(m) + SystemFailures(m);
            forall i, j :: 0 <= i < j < |failures| ==> Rank(failures[i]) < Rank(failures[j])
  {
    var ticks, system := TickFailures(m), SystemFailures(m);
    TickRanks(m);
    SystemRanks(m);
    forall f ensures f in ticks + system <==> Fails(m, f) {
      assert f in ticks + system <==> f in ticks || f in system;
    }
  }

  lemma TickRanks(m: Moment)
    ensures forall f :: f in TickFailures(m) <==> Fails(m, f) && Rank(f) < 3
    ensures var failures := TickFailures(m);
            forall i, j :: 0 <= i < j < |failures| ==> Rank(failures[i]) < Rank(failures[j]) < 3
  {
  }

  lemma SystemRanks(m: Moment)
    ensures forall f :: f in SystemFailures(m) <==> Fails(m, f) && Rank(f) >= 3
    ensures var failures := SystemFailures(m);
            forall i, j :: 0 <= i < j < |failures| ==> 3 <= Rank(failures[i]) < Rank(failures[j])
  {
  }

  lemma SampleReads(previous: Snapshot, m: Moment)
    ensures ValuesRead(m, SampleOf(previous, m))
  {
    FailuresOf(m);
  }

  lemma FirstSample(m: Moment)
    ensures SampleOf(BLANK, m).benchmark.cpu == None && SampleOf(BLANK, m).target.cpu == None
  {
  }

  lemma ChainIsFaithful(moments: seq<Moment>, samples: seq<Sample>)
    requires UsesPreceding(moments, samples)
    ensures Faithful(moments, samples)
  {
    forall k {:trigger samples[k]} | 0 <= k < |samples| ensures ValuesRead(moments[k], samples[k]) {
      SampleReads(if k == 0 then BLANK else SnapshotOf(moments[k - 1]), moments[k]);
    }
    forall k {:trigger samples[k]} | 0 < k < |samples|
      ensures Share(moments[k - 1].system, moments[k].system, moments[k - 1].benchmark, moments[k].benchmark,
                    samples[k].benchmark.cpu)
      ensures Share(moments[k - 1].system, moments[k].system, moments[k - 1].target, moments[k].target,
                    samples[k].target.cpu)
    {
      CpuFromReadings(moments[k - 1], moments[k]);
    }
    if samples != [] {
      FirstSample(moments[0]);
    }
  }

  /**
   However the goroutines interleave, the samples of a finished collection report, for each process, the share of its
   own user and kernel ticks in the system ticks since the sample collected just before, and all values as read.
   */
  lemma CollectionIsFaithful(run: seq<Action>)
    requires Execute(INIT, run).Some? && Execute(INIT, run).value.main.Finished?
    ensures var s := Execute(INIT, run).value; Faithful(s.moments, s.before + s.samples + s.after)
  {
    HandoverIsAChain(run);
    var s := Execute(INIT, run).value;
    ChainIsFaithful(s.moments, s.before + s.samples + s.after);
  }

  /** The failures of a collection are those of its samples, one sample after the other. */
  lemma {:induction false} FailuresInOrder(first: seq<Sample>, rest: seq<Sample>, sample: Sample)
    ensures AllFailures([sample]) == sample.failures
    ensures AllFailures(first + rest) == AllFailures(first) + AllFailures(rest)
    decreases |rest|
  {
    assert AllFailures([]) == [] && [sample][..0] == [];
    if rest == [] {
      assert first + rest == first;
    } else {
      var n := |rest| - 1;
      FailuresInOrder(first, rest[..n], sample);
      assert (first + rest)[..|first| + n] == first + rest[..n];
    }
  }
}
