/**
 The three nested runners of a benchmark (suite, scenario, path) and the one event stream they emit.
 Every path execution is a finished run of the worker pool; which one is the environment's choice.
 */
module Suite {
  import opened Progress
  import opened Report
  import opened Requests
  import opened Runner
  import opened Wrappers
  import Pool
  import SummaryRates
  import Verdicts

  datatype Config = Config(nameCount: int, warmupQueries: int, queryCount: int, concurrentWorkers: int)
  {
    /** The part of SuiteConfig.Validate that execution depends on. */
    predicate Valid() {
      nameCount > 0 && warmupQueries >= 0 && 1 <= concurrentWorkers <= queryCount
    }

    function Shape(): Progress.Shape {
      Progress.Shape(|SCENARIO_NAMES|, warmupQueries, queryCount)
    }

    /** Warmups run sequentially; of the scenarios the second and the fourth are concurrent. */
    function PoolConfig(scenario: int, phase: Phase): Pool.Config {
      if phase.WarmupDirect? || phase.WarmupForwarded? then Pool.Config(nameCount, warmupQueries, 1)
      else Pool.Config(nameCount, queryCount, if scenario % 2 == 0 then concurrentWorkers else 1)
    }
  }

  const SCENARIO_NAMES := ["udp-sequential", "udp-concurrent", "tcp-sequential", "tcp-concurrent"]

  /** What happens during one scenario. */
  datatype Environment = Environment(
    interrupted: bool,                 // ctx.Err() is set before the scenario
    runnerFails: bool,                 // the runner factory returns an error
    run: Phase -> seq<Pool.Action>)    // the pool run of each phase

  predicate Finished(c: Pool.Config, run: seq<Pool.Action>) {
    c.Valid() && Pool.Play(c, run).Some? && Pool.Play(c, run).value.collector.Returned?
  }

  /** Every exchange returns, so the pool of every phase finishes. */
  predicate Plays(c: Config, k: int, env: Environment) {
    && Finished(c.PoolConfig(k, DirectPhase), env.run(DirectPhase))
    && Finished(c.PoolConfig(k, ForwardedPhase), env.run(ForwardedPhase))
    && (c.warmupQueries > 0 ==>
          && Finished(c.PoolConfig(k, WarmupDirect), env.run(WarmupDirect))
          && Finished(c.PoolConfig(k, WarmupForwarded), env.run(WarmupForwarded)))
  }

  // ---------- specification ----------

  function PhaseEvent(c: Config, k: int, phase: Phase, kind: EventKind, current: int): Event {
    Event(kind, k, |SCENARIO_NAMES|, phase, current, c.Shape().Total(phase))
  }

  function ProgressEvents(c: Config, k: int, phase: Phase, reported: seq<int>): seq<Event> {
    seq(|reported|, i requires 0 <= i < |reported| => PhaseEvent(c, k, phase, PhaseProgress, reported[i]))
  }

  function PathEvents(c: Config, k: int, phase: Phase, reported: seq<int>, ret: PathReturn): seq<Event> {
    [PhaseEvent(c, k, phase, PhaseStarted, 0)]
    + ProgressEvents(c, k, phase, reported)
    + if ret.result.Ok? then [PhaseEvent(c, k, phase, PhaseCompleted, ret.completed)] else []
  }

  datatype Trace<T> = Trace(events: seq<Event>, result: Result<T>)

  function RunPath(c: Config, k: int, phase: Phase, run: seq<Pool.Action>): Trace<PathResult>
    requires Finished(c.PoolConfig(k, phase), run)
  {
    var s := Pool.Play(c.PoolConfig(k, phase), run).value;
    Trace(PathEvents(c, k, phase, s.view.reported, s.collector.ret), s.collector.ret.result)
  }

  /** A warmup fails unless every query of it succeeded. */
  function Warmup(c: Config, k: int, phase: Phase, env: Environment): Trace<()>
    requires Finished(c.PoolConfig(k, phase), env.run(phase))
  {
    var path := RunPath(c, k, phase, env.run(phase));
    Trace(path.events,
          if path.result.Ok? && path.result.value.requests.successful == c.warmupQueries then Ok(()) else Err)
  }

  function Warmups(c: Config, k: int, env: Environment): Trace<()>
    requires Plays(c, k, env)
  {
    if c.warmupQueries <= 0 then Trace([], Ok(()))
    else
      var direct := Warmup(c, k, WarmupDirect, env);
      if direct.result.Err? then direct
      else
        var forwarded := Warmup(c, k, WarmupForwarded, env);
        Trace(direct.events + forwarded.events, forwarded.result)
  }

  function Measure(c: Config, k: int, env: Environment): Trace<(PathResult, PathResult)>
    requires Plays(c, k, env)
  {
    var direct := RunPath(c, k, DirectPhase, env.run(DirectPhase));
    if direct.result.Err? then Trace(direct.events, Err)
    else
      var forwarded := RunPath(c, k, ForwardedPhase, env.run(ForwardedPhase));
      Trace(direct.events + forwarded.events,
            if forwarded.result.Err? then Err else Ok((direct.result.value, forwarded.result.value)))
  }

  function ScenarioEvent(c: Config, k: int, kind: EventKind, phase: Phase, current: int): Event {
    Event(kind, k, |SCENARIO_NAMES|, phase, current, c.queryCount)
  }

  function AfterWarmup(c: Config, k: int, env: Environment, warmed: seq<Event>): Trace<ScenarioResult>
    requires 1 <= k <= |SCENARIO_NAMES| && Plays(c, k, env)
  {
    var paths := Measure(c, k, env);
    if paths.result.Err? then Trace(warmed + paths.events, Err)
    else
      Trace(warmed + paths.events + [ScenarioEvent(c, k, ScenarioCompleted, ForwardedPhase, c.queryCount)],
            Ok(ScenarioResult(SCENARIO_NAMES[k - 1], Unknown, [], paths.result.value.0, paths.result.value.1)))
  }

  function RunScenario(c: Config, k: int, env: Environment): Trace<ScenarioResult>
    requires 1 <= k <= |SCENARIO_NAMES| && Plays(c, k, env)
  {
    var started := [ScenarioEvent(c, k, ScenarioStarted, NoPhase, 0)];
    if env.runnerFails then Trace(started, Err)
    else
      var warmups := Warmups(c, k, env);
      if warmups.result.Err? then Trace(started + warmups.events, Err)
      else AfterWarmup(c, k, env, started + warmups.events)
  }

  predicate AllPlay(c: Config, envs: seq<Environment>) {
    |envs| == |SCENARIO_NAMES| && forall i :: 0 <= i < |envs| ==> Plays(c, i + 1, envs[i])
  }

  /** One turn of the suite's loop; None when the context has ended before the scenario. */
  function StepOf(c: Config, k: int, env: Environment): Option<Trace<ScenarioResult>>
    requires 1 <= k <= |SCENARIO_NAMES| && Plays(c, k, env)
  {
    if env.interrupted then None else Some(RunScenario(c, k, env))
  }

  function Extended(before: Trace<seq<ScenarioResult>>, step: Option<Trace<ScenarioResult>>): Trace<seq<ScenarioResult>> {
    if before.result.Err? then before
    else if step.None? then Trace(before.events, Err)
    else
      Trace(before.events + step.value.events,
            if step.value.result.Err? then Err else Ok(before.result.value + [step.value.result.value]))
  }

  function RunSteps(c: Config, steps: seq<Option<Trace<ScenarioResult>>>): Trace<seq<ScenarioResult>> {
    if steps == [] then Trace([ScenarioEvent(c, 0, BenchmarkStarted, NoPhase, 0)], Ok([]))
    else Extended(RunSteps(c, steps[..|steps| - 1]), steps[|steps| - 1])
  }

  function Steps(c: Config, envs: seq<Environment>): (steps: seq<Option<Trace<ScenarioResult>>>)
    requires AllPlay(c, envs)
    ensures |steps| == |envs|
  {
    seq(|envs|, i requires 0 <= i < |envs| => StepOf(c, i + 1, envs[i]))
  }

  function Completed(c: Config, all: Trace<seq<ScenarioResult>>): Trace<seq<ScenarioResult>> {
    if all.result.Err? then all
    else
      Trace(all.events + [ScenarioEvent(c, |SCENARIO_NAMES|, BenchmarkCompleted, ForwardedPhase, c.queryCount)],
            all.result)
  }

  function RunSuite(c: Config, envs: seq<Environment>): Trace<seq<ScenarioResult>>
    requires AllPlay(c, envs)
  {
    Completed(c, RunSteps(c, Steps(c, envs)))
  }

  // ---------- the runners, reporting to a log ----------

  class Reporter {
    var events: seq<Event>

    method Report(e: Event)
      modifies this
      ensures events == old(events) + [e]
    {
      events := events + [e];
    }
  }

  method ReportPath(reporter: Reporter, c: Config, k: int, phase: Phase, run: seq<Pool.Action>)
    returns (result: Result<PathResult>)
    requires Finished(c.PoolConfig(k, phase), run)
    modifies reporter
    ensures reporter.events == old(reporter.events) + RunPath(c, k, phase, run).events
    ensures result == RunPath(c, k, phase, run).result
  {
    var s := Pool.Play(c.PoolConfig(k, phase), run).value;
    var reported := s.view.reported;
    reporter.Report(PhaseEvent(c, k, phase, PhaseStarted, 0));
    for i := 0 to |reported|
      invariant reporter.events == old(reporter.events) + [PhaseEvent(c, k, phase, PhaseStarted, 0)]
                                   + ProgressEvents(c, k, phase, reported[..i])
    {
      reporter.Report(PhaseEvent(c, k, phase, PhaseProgress, reported[i]));
      assert ProgressEvents(c, k, phase, reported[..i + 1])
          == ProgressEvents(c, k, phase, reported[..i]) + [PhaseEvent(c, k, phase, PhaseProgress, reported[i])];
    }
    assert reported[..|reported|] == reported;
    var ret := s.collector.ret;
    if ret.result.Ok? {
      reporter.Report(PhaseEvent(c, k, phase, PhaseCompleted, ret.completed));
    }
    result := ret.result;
  }

  method ReportWarmup(reporter: Reporter, c: Config, k: int, phase: Phase, env: Environment) returns (result: Result<()>)
    requires Finished(c.PoolConfig(k, phase), env.run(phase))
    modifies reporter
    ensures reporter.events == old(reporter.events) + Warmup(c, k, phase, env).events
    ensures result == Warmup(c, k, phase, env).result
  {
    var path := ReportPath(reporter, c, k, phase, env.run(phase));
    if path.Err? || path.value.requests.successful != c.warmupQueries {
      return Err;
    }
    result := Ok(());
  }

  method ReportWarmups(reporter: Reporter, c: Config, k: int, env: Environment) returns (result: Result<()>)
    requires Plays(c, k, env)
    modifies reporter
    ensures reporter.events == old(reporter.events) + Warmups(c, k, env).events
    ensures result == Warmups(c, k, env).result
  {
    if c.warmupQueries <= 0 {
      return Ok(());
    }
    result := ReportWarmup(reporter, c, k, WarmupDirect, env);
    if result.Ok? {
      result := ReportWarmup(reporter, c, k, WarmupForwarded, env);
    }
  }

  method ReportMeasured(reporter: Reporter, c: Config, k: int, env: Environment)
    returns (result: Result<(PathResult, PathResult)>)
    requires Plays(c, k, env)
    modifies reporter
    ensures reporter.events == old(reporter.events) + Measure(c, k, env).events
    ensures result == Measure(c, k, env).result
  {
    var direct := ReportPath(reporter, c, k, DirectPhase, env.run(DirectPhase));
    if direct.Err? {
      return Err;
    }
    var forwarded := ReportPath(reporter, c, k, ForwardedPhase, env.run(ForwardedPhase));
    if forwarded.Err? {
      return Err;
    }
    result := Ok((direct.value, forwarded.value));
  }

  method ReportScenario(reporter: Reporter, c: Config, k: int, env: Environment) returns (result: Result<ScenarioResult>)
    requires 1 <= k <= |SCENARIO_NAMES| && Plays(c, k, env)
    modifies reporter
    ensures reporter.events == old(reporter.events) + RunScenario(c, k, env).events
    ensures result == RunScenario(c, k, env).result
  {
    ghost var before := reporter.events;
    reporter.Report(ScenarioEvent(c, k, ScenarioStarted, NoPhase, 0));
    if env.runnerFails {
      return Err;
    }
    var warmups := ReportWarmups(reporter, c, k, env);
    ghost var warmed := [ScenarioEvent(c, k, ScenarioStarted, NoPhase, 0)] + Warmups(c, k, env).events;
    assert reporter.events == before + warmed;
    if warmups.Err? {
      return Err;
    }
    result := ReportAfterWarmup(reporter, c, k, env, before, warmed);
  }

  method ReportAfterWarmup(
    reporter: Reporter, c: Config, k: int, env: Environment, ghost before: seq<Event>, ghost warmed: seq<Event>)
    returns (result: Result<ScenarioResult>)
    requires 1 <= k <= |SCENARIO_NAMES| && Plays(c, k, env) && reporter.events == before + warmed
    modifies reporter
    ensures reporter.events == before + AfterWarmup(c, k, env, warmed).events
    ensures result == AfterWarmup(c, k, env, warmed).result
  {
    var paths := ReportMeasured(reporter, c, k, env);
    ghost var measured := warmed + Measure(c, k, env).events;
    assert reporter.events == before + measured;
    if paths.Err? {
      return Err;
    }
    var last := ScenarioEvent(c, k, ScenarioCompleted, ForwardedPhase, c.queryCount);
    reporter.Report(last);
    result := Ok(ScenarioResult(SCENARIO_NAMES[k - 1], Unknown, [], paths.value.0, paths.value.1));
    assert reporter.events == before + (measured + [last]);
  }

  /** One turn of the suite's loop. */
  method ReportNext(
    reporter: Reporter, c: Config, k: int, env: Environment, results: seq<ScenarioResult>,
    ghost earlier: seq<Event>, ghost before: Trace<seq<ScenarioResult>>)
    returns (result: Result<seq<ScenarioResult>>)
    requires 1 <= k <= |SCENARIO_NAMES| && Plays(c, k, env)
    requires before.result == Ok(results) && reporter.events == earlier + before.events
    modifies reporter
    ensures reporter.events == earlier + Extended(before, StepOf(c, k, env)).events
    ensures result == Extended(before, StepOf(c, k, env)).result
  {
    if env.interrupted {
      return Err;
    }
    var scenario := ReportScenario(reporter, c, k, env);
    Concatenated(earlier, before.events, RunScenario(c, k, env).events);
    result := if scenario.Err? then Err else Ok(results + [scenario.value]);
  }

  lemma Concatenated(a: seq<Event>, b: seq<Event>, c: seq<Event>)
    ensures a + b + c == a + (b + c)
  {
  }

  method ReportSteps(reporter: Reporter, c: Config, envs: seq<Environment>, ghost steps: seq<Option<Trace<ScenarioResult>>>)
    returns (result: Result<seq<ScenarioResult>>)
    requires AllPlay(c, envs) && steps == Steps(c, envs)
    modifies reporter
    ensures reporter.events == old(reporter.events) + RunSteps(c, steps).events
    ensures result == RunSteps(c, steps).result
  {
    ghost var earlier := reporter.events;
    reporter.Report(ScenarioEvent(c, 0, BenchmarkStarted, NoPhase, 0));
    result := Ok([]);
    for index := 0 to |SCENARIO_NAMES|
      invariant result.Ok? && result == RunSteps(c, steps[..index]).result
      invariant reporter.events == earlier + RunSteps(c, steps[..index]).events
    {
      result := ReportNext(reporter, c, index + 1, envs[index], result.value, earlier, RunSteps(c, steps[..index]));
      assert steps[..index + 1][..index] == steps[..index];
      if result.Err? {
        InterruptedStays(c, steps, index + 1);
        return;
      }
    }
    assert steps[..|steps|] == steps;
  }

  method ReportSuite(reporter: Reporter, c: Config, envs: seq<Environment>) returns (result: Result<seq<ScenarioResult>>)
    requires AllPlay(c, envs)
    modifies reporter
    ensures reporter.events == old(reporter.events) + RunSuite(c, envs).events
    ensures result == RunSuite(c, envs).result
  {
    result := ReportSteps(reporter, c, envs, Steps(c, envs));
    if result.Err? {
      return;
    }
    var last := ScenarioEvent(c, |SCENARIO_NAMES|, BenchmarkCompleted, ForwardedPhase, c.queryCount);
    reporter.Report(last);
    assert reporter.events == old(reporter.events) + (RunSteps(c, Steps(c, envs)).events + [last]);
  }

  /** Nothing is emitted after a scenario has failed. */
  lemma {:induction false} InterruptedStays(c: Config, steps: seq<Option<Trace<ScenarioResult>>>, done: nat)
    requires done <= |steps| && RunSteps(c, steps[..done]).result.Err?
    ensures RunSteps(c, steps) == RunSteps(c, steps[..done])
  {
    if done == |steps| {
      assert steps[..done] == steps;
    } else {
      var front := steps[..|steps| - 1];
      assert front[..done] == steps[..done];
      InterruptedStays(c, front, done);
    }
  }

  // ---------- the stream is in the language ----------

  lemma {:induction false} ProgressRead(c: Config, k: int, left: nat, last: int, reported: seq<int>)
    requires 1 <= left <= 4
    requires forall i :: 0 <= i < |reported| ==> last < reported[i] <= c.Shape().Total(PhaseAt(left))
    requires forall i, j :: 0 <= i < j < |reported| ==> reported[i] < reported[j]
    ensures Read(c.Shape(), Running(k, left, last), ProgressEvents(c, k, PhaseAt(left), reported))
            == Some(Running(k, left, if reported == [] then last else reported[|reported| - 1]))
    decreases |reported|
  {
    if reported != [] {
      var events := ProgressEvents(c, k, PhaseAt(left), reported);
      assert events[1..] == ProgressEvents(c, k, PhaseAt(left), reported[1..]);
      ProgressRead(c, k, left, reported[0], reported[1..]);
    }
  }

  lemma ReadOne(sh: Shape, cur: Cursor, e: Event)
    ensures Read(sh, cur, [e]) == Advance(sh, cur, e)
  {
    assert [e][1..] == [];
  }

  lemma PhaseTotal(c: Config, k: int, left: nat)
    requires 1 <= left <= 4
    ensures c.PoolConfig(k, PhaseAt(left)).queryCount == c.Shape().Total(PhaseAt(left))
  {
  }

  /** One path is one block; it is closed exactly when the path has a result. */
  lemma PathRead(c: Config, k: int, left: nat, run: seq<Pool.Action>)
    requires 1 <= left <= 4 && Finished(c.PoolConfig(k, PhaseAt(left)), run)
    ensures var path := RunPath(c, k, PhaseAt(left), run);
            var end := Read(c.Shape(), Opened(k, left), path.events);
            end.Some? && (if path.result.Ok? then end.value == Opened(k, left - 1) else end.value.Running?)
  {
    var pool, phase, sh := c.PoolConfig(k, PhaseAt(left)), PhaseAt(left), c.Shape();
    var s := Pool.Play(pool, run).value;
    var reported, ret := s.view.reported, s.collector.ret;
    PhaseTotal(c, k, left);
    Pool.ProgressOfRun(pool, run);
    Pool.ScheduledIsExact(pool, run);
    assert ret.completed == pool.queryCount by { Pool.ReturnedResult(pool, run); }
    var first := [PhaseEvent(c, k, phase, PhaseStarted, 0)];
    var middle := ProgressEvents(c, k, phase, reported);
    ReadOne(sh, Opened(k, left), first[0]);
    ProgressRead(c, k, left, 0, reported);
    ReadAppend(sh, Opened(k, left), first, middle);
    var at := Read(sh, Opened(k, left), first + middle).value;
    if ret.result.Ok? {
      var final := PhaseEvent(c, k, phase, PhaseCompleted, ret.completed);
      ReadOne(sh, at, final);
      ReadAppend(sh, Opened(k, left), first + middle, [final]);
    } else {
      assert first + middle + [] == first + middle;
    }
  }

  lemma WarmupsRead(c: Config, k: int, env: Environment)
    requires Plays(c, k, env)
    ensures var warmups := Warmups(c, k, env);
            var end := Read(c.Shape(), Opened(k, c.Shape().PhaseCount()), warmups.events);
            end.Some? && !end.value.Ended? && (warmups.result.Ok? ==> end.value == Opened(k, 2))
  {
    if c.warmupQueries > 0 {
      PathRead(c, k, 4, env.run(WarmupDirect));
      PathRead(c, k, 3, env.run(WarmupForwarded));
      ReadAppend(c.Shape(), Opened(k, 4), Warmup(c, k, WarmupDirect, env).events,
                 Warmup(c, k, WarmupForwarded, env).events);
    }
  }

  lemma MeasureRead(c: Config, k: int, env: Environment)
    requires Plays(c, k, env)
    ensures var paths := Measure(c, k, env);
            var end := Read(c.Shape(), Opened(k, 2), paths.events);
            end.Some? && !end.value.Ended? && (paths.result.Ok? ==> end.value == Opened(k, 0))
  {
    PathRead(c, k, 2, env.run(DirectPhase));
    PathRead(c, k, 1, env.run(ForwardedPhase));
    ReadAppend(c.Shape(), Opened(k, 2), RunPath(c, k, DirectPhase, env.run(DirectPhase)).events,
               RunPath(c, k, ForwardedPhase, env.run(ForwardedPhase)).events);
  }

  lemma ScenarioRead(c: Config, k: int, env: Environment)
    requires 1 <= k <= |SCENARIO_NAMES| && Plays(c, k, env)
    ensures var scenario := RunScenario(c, k, env);
            var end := Read(c.Shape(), Between(k - 1), scenario.events);
            end.Some? && !end.value.Ended? && (scenario.result.Ok? ==> end.value == Between(k))
  {
    var sh := c.Shape();
    var started := [ScenarioEvent(c, k, ScenarioStarted, NoPhase, 0)];
    var warmups, paths := Warmups(c, k, env), Measure(c, k, env);
    ReadOne(sh, Between(k - 1), started[0]);
    WarmupsRead(c, k, env);
    ReadAppend(sh, Between(k - 1), started, warmups.events);
    if warmups.result.Ok? {
      MeasureRead(c, k, env);
      ReadAppend(sh, Between(k - 1), started + warmups.events, paths.events);
      if paths.result.Ok? {
        var final := ScenarioEvent(c, k, ScenarioCompleted, ForwardedPhase, c.queryCount);
        ReadOne(sh, Opened(k, 0), final);
        ReadAppend(sh, Between(k - 1), started + warmups.events + paths.events, [final]);
      }
    }
  }

  /** The events of a step lead from the end of the scenario before to its own end, or stop on the way. */
  ghost predicate StepRead(sh: Shape, k: int, step: Option<Trace<ScenarioResult>>) {
    step.Some? ==>
      var end := Read(sh, Between(k - 1), step.value.events);
      end.Some? && !end.value.Ended? && (step.value.result.Ok? ==> end.value == Between(k))
  }

  lemma {:induction false} StepsRead(c: Config, steps: seq<Option<Trace<ScenarioResult>>>)
    requires forall i :: 0 <= i < |steps| ==> StepRead(c.Shape(), i + 1, steps[i])
    ensures var all := RunSteps(c, steps);
            var end := Read(c.Shape(), NotStarted, all.events);
            end.Some? && !end.value.Ended? && (all.result.Ok? ==> end.value == Between(|steps|))
  {
    if steps == [] {
      ReadOne(c.Shape(), NotStarted, ScenarioEvent(c, 0, BenchmarkStarted, NoPhase, 0));
    } else {
      var n := |steps| - 1;
      StepsRead(c, steps[..n]);
      assert StepRead(c.Shape(), n + 1, steps[n]);
      if RunSteps(c, steps[..n]).result.Ok? && steps[n].Some? {
        ReadAppend(c.Shape(), NotStarted, RunSteps(c, steps[..n]).events, steps[n].value.events);
      }
    }
  }

  lemma SuiteStepsRead(c: Config, envs: seq<Environment>)
    requires AllPlay(c, envs)
    ensures forall i :: 0 <= i < |envs| ==> StepRead(c.Shape(), i + 1, Steps(c, envs)[i])
  {
    forall i | 0 <= i < |envs| ensures StepRead(c.Shape(), i + 1, Steps(c, envs)[i]) {
      StepOfRead(c, i + 1, envs[i]);
    }
  }

  lemma StepOfRead(c: Config, k: int, env: Environment)
    requires 1 <= k <= |SCENARIO_NAMES| && Plays(c, k, env)
    ensures StepRead(c.Shape(), k, StepOf(c, k, env))
  {
    if !env.interrupted {
      ScenarioRead(c, k, env);
    }
  }

  lemma CompletedRead(c: Config, all: Trace<seq<ScenarioResult>>)
    requires var end := Read(c.Shape(), NotStarted, all.events);
             end.Some? && !end.value.Ended? && (all.result.Ok? ==> end.value == Between(|SCENARIO_NAMES|))
    ensures var end := Read(c.Shape(), NotStarted, Completed(c, all).events);
            end.Some? && (all.result.Ok? <==> end.value.Ended?)
  {
    if all.result.Ok? {
      var final := ScenarioEvent(c, |SCENARIO_NAMES|, BenchmarkCompleted, ForwardedPhase, c.queryCount);
      ReadOne(c.Shape(), Between(|SCENARIO_NAMES|), final);
      ReadAppend(c.Shape(), NotStarted, all.events, [final]);
    }
  }

  /**
   Whatever the pools do, whenever the context is cancelled and whichever scenario fails, the stream of
   the whole benchmark stays in the language, and it is complete exactly when the suite succeeds.
   */
  lemma StreamInLanguage(c: Config, envs: seq<Environment>)
    requires AllPlay(c, envs)
    ensures var suite := RunSuite(c, envs);
            var end := Read(c.Shape(), NotStarted, suite.events);
            end.Some? && (suite.result.Ok? <==> end.value.Ended?)
  {
    SuiteStepsRead(c, envs);
    StepsRead(c, Steps(c, envs));
    CompletedRead(c, RunSteps(c, Steps(c, envs)));
  }

  /** Overall completion rises along the whole benchmark, and a successful suite ends at eight paths' worth. */
  lemma SuiteCompletionRises(c: Config, envs: seq<Environment>)
    requires c.Valid() && AllPlay(c, envs)
    ensures var events, q := RunSuite(c, envs).events, c.queryCount;
            && (forall i, j :: 0 <= i <= j < |events| ==>
                  0 <= OverallCompleted(events[i], q) <= OverallCompleted(events[j], q) <= OverallTotal(events[j], q))
            && (RunSuite(c, envs).result.Ok? ==>
                  && events[|events| - 1].kind.BenchmarkCompleted?
                  && OverallCompleted(events[|events| - 1], q) == OverallTotal(events[|events| - 1], q) == 8 * q)
  {
    StreamInLanguage(c, envs);
    CompletionRises(c.Shape(), NotStarted, RunSuite(c, envs).events);
  }

  // ---------- from the suite to the report ----------

  ghost predicate MeasuredPath(c: Config, path: PathResult) {
    && Conserved(path.requests) && path.requests.attempted == c.queryCount
    && path.rates == CalculateRequestRates(path.requests)
  }

  lemma ScenarioMeasured(c: Config, k: int, env: Environment)
    requires c.Valid() && 1 <= k <= |SCENARIO_NAMES| && Plays(c, k, env) && RunScenario(c, k, env).result.Ok?
    ensures var s := RunScenario(c, k, env).result.value;
            MeasuredPath(c, s.direct) && MeasuredPath(c, s.forwarded) && s.name == SCENARIO_NAMES[k - 1]
  {
    Pool.ReturnedResult(c.PoolConfig(k, DirectPhase), env.run(DirectPhase));
    Pool.ReturnedResult(c.PoolConfig(k, ForwardedPhase), env.run(ForwardedPhase));
  }

  // ---------- when a benchmark succeeds, and with which results ----------

  /** What the pool returned in a phase, if it has finished. */
  function PoolResult(c: Config, k: int, phase: Phase, env: Environment): Result<PathResult> {
    if Finished(c.PoolConfig(k, phase), env.run(phase)) then
      Pool.Play(c.PoolConfig(k, phase), env.run(phase)).value.collector.ret.result
    else Err
  }

  predicate WarmedUp(c: Config, k: int, phase: Phase, env: Environment) {
    && PoolResult(c, k, phase, env).Ok?
    && PoolResult(c, k, phase, env).value.requests.successful == c.warmupQueries
  }

  /** The runner exists, the warmups, if any, succeed completely, and both measured paths have a result. */
  predicate Succeeds(c: Config, k: int, env: Environment) {
    && !env.runnerFails
    && (c.warmupQueries > 0 ==> WarmedUp(c, k, WarmupDirect, env) && WarmedUp(c, k, WarmupForwarded, env))
    && PoolResult(c, k, DirectPhase, env).Ok? && PoolResult(c, k, ForwardedPhase, env).Ok?
  }

  /** The direct and the forwarded result are those of the direct and of the forwarded phase. */
  ghost predicate OfItsPools(c: Config, k: int, env: Environment, s: ScenarioResult) {
    PoolResult(c, k, DirectPhase, env) == Ok(s.direct) && PoolResult(c, k, ForwardedPhase, env) == Ok(s.forwarded)
  }

  lemma WarmupsSucceedExactly(c: Config, k: int, env: Environment)
    requires Plays(c, k, env)
    ensures Warmups(c, k, env).result.Ok? <==>
            (c.warmupQueries > 0 ==> WarmedUp(c, k, WarmupDirect, env) && WarmedUp(c, k, WarmupForwarded, env))
  {
  }

  lemma MeasureSucceedsExactly(c: Config, k: int, env: Environment)
    requires Plays(c, k, env)
    ensures Measure(c, k, env).result.Ok? <==>
            PoolResult(c, k, DirectPhase, env).Ok? && PoolResult(c, k, ForwardedPhase, env).Ok?
    ensures Measure(c, k, env).result.Ok? ==>
              && PoolResult(c, k, DirectPhase, env) == Ok(Measure(c, k, env).result.value.0)
              && PoolResult(c, k, ForwardedPhase, env) == Ok(Measure(c, k, env).result.value.1)
  {
  }

  /** A scenario has a result exactly if it succeeds in that sense, and the result is that of its pools. */
  lemma ScenarioSucceedsExactly(c: Config, k: int, env: Environment)
    requires 1 <= k <= |SCENARIO_NAMES| && Plays(c, k, env)
    ensures RunScenario(c, k, env).result.Ok? <==> Succeeds(c, k, env)
    ensures RunScenario(c, k, env).result.Ok? ==> OfItsPools(c, k, env, RunScenario(c, k, env).result.value)
  {
    WarmupsSucceedExactly(c, k, env);
    MeasureSucceedsExactly(c, k, env);
  }

  /** The context has not ended before the scenario, and it succeeds. */
  predicate Uninterrupted(c: Config, k: int, env: Environment) {
    !env.interrupted && Succeeds(c, k, env)
  }

  predicate HasResult(step: Option<Trace<ScenarioResult>>) {
    step.Some? && step.value.result.Ok?
  }

  /** The turn has a result exactly if it is uninterrupted, and the result is that of its pools. */
  ghost predicate StepSays(c: Config, k: int, env: Environment, step: Option<Trace<ScenarioResult>>) {
    && (HasResult(step) <==> Uninterrupted(c, k, env))
    && (HasResult(step) ==> OfItsPools(c, k, env, step.value.result.value))
  }

  lemma StepSucceedsExactly(c: Config, k: int, env: Environment)
    requires 1 <= k <= |SCENARIO_NAMES| && Plays(c, k, env)
    ensures StepSays(c, k, env, StepOf(c, k, env))
  {
    ScenarioSucceedsExactly(c, k, env);
  }

  lemma {:induction false} StepsSucceedExactly(c: Config, steps: seq<Option<Trace<ScenarioResult>>>)
    ensures RunSteps(c, steps).result.Ok? <==> forall i :: 0 <= i < |steps| ==> HasResult(steps[i])
    ensures RunSteps(c, steps).result.Ok? ==>
              && |RunSteps(c, steps).result.value| == |steps|
              && forall i :: 0 <= i < |steps| ==> steps[i].value.result == Ok(RunSteps(c, steps).result.value[i])
  {
    if steps != [] {
      var n := |steps| - 1;
      StepsSucceedExactly(c, steps[..n]);
      assert forall i :: 0 <= i < n ==> steps[..n][i] == steps[i];
    }
  }

  /**
   The suite succeeds exactly if every scenario is reached with a live context and succeeds, and then its results
   are, scenario by scenario, those of the direct and the forwarded pool.
   */
  lemma SuiteSucceedsExactly(c: Config, envs: seq<Environment>)
    requires AllPlay(c, envs)
    ensures RunSuite(c, envs).result.Ok? <==> forall i :: 0 <= i < |envs| ==> Uninterrupted(c, i + 1, envs[i])
    ensures RunSuite(c, envs).result.Ok? ==>
              && |RunSuite(c, envs).result.value| == |envs|
              && forall i :: 0 <= i < |envs| ==> OfItsPools(c, i + 1, envs[i], RunSuite(c, envs).result.value[i])
  {
    CompletedKeepsResult(c, RunSteps(c, Steps(c, envs)));
    RunStepsExactly(c, envs, Steps(c, envs));
  }

  lemma RunStepsExactly(c: Config, envs: seq<Environment>, steps: seq<Option<Trace<ScenarioResult>>>)
    requires AllPlay(c, envs) && |steps| == |envs|
    requires forall i :: 0 <= i < |envs| ==> steps[i] == StepOf(c, i + 1, envs[i])
    ensures var r := RunSteps(c, steps).result;
            && (r.Ok? <==> forall i :: 0 <= i < |envs| ==> Uninterrupted(c, i + 1, envs[i]))
            && (r.Ok? ==> |r.value| == |envs| && forall i :: 0 <= i < |envs| ==> OfItsPools(c, i + 1, envs[i], r.value[i]))
  {
    StepsSucceedExactly(c, steps);
    AllStepsSucceedExactly(c, envs, steps);
    ResultOfSteps(c, envs, steps, RunSteps(c, steps).result);
  }

  lemma ResultOfSteps(
    c: Config, envs: seq<Environment>, steps: seq<Option<Trace<ScenarioResult>>>, r: Result<seq<ScenarioResult>>)
    requires |steps| == |envs| && forall i :: 0 <= i < |envs| ==> StepSays(c, i + 1, envs[i], steps[i])
    requires r.Ok? <==> forall i :: 0 <= i < |steps| ==> HasResult(steps[i])
    requires r.Ok? ==> |r.value| == |steps| && forall i :: 0 <= i < |steps| ==> steps[i].value.result == Ok(r.value[i])
    ensures r.Ok? <==> forall i :: 0 <= i < |envs| ==> Uninterrupted(c, i + 1, envs[i])
    ensures r.Ok? ==> forall i :: 0 <= i < |envs| ==> OfItsPools(c, i + 1, envs[i], r.value[i])
  {
    forall i | 0 <= i < |envs|
      ensures HasResult(steps[i]) <==> Uninterrupted(c, i + 1, envs[i])
      ensures r.Ok? ==> OfItsPools(c, i + 1, envs[i], r.value[i])
    {
      assert StepSays(c, i + 1, envs[i], steps[i]);
    }
  }

  lemma AllStepsSucceedExactly(c: Config, envs: seq<Environment>, steps: seq<Option<Trace<ScenarioResult>>>)
    requires AllPlay(c, envs) && |steps| == |envs|
    requires forall i :: 0 <= i < |envs| ==> steps[i] == StepOf(c, i + 1, envs[i])
    ensures forall i :: 0 <= i < |envs| ==> StepSays(c, i + 1, envs[i], steps[i])
  {
    forall i | 0 <= i < |envs| ensures StepSays(c, i + 1, envs[i], steps[i]) {
      StepSucceedsExactly(c, i + 1, envs[i]);
    }
  }

  /** Which scenarios are concurrent, and what their pools are asked to do. */
  lemma PlannedPools(c: Config, k: int, phase: Phase)
    requires 1 <= k <= |SCENARIO_NAMES|
    ensures c.PoolConfig(k, phase).nameCount == c.nameCount
    ensures c.PoolConfig(k, phase).queryCount
         == if phase.WarmupDirect? || phase.WarmupForwarded? then c.warmupQueries else c.queryCount
    ensures phase.DirectPhase? || phase.ForwardedPhase? ==>
              && (SCENARIO_NAMES[k - 1] in ["udp-concurrent", "tcp-concurrent"] ==>
                    c.PoolConfig(k, phase).concurrency == c.concurrentWorkers)
              && (SCENARIO_NAMES[k - 1] in ["udp-sequential", "tcp-sequential"] ==>
                    c.PoolConfig(k, phase).concurrency == 1)
    ensures phase.WarmupDirect? || phase.WarmupForwarded? ==> c.PoolConfig(k, phase).concurrency == 1
    ensures c.Valid() && (phase.WarmupDirect? || phase.WarmupForwarded? ==> c.warmupQueries > 0) ==>
              c.PoolConfig(k, phase).Valid()
  {
    DifferentNames(k - 1);
  }

  /** The names of the scenarios tell the sequential ones from the concurrent ones. */
  lemma DifferentNames(i: int)
    requires 0 <= i < |SCENARIO_NAMES|
    ensures SCENARIO_NAMES[i] in ["udp-concurrent", "tcp-concurrent"] ==> i % 2 == 1
    ensures SCENARIO_NAMES[i] in ["udp-sequential", "tcp-sequential"] ==> i % 2 == 0
  {
    assert "udp-sequential"[4] == 's' && "tcp-sequential"[4] == 's';
    assert "udp-concurrent"[4] == 'c' && "tcp-concurrent"[4] == 'c';
  }

  /** A scenario has a result only if every warmup query was executed and succeeded. */
  lemma WarmBeforeMeasured(c: Config, k: int, env: Environment, phase: Phase)
    requires 1 <= k <= |SCENARIO_NAMES| && Plays(c, k, env) && RunScenario(c, k, env).result.Ok?
    requires c.warmupQueries > 0 && (phase.WarmupDirect? || phase.WarmupForwarded?)
    ensures var s := Pool.Play(c.PoolConfig(k, phase), env.run(phase)).value;
            s.scheduled == CountSuccesses(Pool.Outcomes(s.consumed)) == c.warmupQueries
  {
    var pool := c.PoolConfig(k, phase);
    Pool.ReturnedResult(pool, env.run(phase));
    Pool.ScheduledIsExact(pool, env.run(phase));
    SuccessesBounded(Pool.Outcomes(Pool.Play(pool, env.run(phase)).value.consumed));
  }

  ghost predicate MeasuredScenario(c: Config, k: nat, s: ScenarioResult) {
    && MeasuredPath(c, s.direct) && MeasuredPath(c, s.forwarded)
    && 1 <= k <= |SCENARIO_NAMES| && s.name == SCENARIO_NAMES[k - 1]
  }

  ghost predicate StepMeasured(c: Config, k: nat, step: Option<Trace<ScenarioResult>>) {
    step.Some? && step.value.result.Ok? ==> MeasuredScenario(c, k, step.value.result.value)
  }

  lemma StepOfMeasured(c: Config, k: int, env: Environment)
    requires c.Valid() && 1 <= k <= |SCENARIO_NAMES| && Plays(c, k, env)
    ensures StepMeasured(c, k, StepOf(c, k, env))
  {
    if !env.interrupted && RunScenario(c, k, env).result.Ok? {
      ScenarioMeasured(c, k, env);
    }
  }

  lemma {:induction false} StepsMeasured(c: Config, steps: seq<Option<Trace<ScenarioResult>>>)
    requires RunSteps(c, steps).result.Ok?
    requires forall i :: 0 <= i < |steps| ==> StepMeasured(c, i + 1, steps[i])
    ensures var results := RunSteps(c, steps).result.value;
            && |results| == |steps|
            && (forall i :: 0 <= i < |Verdicts.Paths(results)| ==> MeasuredPath(c, Verdicts.Paths(results)[i]))
            && (forall i :: 0 <= i < |steps| ==> MeasuredScenario(c, i + 1, results[i]))
  {
    if steps != [] {
      var n := |steps| - 1;
      var before := RunSteps(c, steps[..n]).result.value;
      StepsMeasured(c, steps[..n]);
      assert StepMeasured(c, n + 1, steps[n]);
      MeasuredGrows(c, before, steps[n].value.result.value);
      assert RunSteps(c, steps).result.value == before + [steps[n].value.result.value];
    }
  }

  lemma MeasuredGrows(c: Config, results: seq<ScenarioResult>, next: ScenarioResult)
    requires forall i :: 0 <= i < |Verdicts.Paths(results)| ==> MeasuredPath(c, Verdicts.Paths(results)[i])
    requires forall i :: 0 <= i < |results| ==> MeasuredScenario(c, i + 1, results[i])
    requires MeasuredScenario(c, |results| + 1, next)
    ensures forall i :: 0 <= i < |Verdicts.Paths(results + [next])| ==>
                          MeasuredPath(c, Verdicts.Paths(results + [next])[i])
    ensures forall i :: 0 <= i <= |results| ==> MeasuredScenario(c, i + 1, (results + [next])[i])
  {
    assert (results + [next])[..|results|] == results;
  }

  /** A successful suite has one result per scenario, in order, and every path asked all of its queries. */
  lemma ResultsMeasured(c: Config, envs: seq<Environment>)
    requires c.Valid() && AllPlay(c, envs) && RunSuite(c, envs).result.Ok?
    ensures var results := RunSuite(c, envs).result.value;
            && |results| == |SCENARIO_NAMES|
            && (forall i :: 0 <= i < |Verdicts.Paths(results)| ==> MeasuredPath(c, Verdicts.Paths(results)[i]))
            && (forall i :: 0 <= i < |results| ==> MeasuredScenario(c, i + 1, results[i]))
  {
    AllStepsMeasured(c, envs);
    CompletedKeepsResult(c, RunSteps(c, Steps(c, envs)));
    StepsMeasured(c, Steps(c, envs));
  }

  lemma CompletedKeepsResult(c: Config, all: Trace<seq<ScenarioResult>>)
    ensures Completed(c, all).result == all.result
  {
  }

  lemma AllStepsMeasured(c: Config, envs: seq<Environment>)
    requires c.Valid() && AllPlay(c, envs)
    ensures forall i :: 0 <= i < |envs| ==> StepMeasured(c, i + 1, Steps(c, envs)[i])
  {
    forall i | 0 <= i < |envs| ensures StepMeasured(c, i + 1, Steps(c, envs)[i]) {
      StepOfMeasured(c, i + 1, envs[i]);
    }
  }

  /**
   The verdict on a finished benchmark: it is never invalid or unknown, it is passed only if the summary
   rates are below the degraded thresholds, and the summary accounts for every query of all eight paths.
   */
  lemma BenchmarkVerdict(c: Config, envs: seq<Environment>, t: Thresholds)
    requires c.Valid() && AllPlay(c, envs) && RunSuite(c, envs).result.Ok?
    ensures var results := RunSuite(c, envs).result.value;
            var summary := Summarize(ClassifyScenarios(results, t));
            && (summary.status.Passed? || summary.status.Degraded? || summary.status.Failed?)
            && summary.totals.requests.attempted == 8 * c.queryCount
            && Conserved(summary.totals.requests)
            && (summary.status.Passed? ==>
                  summary.rates.failure < t.degradedFailure && summary.rates.timeout < t.degradedTimeout)
  {
    ResultsMeasured(c, envs);
    MeasuredVerdict(c, RunSuite(c, envs).result.value, t);
  }

  lemma MeasuredVerdict(c: Config, results: seq<ScenarioResult>, t: Thresholds)
    requires c.queryCount > 0 && |results| == 4
    requires forall i :: 0 <= i < |Verdicts.Paths(results)| ==> MeasuredPath(c, Verdicts.Paths(results)[i])
    ensures var summary := Summarize(ClassifyScenarios(results, t));
            && (summary.status.Passed? || summary.status.Degraded? || summary.status.Failed?)
            && summary.totals.requests.attempted == 8 * c.queryCount
            && Conserved(summary.totals.requests)
            && (summary.status.Passed? ==>
                  summary.rates.failure < t.degradedFailure && summary.rates.timeout < t.degradedTimeout)
  {
    assert SummaryRates.Measured(results);
    SummaryRates.SummaryNoWorseThanStatus(results, t);
    Verdicts.StatusIsWorstPath(results, t);
    AttemptedEverywhere(Verdicts.Paths(results), t);
    SummaryRates.ClassifyingKeepsPaths(results, t);
    SummaryRates.TotalsAddUp(ClassifyScenarios(results, t));
    SumAttempted(SummaryRates.PathCounts(results), c.queryCount);
    assert SummaryRates.PathCounts(ClassifyScenarios(results, t)) == SummaryRates.PathCounts(results);
    SummaryRates.SumConserved(SummaryRates.PathCounts(results));
  }

  lemma {:induction false} AttemptedEverywhere(paths: seq<PathResult>, t: Thresholds)
    requires forall i :: 0 <= i < |paths| ==> paths[i].requests.attempted > 0
    ensures Verdicts.WorstSeverity(paths, t) <= 3
    ensures paths != [] ==> Verdicts.WorstSeverity(paths, t) >= 1
  {
    if paths != [] {
      AttemptedEverywhere(paths[..|paths| - 1], t);
    }
  }

  lemma {:induction false} SumAttempted(counts: seq<RequestCounts>, q: int)
    requires forall i :: 0 <= i < |counts| ==> counts[i].attempted == q
    ensures SummaryRates.SumRequests(counts).attempted == |counts| * q
  {
    if counts != [] {
      SumAttempted(counts[..|counts| - 1], q);
      assert |counts| * q == (|counts| - 1) * q + q;
    }
  }
}
