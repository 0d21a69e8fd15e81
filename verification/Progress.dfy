/** Progress events of a benchmark, and the language of the complete event stream. */
module Progress {
  import opened Wrappers

  datatype Phase = NoPhase | WarmupDirect | WarmupForwarded | DirectPhase | ForwardedPhase

  datatype EventKind =
    | BenchmarkStarted
    | ScenarioStarted
    | PhaseStarted
    | PhaseProgress
    | PhaseCompleted
    | ScenarioCompleted
    | BenchmarkCompleted

  /** Scenario indices are one-based; zero stands for "no scenario yet". */
  datatype Event = Event(kind: EventKind, scenario: int, scenarioCount: int, phase: Phase, current: int, total: int)

  function OverallCompleted(e: Event, queriesPerPath: int): int {
    if queriesPerPath <= 0 || e.scenario <= 0 then 0
    else
      var completed := (e.scenario - 1) * 2 * queriesPerPath;
      match e.phase
      case DirectPhase => completed + e.current
      case ForwardedPhase => completed + queriesPerPath + e.current
      case _ => completed
  }

  function OverallTotal(e: Event, queriesPerPath: int): int {
    if queriesPerPath <= 0 || e.scenarioCount <= 0 then 0 else e.scenarioCount * 2 * queriesPerPath
  }

  // ---------- the event stream as a language ----------

  datatype Shape = Shape(scenarios: int, warmups: int, queries: int)
  {
    /** Phases of a scenario; they are numbered by how many are left, the running one included. */
    function PhaseCount(): nat {
      if warmups > 0 then 4 else 2
    }

    function Total(phase: Phase): int {
      if phase.WarmupDirect? || phase.WarmupForwarded? then warmups else queries
    }
  }

  function PhaseAt(left: nat): Phase {
    if left == 4 then WarmupDirect
    else if left == 3 then WarmupForwarded
    else if left == 2 then DirectPhase
    else if left == 1 then ForwardedPhase
    else NoPhase
  }

  /** What has been seen: `left` phases of the open scenario are not completed. */
  datatype Cursor =
    | NotStarted
    | Between(done: int)
    | Opened(scenario: int, left: nat)
    | Running(scenario: int, left: nat, last: int)
    | Ended

  function Advance(sh: Shape, c: Cursor, e: Event): Option<Cursor> {
    var n := sh.scenarios;
    match c
    case NotStarted =>
      if e == Event(BenchmarkStarted, 0, n, NoPhase, 0, sh.queries) then Some(Between(0)) else None
    case Between(done) =>
      if done < n && e == Event(ScenarioStarted, done + 1, n, NoPhase, 0, sh.queries) then
        Some(Opened(done + 1, sh.PhaseCount()))
      else if done == n && e == Event(BenchmarkCompleted, n, n, ForwardedPhase, sh.queries, sh.queries) then Some(Ended)
      else None
    case Opened(k, left) =>
      var phase := PhaseAt(left);
      if left > 0 && e == Event(PhaseStarted, k, n, phase, 0, sh.Total(phase)) then Some(Running(k, left, 0))
      else if left == 0 && e == Event(ScenarioCompleted, k, n, ForwardedPhase, sh.queries, sh.queries) then
        Some(Between(k))
      else None
    case Running(k, left, last) =>
      var phase, total := PhaseAt(left), sh.Total(PhaseAt(left));
      if left == 0 then None
      else if last < e.current <= total && e == Event(PhaseProgress, k, n, phase, e.current, total) then
        Some(Running(k, left, e.current))
      else if e == Event(PhaseCompleted, k, n, phase, total, total) then Some(Opened(k, left - 1))
      else None
    case Ended => None
  }

  /** Where a stream leads, or None when it leaves the language. */
  function Read(sh: Shape, c: Cursor, events: seq<Event>): Option<Cursor>
    decreases |events|
  {
    if events == [] then Some(c)
    else
      match Advance(sh, c, events[0])
      case None => None
      case Some(next) => Read(sh, next, events[1..])
  }

  lemma {:induction false} ReadAppend(sh: Shape, c: Cursor, a: seq<Event>, b: seq<Event>)
    requires Read(sh, c, a).Some?
    ensures Read(sh, c, a + b) == Read(sh, Read(sh, c, a).value, b)
    decreases |a|
  {
    if a == [] {
      assert a + b == b;
    } else {
      ReadAppend(sh, Advance(sh, c, a[0]).value, a[1..], b);
      assert (a + b)[1..] == a[1..] + b;
    }
  }

  // ---------- overall completion along the stream ----------

  predicate WellFormed(sh: Shape, c: Cursor) {
    match c
    case NotStarted => true
    case Between(done) => 0 <= done <= sh.scenarios
    case Opened(k, left) => 1 <= k <= sh.scenarios && left <= sh.PhaseCount()
    case Running(k, left, last) =>
      1 <= k <= sh.scenarios && 1 <= left <= sh.PhaseCount() && 0 <= last <= sh.Total(PhaseAt(left))
    case Ended => true
  }

  /** Measured queries completed within a scenario that has this many phases left. */
  function WithinScenario(sh: Shape, left: nat): int {
    if left == 0 then 2 * sh.queries else if left == 1 then sh.queries else 0
  }

  /** The overall completion that the last event showed. */
  function Level(sh: Shape, c: Cursor): int {
    match c
    case NotStarted => 0
    case Between(done) => done * 2 * sh.queries
    case Opened(k, left) => (k - 1) * 2 * sh.queries + WithinScenario(sh, left)
    case Running(k, left, last) => (k - 1) * 2 * sh.queries + WithinScenario(sh, left) + if left <= 2 then last else 0
    case Ended => sh.scenarios * 2 * sh.queries
  }

  lemma AdvanceLevel(sh: Shape, c: Cursor, e: Event)
    requires sh.queries > 0 && sh.scenarios >= 0 && WellFormed(sh, c) && Advance(sh, c, e).Some?
    ensures WellFormed(sh, Advance(sh, c, e).value)
    ensures Level(sh, c) <= OverallCompleted(e, sh.queries) == Level(sh, Advance(sh, c, e).value)
    ensures OverallTotal(e, sh.queries) == sh.scenarios * 2 * sh.queries
  {
    AdvanceShows(sh, c, e);
    AdvanceStays(sh, c, e);
    AdvanceNotDown(sh, c, Advance(sh, c, e).value, e);
  }

  lemma AdvanceStays(sh: Shape, c: Cursor, e: Event)
    requires sh.queries > 0 && sh.scenarios >= 0 && WellFormed(sh, c) && Advance(sh, c, e).Some?
    ensures WellFormed(sh, Advance(sh, c, e).value)
  {
  }

  lemma AdvanceShows(sh: Shape, c: Cursor, e: Event)
    requires sh.queries > 0 && sh.scenarios >= 0 && WellFormed(sh, c) && Advance(sh, c, e).Some?
    ensures OverallCompleted(e, sh.queries) == Level(sh, Advance(sh, c, e).value)
  {
    if c.Opened? {
      ScenarioQueries(c.scenario, sh.scenarios, sh.queries);
    }
  }

  lemma AdvanceNotDown(sh: Shape, c: Cursor, next: Cursor, e: Event)
    requires sh.queries > 0 && WellFormed(sh, c) && Advance(sh, c, e) == Some(next)
    ensures Level(sh, c) <= Level(sh, next)
  {
    if c.Opened? {
      ScenarioQueries(c.scenario, sh.scenarios, sh.queries);
    }
  }

  lemma ScenarioQueries(k: int, n: int, q: int)
    requires 1 <= k <= n && q > 0
    ensures k * 2 * q == (k - 1) * 2 * q + 2 * q
    ensures 0 <= (k - 1) * 2 * q && k * 2 * q <= n * 2 * q
  {
    assert (k - 1) * (2 * q) >= 0 && (n - k) * (2 * q) >= 0;
  }

  lemma WithinBounds(sh: Shape, left: nat, last: int)
    requires sh.queries > 0 && left <= sh.PhaseCount()
    requires left > 0 ==> 0 <= last <= sh.Total(PhaseAt(left))
    ensures 0 <= WithinScenario(sh, left) <= 2 * sh.queries
    ensures left > 0 ==> 0 <= WithinScenario(sh, left) + (if left <= 2 then last else 0) <= 2 * sh.queries
  {
  }

  lemma LevelBounds(k: int, n: int, q: int, within: int)
    requires 1 <= k <= n && 0 <= within <= 2 * q
    ensures 0 <= (k - 1) * 2 * q + within <= n * 2 * q
  {
    assert (k - 1) * (2 * q) >= 0 && (n - k) * (2 * q) >= 0;
  }

  lemma OpenedBelowTotal(sh: Shape, k: int, left: nat)
    requires sh.queries > 0 && WellFormed(sh, Opened(k, left))
    ensures 0 <= Level(sh, Opened(k, left)) <= sh.scenarios * 2 * sh.queries
  {
    WithinBounds(sh, left, 0);
    LevelBounds(k, sh.scenarios, sh.queries, WithinScenario(sh, left));
  }

  lemma RunningBelowTotal(sh: Shape, k: int, left: nat, last: int)
    requires sh.queries > 0 && WellFormed(sh, Running(k, left, last))
    ensures 0 <= Level(sh, Running(k, left, last)) <= sh.scenarios * 2 * sh.queries
  {
    var within := WithinScenario(sh, left) + if left <= 2 then last else 0;
    WithinBounds(sh, left, last);
    LevelBounds(k, sh.scenarios, sh.queries, within);
    assert Level(sh, Running(k, left, last)) == (k - 1) * 2 * sh.queries + within;
  }

  lemma LevelBelowTotal(sh: Shape, c: Cursor)
    requires sh.queries > 0 && sh.scenarios >= 0 && WellFormed(sh, c)
    ensures 0 <= Level(sh, c) <= sh.scenarios * 2 * sh.queries
  {
    match c {
      case Opened(k, left) => OpenedBelowTotal(sh, k, left);
      case Running(k, left, last) => RunningBelowTotal(sh, k, left, last);
      case Between(done) =>
        if done > 0 {
          LevelBounds(done, sh.scenarios, sh.queries, 2 * sh.queries);
        }
      case _ =>
    }
  }

  /**
   Along every stream of the language overall completion never falls and never exceeds the total, and it
   is the total when the benchmark has completed.
   */
  lemma {:induction false} CompletionRises(sh: Shape, c: Cursor, events: seq<Event>)
    requires sh.queries > 0 && sh.scenarios >= 0 && WellFormed(sh, c) && Read(sh, c, events).Some?
    ensures forall i :: 0 <= i < |events| ==>
                          Level(sh, c) <= OverallCompleted(events[i], sh.queries) <= OverallTotal(events[i], sh.queries)
    ensures forall i, j :: 0 <= i <= j < |events| ==>
                             OverallCompleted(events[i], sh.queries) <= OverallCompleted(events[j], sh.queries)
    ensures events != [] && Read(sh, c, events).value.Ended? ==>
              var last := events[|events| - 1];
              && last.kind.BenchmarkCompleted?
              && OverallCompleted(last, sh.queries) == OverallTotal(last, sh.queries) == sh.scenarios * 2 * sh.queries
    decreases |events|
  {
    if events != [] {
      var next := Advance(sh, c, events[0]).value;
      AdvanceLevel(sh, c, events[0]);
      LevelBelowTotal(sh, next);
      CompletionRises(sh, next, events[1..]);
    }
  }
}
