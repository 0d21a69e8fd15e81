/**
 The worker pool of Runner.RunPath as a transition system: one scheduler, the workers, the goroutine that
 closes the observations channel, the collector, and a context that may be cancelled at any moment.
 A job is handed over by a rendezvous on the unbuffered jobs channel; `scheduled` is incremented only
 after that, so a worker may already be executing, or be done with, a job that is not counted yet.
 */
module Pool {
  import opened Arithmetic
  import opened Requests
  import opened Runner
  import opened Wrappers

  datatype Config = Config(nameCount: int, queryCount: int, concurrency: int)
  {
    /** The part of PathConfig.Validate that the pool depends on. */
    predicate Valid() {
      nameCount > 0 && 1 <= concurrency <= queryCount
    }
  }

  /** The outcome is what the collector uses; the index says which query it belongs to, for the proofs. */
  datatype Observation = Observation(index: nat, outcome: Outcome)

  datatype SchedulerPc = Selecting | Adding | Returning | Stopped

  datatype Worker = Idle | Executing(index: nat) | Sending(observation: Observation) | Exited

  datatype CollectorPc = Collecting | Accounting(unscheduled: int) | Returned(ret: PathReturn)

  datatype State = State(
    ctx: Context,
    scheduler: SchedulerPc,
    next: nat,                    // the scheduler's queryIndex
    scheduled: nat,               // the atomic counter
    workers: seq<Worker>,
    buffer: seq<Observation>,     // contents of the observations channel
    closed: bool,                 // the observations channel is closed
    collector: CollectorPc,
    view: Collector,              // the collector's locals
    consumed: seq<Observation>,   // history: the observations received so far
    clock: seq<bool>)             // history: the answers of the one-second test

  datatype Action =
    | Cancel(reason: Context)
    | HandOff(worker: nat)
    | AddScheduled
    | StopScheduling
    | CloseJobs
    | FinishExchange(worker: nat, exchange: Exchange)
    | SendObservation(worker: nat)
    | ExitWorker(worker: nat)
    | CloseObservations
    | Receive(secondElapsed: bool)
    | LoadScheduled
    | Return

  function Init(c: Config): State
    requires c.Valid()
  {
    State(Live, Selecting, 0, 0, seq(c.concurrency, _ => Idle), [], false,
          Collecting, NewCollector(c.queryCount), [], [])
  }

  /** The select of the scheduler may still take the send branch after the context is done. */
  predicate Enabled(c: Config, s: State, a: Action) {
    match a
    case Cancel(reason) => s.ctx.Live? && !reason.Live?
    case HandOff(w) => s.scheduler.Selecting? && s.next < c.queryCount && w < |s.workers| && s.workers[w].Idle?
    case AddScheduled => s.scheduler.Adding?
    case StopScheduling => s.scheduler.Selecting? && (s.next >= c.queryCount || !s.ctx.Live?)
    case CloseJobs => s.scheduler.Returning?
    case FinishExchange(w, _) => w < |s.workers| && s.workers[w].Executing?
    case SendObservation(w) => w < |s.workers| && s.workers[w].Sending? && |s.buffer| < c.queryCount
    case ExitWorker(w) => w < |s.workers| && s.workers[w].Idle? && s.scheduler.Stopped?
    case CloseObservations => !s.closed && forall w :: 0 <= w < |s.workers| ==> s.workers[w].Exited?
    case Receive(_) => s.collector.Collecting? && s.buffer != []
    case LoadScheduled => s.collector.Collecting? && s.buffer == [] && s.closed
    case Return => s.collector.Accounting?
  }

  function Apply(c: Config, s: State, a: Action): State
    requires Enabled(c, s, a)
  {
    match a
    case Cancel(reason) => s.(ctx := reason)
    case HandOff(w) => s.(workers := s.workers[w := Executing(s.next)], scheduler := Adding)
    case AddScheduled => s.(scheduled := s.scheduled + 1, next := s.next + 1, scheduler := Selecting)
    case StopScheduling => s.(scheduler := Returning)
    case CloseJobs => s.(scheduler := Stopped)
    case FinishExchange(w, exchange) =>
      s.(workers := s.workers[w := Sending(Observation(s.workers[w].index, ExecuteQuery(exchange)))])
    case SendObservation(w) =>
      s.(buffer := s.buffer + [s.workers[w].observation], workers := s.workers[w := Idle])
    case ExitWorker(w) => s.(workers := s.workers[w := Exited])
    case CloseObservations => s.(closed := true)
    case Receive(secondElapsed) =>
      s.(buffer := s.buffer[1..], consumed := s.consumed + [s.buffer[0]], clock := s.clock + [secondElapsed],
         view := CollectOne(s.view, c.queryCount, s.buffer[0].outcome, secondElapsed))
    case LoadScheduled => s.(collector := Accounting(c.queryCount - s.scheduled))
    case Return => s.(collector := Returned(Finish(s.view, s.collector.unscheduled, s.ctx)))
  }

  /** The state after a run, or None when the run takes a step that is not enabled. */
  function Execute(c: Config, s: State, run: seq<Action>): Option<State>
    decreases |run|
  {
    if run == [] then Some(s)
    else if Enabled(c, s, run[0]) then Execute(c, Apply(c, s, run[0]), run[1..])
    else None
  }

  function Play(c: Config, run: seq<Action>): Option<State>
    requires c.Valid()
  {
    Execute(c, Init(c), run)
  }

  // ---------- where the queries are ----------

  predicate Holds(w: Worker, index: nat) {
    (w.Executing? && w.index == index) || (w.Sending? && w.observation.index == index)
  }

  predicate Busy(w: Worker) {
    w.Executing? || w.Sending?
  }

  /** How many workers hold the query. */
  function InFlight(workers: seq<Worker>, index: nat): nat {
    if workers == [] then 0 else (if Holds(workers[0], index) then 1 else 0) + InFlight(workers[1..], index)
  }

  function BusyCount(workers: seq<Worker>): nat {
    if workers == [] then 0 else (if Busy(workers[0]) then 1 else 0) + BusyCount(workers[1..])
  }

  /** How many of the observations are of the query. */
  function Observed(observations: seq<Observation>, index: nat): nat {
    if observations == [] then 0
    else
      var n := |observations| - 1;
      Observed(observations[..n], index) + if observations[n].index == index then 1 else 0
  }

  function Handed(s: State): nat {
    s.next + if s.scheduler.Adding? then 1 else 0
  }

  function Outcomes(observations: seq<Observation>): seq<Outcome> {
    seq(|observations|, i requires 0 <= i < |observations| => observations[i].outcome)
  }

  ghost predicate Inv(c: Config, s: State) {
    Control(c, s) && Places(s) && Books(c, s)
  }

  /** Who has stopped before whom, and why. */
  ghost predicate Control(c: Config, s: State) {
    && |s.workers| == c.concurrency
    && s.scheduled == s.next
    && Handed(s) <= c.queryCount
    && (s.scheduler.Returning? || s.scheduler.Stopped? ==> s.next == c.queryCount || !s.ctx.Live?)
    && (forall w :: 0 <= w < |s.workers| && s.workers[w].Exited? ==> s.scheduler.Stopped?)
    && (s.closed ==> forall w :: 0 <= w < |s.workers| ==> s.workers[w].Exited?)
    && (!s.collector.Collecting? ==> s.closed && s.buffer == [])
  }

  /** Every query handed out so far is in exactly one place: at a worker, in the channel, or consumed. */
  ghost predicate Places(s: State) {
    && (forall index: nat ::
          InFlight(s.workers, index) + Observed(s.consumed + s.buffer, index) == if index < Handed(s) then 1 else 0)
    && BusyCount(s.workers) + |s.consumed| + |s.buffer| == Handed(s)
  }

  /** The collector has processed what it consumed, and accounts with the number of consumed queries. */
  ghost predicate Books(c: Config, s: State) {
    && |s.clock| == |s.consumed|
    && s.view == CollectAll(c.queryCount, Outcomes(s.consumed), s.clock)
    && (s.collector.Accounting? ==> s.collector.unscheduled == c.queryCount - s.scheduled)
    && (s.collector.Returned? ==> s.collector.ret == Finish(s.view, c.queryCount - s.scheduled, s.ctx))
  }

  lemma {:induction false} InFlightUpdate(workers: seq<Worker>, w: nat, to: Worker, index: nat)
    requires w < |workers|
    ensures InFlight(workers[w := to], index) + (if Holds(workers[w], index) then 1 else 0)
            == InFlight(workers, index) + if Holds(to, index) then 1 else 0
  {
    if w == 0 {
      assert workers[w := to][1..] == workers[1..];
    } else {
      InFlightUpdate(workers[1..], w - 1, to, index);
      assert workers[w := to][1..] == workers[1..][w - 1 := to];
    }
  }

  lemma {:induction false} BusyUpdate(workers: seq<Worker>, w: nat, to: Worker)
    requires w < |workers|
    ensures BusyCount(workers[w := to]) + (if Busy(workers[w]) then 1 else 0)
            == BusyCount(workers) + if Busy(to) then 1 else 0
    ensures Busy(workers[w]) ==> BusyCount(workers) > 0
  {
    if w == 0 {
      assert workers[w := to][1..] == workers[1..];
    } else {
      BusyUpdate(workers[1..], w - 1, to);
      assert workers[w := to][1..] == workers[1..][w - 1 := to];
    }
  }

  lemma {:induction false} NoneInFlight(workers: seq<Worker>, index: nat)
    requires forall w :: 0 <= w < |workers| ==> !Busy(workers[w])
    ensures InFlight(workers, index) == 0 && BusyCount(workers) == 0
  {
    if workers != [] {
      NoneInFlight(workers[1..], index);
    }
  }

  lemma ObservedAppend(observations: seq<Observation>, o: Observation, index: nat)
    ensures Observed(observations + [o], index) == Observed(observations, index) + if o.index == index then 1 else 0
  {
    assert (observations + [o])[..|observations|] == observations;
  }

  lemma OutcomesAppend(observations: seq<Observation>, o: Observation, clock: seq<bool>, b: bool, queryCount: int)
    requires |clock| == |observations|
    ensures CollectAll(queryCount, Outcomes(observations + [o]), clock + [b])
            == CollectOne(CollectAll(queryCount, Outcomes(observations), clock), queryCount, o.outcome, b)
  {
    var n := |observations|;
    assert Outcomes(observations + [o])[..n] == Outcomes(observations);
    assert (clock + [b])[..n] == clock;
  }

  lemma InitInv(c: Config)
    requires c.Valid()
    ensures Inv(c, Init(c))
  {
    NoneInFlight(Init(c).workers, 0);
    forall index: nat ensures InFlight(Init(c).workers, index) == 0 {
      NoneInFlight(Init(c).workers, index);
    }
  }

  lemma StepControl(c: Config, s: State, a: Action)
    requires c.Valid() && Control(c, s) && Enabled(c, s, a)
    ensures Control(c, Apply(c, s, a))
  {
  }

  /** Steps that change what one worker holds. */
  predicate AtWorker(a: Action) {
    a.HandOff? || a.FinishExchange? || a.ExitWorker?
  }

  lemma StepPlaces(c: Config, s: State, a: Action)
    requires Places(s) && Enabled(c, s, a)
    ensures Places(Apply(c, s, a))
  {
    var s' := Apply(c, s, a);
    if AtWorker(a) {
      WorkerPlaces(s, s', a.worker);
    } else if a.SendObservation? {
      SendPlaces(s, s', a.worker);
    } else {
      OtherSteps(c, s, a);
      SamePlaces(s, s');
    }
  }

  lemma OtherSteps(c: Config, s: State, a: Action)
    requires Enabled(c, s, a) && !AtWorker(a) && !a.SendObservation?
    ensures var s' := Apply(c, s, a);
            s'.workers == s.workers && s'.consumed + s'.buffer == s.consumed + s.buffer
            && |s'.consumed| + |s'.buffer| == |s.consumed| + |s.buffer| && Handed(s') == Handed(s)
  {
    if a.Receive? {
      assert s.consumed + s.buffer == s.consumed + [s.buffer[0]] + s.buffer[1..];
    }
  }

  lemma SamePlaces(s: State, s': State)
    requires Places(s)
    requires s'.workers == s.workers && s'.consumed + s'.buffer == s.consumed + s.buffer
    requires |s'.consumed| + |s'.buffer| == |s.consumed| + |s.buffer| && Handed(s') == Handed(s)
    ensures Places(s')
  {
    forall index: nat
      ensures InFlight(s'.workers, index) + Observed(s'.consumed + s'.buffer, index) == if index < Handed(s') then 1 else 0
    {
      assert InFlight(s.workers, index) + Observed(s.consumed + s.buffer, index) == if index < Handed(s) then 1 else 0;
    }
  }

  lemma WorkerPlaces(s: State, s': State, w: nat)
    requires Places(s) && w < |s.workers| == |s'.workers|
    requires s' == s.(workers := s.workers[w := s'.workers[w]], scheduler := s'.scheduler)
    requires forall index: nat ::
               (if Holds(s'.workers[w], index) then 1 else 0) - (if Holds(s.workers[w], index) then 1 else 0)
               == (if index < Handed(s') then 1 else 0) - (if index < Handed(s) then 1 else 0)
    requires (if Busy(s'.workers[w]) then 1 else 0) - (if Busy(s.workers[w]) then 1 else 0) == Handed(s') - Handed(s)
    ensures Places(s')
  {
    BusyUpdate(s.workers, w, s'.workers[w]);
    forall index: nat
      ensures InFlight(s'.workers, index) + Observed(s'.consumed + s'.buffer, index) == if index < Handed(s') then 1 else 0
    {
      InFlightUpdate(s.workers, w, s'.workers[w], index);
    }
  }

  lemma SendPlaces(s: State, s': State, w: nat)
    requires Places(s) && w < |s.workers| && s.workers[w].Sending?
    requires s' == s.(buffer := s.buffer + [s.workers[w].observation], workers := s.workers[w := Idle])
    ensures Places(s')
  {
    var o := s.workers[w].observation;
    assert s'.consumed + s'.buffer == (s.consumed + s.buffer) + [o];
    BusyUpdate(s.workers, w, Idle);
    forall index: nat
      ensures InFlight(s'.workers, index) + Observed(s'.consumed + s'.buffer, index) == if index < Handed(s') then 1 else 0
    {
      InFlightUpdate(s.workers, w, Idle, index);
      ObservedAppend(s.consumed + s.buffer, o, index);
    }
  }

  lemma StepBooks(c: Config, s: State, a: Action)
    requires c.Valid() && Control(c, s) && Books(c, s) && Enabled(c, s, a)
    ensures Books(c, Apply(c, s, a))
  {
    match a {
      case Receive(secondElapsed) => ReceiveBooks(c, s, secondElapsed);
      case Cancel(reason) => CancelBooks(c, s, reason);
      case _ =>
        ClosedAfterScheduling(c, s);
        OtherBooks(c, s, a);
    }
  }

  lemma OtherBooks(c: Config, s: State, a: Action)
    requires Books(c, s) && Enabled(c, s, a) && !a.Receive? && !a.Cancel?
    requires !s.collector.Collecting? ==> s.scheduler.Stopped?
    ensures Books(c, Apply(c, s, a))
  {
    if !a.LoadScheduled? && !a.Return? {
      SameBooks(c, s, Apply(c, s, a));
    }
  }

  lemma SameBooks(c: Config, s: State, s': State)
    requires Books(c, s)
    requires s'.consumed == s.consumed && s'.clock == s.clock && s'.view == s.view
    requires s'.collector == s.collector && s'.ctx == s.ctx && (!s.collector.Collecting? ==> s'.scheduled == s.scheduled)
    ensures Books(c, s')
  {
  }

  lemma ReceiveBooks(c: Config, s: State, secondElapsed: bool)
    requires Books(c, s) && Enabled(c, s, Receive(secondElapsed))
    ensures Books(c, Apply(c, s, Receive(secondElapsed)))
  {
    OutcomesAppend(s.consumed, s.buffer[0], s.clock, secondElapsed, c.queryCount);
  }

  lemma CancelBooks(c: Config, s: State, reason: Context)
    requires c.Valid() && Control(c, s) && Books(c, s) && Enabled(c, s, Cancel(reason))
    ensures Books(c, Apply(c, s, Cancel(reason)))
  {
    if s.collector.Returned? {
      CancelHarmless(c, s, reason);
    }
  }

  lemma ClosedAfterScheduling(c: Config, s: State)
    requires c.Valid() && Control(c, s)
    ensures s.closed ==> s.scheduler.Stopped?
  {
    if s.closed {
      assert s.workers[0].Exited?;
    }
  }

  lemma StepInv(c: Config, s: State, a: Action)
    requires c.Valid() && Inv(c, s) && Enabled(c, s, a)
    ensures Inv(c, Apply(c, s, a))
  {
    StepControl(c, s, a);
    StepPlaces(c, s, a);
    StepBooks(c, s, a);
  }

  /** A cancellation that comes after the path has returned cannot change what was returned. */
  lemma CancelHarmless(c: Config, s: State, reason: Context)
    requires c.Valid() && Control(c, s) && s.ctx.Live? && s.collector.Returned?
    ensures Finish(s.view, c.queryCount - s.scheduled, s.ctx) == Finish(s.view, c.queryCount - s.scheduled, reason)
  {
    assert s.workers[0].Exited?;
  }

  lemma {:induction false} ExecuteInv(c: Config, s: State, run: seq<Action>)
    requires c.Valid() && Inv(c, s)
    ensures Execute(c, s, run).Some? ==> Inv(c, Execute(c, s, run).value)
    decreases |run|
  {
    if run != [] && Enabled(c, s, run[0]) {
      StepInv(c, s, run[0]);
      ExecuteInv(c, Apply(c, s, run[0]), run[1..]);
    }
  }

  lemma PlayInv(c: Config, run: seq<Action>)
    requires c.Valid() && Play(c, run).Some?
    ensures Inv(c, Play(c, run).value)
  {
    InitInv(c);
    ExecuteInv(c, Init(c), run);
  }

  // ---------- exactness of the accounting ----------

  /** What holds once the collector has left its loop, for every interleaving and every cancellation. */
  lemma ScheduledIsExact(c: Config, run: seq<Action>)
    requires c.Valid() && Play(c, run).Some? && !Play(c, run).value.collector.Collecting?
    ensures var s := Play(c, run).value;
            && s.scheduled == |s.consumed| <= c.queryCount
            && (forall index: nat :: Observed(s.consumed, index) == if index < s.scheduled then 1 else 0)
            && (s.scheduled < c.queryCount ==> !s.ctx.Live?)
            && s.scheduler.Stopped? && s.closed && s.buffer == []
            && (forall w :: 0 <= w < |s.workers| ==> s.workers[w].Exited?)
  {
    var s := Play(c, run).value;
    PlayInv(c, run);
    ClosedAfterScheduling(c, s);
    assert s.consumed + s.buffer == s.consumed;
    NoneInFlight(s.workers, 0);
    forall index: nat ensures Observed(s.consumed, index) == if index < s.scheduled then 1 else 0 {
      NoneInFlight(s.workers, index);
    }
  }

  /**
   The result of a finished run. The outcome classes are those of the queries that were executed, the
   missing queries are charged to the context error, and the fallback class for missing queries is never used.
   */
  lemma ReturnedResult(c: Config, run: seq<Action>)
    requires c.Valid() && Play(c, run).Some? && Play(c, run).value.collector.Returned?
    ensures var s := Play(c, run).value;
            && Accounted(s.collector.ret, c.queryCount, Outcomes(s.consumed), s.ctx)
            && (s.collector.ret.result.Ok? ==>
                  s.collector.ret.result.value.failures.other == CountFailures(Outcomes(s.consumed), Other))
  {
    var s := Play(c, run).value;
    ReturnIsAccounted(c, run);
    if s.collector.ret.result.Ok? {
      MissingQueries(s.collector.ret, c.queryCount, Outcomes(s.consumed), s.ctx);
    }
  }

  /**
   The classes of a finished run in numbers: a query that was never handed out is an internal failure if the context
   was cancelled and a timeout if its deadline passed; it is never anything else, and without either none is missing.
   */
  lemma MissingQueriesOfRun(c: Config, run: seq<Action>)
    requires c.Valid() && Play(c, run).Some? && Play(c, run).value.collector.Returned?
    requires Play(c, run).value.collector.ret.result.Ok?
    ensures var s := Play(c, run).value;
            var outcomes, result := Outcomes(s.consumed), s.collector.ret.result.value;
            var missing := c.queryCount - |s.consumed|;
            && (s.ctx.Live? ==> missing == 0)
            && (s.ctx.Canceled? ==>
                  && result.failures.internal == CountFailures(outcomes, Internal) + missing
                  && result.requests.timeouts == result.failures.timeout == CountFailures(outcomes, Timeout))
            && (s.ctx.DeadlineExceeded? ==>
                  && result.failures.internal == CountFailures(outcomes, Internal)
                  && result.requests.timeouts == result.failures.timeout == CountFailures(outcomes, Timeout) + missing)
            && result.failures.network == CountFailures(outcomes, Network)
            && result.failures.dnsResponse == CountFailures(outcomes, DnsResponse)
            && result.failures.invalidResponse == CountFailures(outcomes, InvalidResponse)
            && result.failures.other == CountFailures(outcomes, Other)
  {
    var s := Play(c, run).value;
    ReturnIsAccounted(c, run);
    MissingQueries(s.collector.ret, c.queryCount, Outcomes(s.consumed), s.ctx);
  }

  lemma ReturnIsAccounted(c: Config, run: seq<Action>)
    requires c.Valid() && Play(c, run).Some? && Play(c, run).value.collector.Returned?
    ensures var s := Play(c, run).value;
            var outcomes := Outcomes(s.consumed);
            && Accounted(s.collector.ret, c.queryCount, outcomes, s.ctx)
            && |outcomes| <= c.queryCount && (|outcomes| < c.queryCount ==> !s.ctx.Live?)
  {
    var s := Play(c, run).value;
    var outcomes := Outcomes(s.consumed);
    ReturnIsFinish(c, run);
    ScheduledIsConsumed(c, run);
    CollectedIsAccounted(s.collector.ret, c.queryCount, outcomes, s.clock, s.ctx);
  }

  lemma ScheduledIsConsumed(c: Config, run: seq<Action>)
    requires c.Valid() && Play(c, run).Some? && !Play(c, run).value.collector.Collecting?
    ensures var s := Play(c, run).value;
            |s.consumed| == s.scheduled <= c.queryCount && (s.scheduled < c.queryCount ==> !s.ctx.Live?)
  {
    ScheduledIsExact(c, run);
  }

  lemma ReturnIsFinish(c: Config, run: seq<Action>)
    requires c.Valid() && Play(c, run).Some? && Play(c, run).value.collector.Returned?
    ensures var s := Play(c, run).value;
            && s.collector.ret == Finish(s.view, c.queryCount - s.scheduled, s.ctx)
            && |s.clock| == |s.consumed|
            && s.view == CollectAll(c.queryCount, Outcomes(s.consumed), s.clock)
  {
    PlayInv(c, run);
  }

  /** The Current values sent in phase-progress events of a run. */
  lemma ProgressOfRun(c: Config, run: seq<Action>)
    requires c.Valid() && Play(c, run).Some?
    ensures var s := Play(c, run).value;
            && Reports(s.view.reported, |s.consumed|, c.queryCount) && |s.clock| == |s.consumed|
            && forall k :: k in s.view.reported <==>
                 1 <= k <= |s.consumed| && (k == 1 || k >= c.queryCount || s.clock[k - 1])
  {
    var s := Play(c, run).value;
    PlayInv(c, run);
    CollectAllReports(c.queryCount, Outcomes(s.consumed), s.clock);
    forall k
      ensures k in s.view.reported <==> 1 <= k <= |s.consumed| && (k == 1 || k >= c.queryCount || s.clock[k - 1])
    {
      ReportedExactly(c.queryCount, Outcomes(s.consumed), s.clock, k);
    }
  }

  // ---------- cancellation at once ----------

  /** One more step of a run. */
  lemma Extend(c: Config, run: seq<Action>, s: State, a: Action) returns (run': seq<Action>, s': State)
    requires c.Valid() && Play(c, run) == Some(s) && Enabled(c, s, a)
    ensures run' == run + [a] && s' == Apply(c, s, a) && Play(c, run') == Some(s')
  {
    run', s' := run + [a], Apply(c, s, a);
    ExecuteAppend(c, Init(c), run, a);
  }

  lemma {:induction false} ExecuteAppend(c: Config, s: State, run: seq<Action>, a: Action)
    requires Execute(c, s, run).Some? && Enabled(c, Execute(c, s, run).value, a)
    ensures Execute(c, s, run + [a]) == Some(Apply(c, Execute(c, s, run).value, a))
    decreases |run|
  {
    if run == [] {
      assert run + [a] == [a] && [a][1..] == [];
    } else {
      ExecuteAppend(c, Apply(c, s, run[0]), run[1..], a);
      assert (run + [a])[1..] == run[1..] + [a];
    }
  }

  /** All workers from w on leave. */
  lemma {:induction false} AllLeave(c: Config, run: seq<Action>, s: State, w: nat)
    returns (run': seq<Action>, s': State)
    requires c.Valid() && Play(c, run) == Some(s) && s.scheduler.Stopped? && w <= |s.workers|
    requires forall i :: 0 <= i < |s.workers| ==> s.workers[i] == if i < w then Exited else Idle
    ensures Play(c, run') == Some(s') && s' == s.(workers := s'.workers) && |s'.workers| == |s.workers|
    ensures forall i :: 0 <= i < |s'.workers| ==> s'.workers[i].Exited?
    decreases |s.workers| - w
  {
    run', s' := run, s;
    if w < |s.workers| {
      run', s' := Extend(c, run, s, ExitWorker(w));
      run', s' := AllLeave(c, run', s', w + 1);
    }
  }

  /** A context that ends before the first query is handed out: the path still returns, and no query was executed. */
  lemma EndedAtOnce(c: Config, reason: Context) returns (run: seq<Action>)
    requires c.Valid() && !reason.Live?
    ensures Play(c, run).Some? && Play(c, run).value.collector.Returned? && Play(c, run).value.ctx == reason
    ensures Play(c, run).value.consumed == []
  {
    var s;
    assert Play(c, []) == Some(Init(c));
    run, s := Extend(c, [], Init(c), Cancel(reason));
    run, s := Extend(c, run, s, StopScheduling);
    run, s := Extend(c, run, s, CloseJobs);
    run, s := AllLeave(c, run, s, 0);
    run, s := Extend(c, run, s, CloseObservations);
    run, s := Extend(c, run, s, LoadScheduled);
    run, s := Extend(c, run, s, Return);
  }

  // ---------- channels ----------

  /** No worker ever sends on a closed channel or waits for space in it. */
  lemma SendNeverBlocks(c: Config, run: seq<Action>, w: nat)
    requires c.Valid() && Play(c, run).Some?
    requires w < |Play(c, run).value.workers| && Play(c, run).value.workers[w].Sending?
    ensures !Play(c, run).value.closed && Enabled(c, Play(c, run).value, SendObservation(w))
  {
    var s := Play(c, run).value;
    PlayInv(c, run);
    BusyUpdate(s.workers, w, Idle);
  }

  // ---------- progress ----------

  function SchedulerWork(pc: SchedulerPc): nat {
    match pc
    case Selecting => 2
    case Adding => 3
    case Returning => 1
    case Stopped => 0
  }

  function WorkerWork(w: Worker): nat {
    match w
    case Idle => 1
    case Executing(_) => 4
    case Sending(_) => 3
    case Exited => 0
  }

  function WorkersWork(workers: seq<Worker>): nat {
    if workers == [] then 0 else WorkerWork(workers[0]) + WorkersWork(workers[1..])
  }

  /** The number of steps that are left if every remaining query is still scheduled. */
  function Work(c: Config, s: State): int {
    5 * (c.queryCount - Handed(s)) + SchedulerWork(s.scheduler) + WorkersWork(s.workers) + |s.buffer|
    + (if s.closed then 0 else 1) + (if s.ctx.Live? then 1 else 0)
    + match s.collector case Collecting => 2 case Accounting(_) => 1 case Returned(_) => 0
  }

  lemma {:induction false} WorkersWorkUpdate(workers: seq<Worker>, w: nat, to: Worker)
    requires w < |workers|
    ensures WorkersWork(workers[w := to]) + WorkerWork(workers[w]) == WorkersWork(workers) + WorkerWork(to)
  {
    if w == 0 {
      assert workers[w := to][1..] == workers[1..];
    } else {
      WorkersWorkUpdate(workers[1..], w - 1, to);
      assert workers[w := to][1..] == workers[1..][w - 1 := to];
    }
  }

  lemma {:induction false} AllIdleWork(workers: seq<Worker>)
    requires forall w :: 0 <= w < |workers| ==> workers[w].Idle?
    ensures WorkersWork(workers) == |workers|
  {
    if workers != [] {
      AllIdleWork(workers[1..]);
    }
  }

  /** Every step, cancellation included, takes exactly one unit of the remaining work. */
  lemma StepTakesOneUnit(c: Config, s: State, a: Action)
    requires Enabled(c, s, a)
    ensures Work(c, Apply(c, s, a)) == Work(c, s) - 1
  {
    if AtWorker(a) || a.SendObservation? {
      WorkerTakesOneUnit(c, s, a);
    } else {
      assert Apply(c, s, a).workers == s.workers;
    }
  }

  lemma WorkerTakesOneUnit(c: Config, s: State, a: Action)
    requires Enabled(c, s, a) && (AtWorker(a) || a.SendObservation?)
    ensures Work(c, Apply(c, s, a)) == Work(c, s) - 1
  {
    var s' := Apply(c, s, a);
    WorkersWorkUpdate(s.workers, a.worker, s'.workers[a.worker]);
    assert s'.workers == s.workers[a.worker := s'.workers[a.worker]];
  }

  lemma {:induction false} ExecuteTakes(c: Config, s: State, run: seq<Action>)
    ensures Execute(c, s, run).Some? ==> Work(c, Execute(c, s, run).value) == Work(c, s) - |run|
    decreases |run|
  {
    if run != [] && Enabled(c, s, run[0]) {
      StepTakesOneUnit(c, s, run[0]);
      ExecuteTakes(c, Apply(c, s, run[0]), run[1..]);
    }
  }

  lemma {:induction false} AllExitedWork(workers: seq<Worker>)
    requires forall w :: 0 <= w < |workers| ==> workers[w].Exited?
    ensures WorkersWork(workers) == 0
  {
    if workers != [] {
      AllExitedWork(workers[1..]);
    }
  }

  /**
   Runs are bounded, and the length of a finished run is known exactly: five steps for each scheduled
   query, one for each worker, five to shut the pool down, and one if the context was cancelled.
   */
  lemma RunLength(c: Config, run: seq<Action>)
    requires c.Valid() && Play(c, run).Some?
    ensures |run| <= 5 * c.queryCount + c.concurrency + 6
    ensures var s := Play(c, run).value;
            s.collector.Returned? ==>
              |run| == 5 * s.scheduled + c.concurrency + 5 + if s.ctx.Live? then 0 else 1
  {
    var s := Play(c, run).value;
    assert Work(c, Init(c)) == 5 * c.queryCount + c.concurrency + 6 by { AllIdleWork(Init(c).workers); }
    assert Work(c, s) == Work(c, Init(c)) - |run| by { ExecuteTakes(c, Init(c), run); }
    assert Handed(s) <= c.queryCount by { PlayInv(c, run); }
    if s.collector.Returned? {
      FinishedWork(c, run);
    }
  }

  lemma FinishedWork(c: Config, run: seq<Action>)
    requires c.Valid() && Play(c, run).Some? && Play(c, run).value.collector.Returned?
    ensures var s := Play(c, run).value;
            Work(c, s) == 5 * (c.queryCount - s.scheduled) + if s.ctx.Live? then 1 else 0
  {
    var s := Play(c, run).value;
    assert s.scheduled == s.next by { PlayInv(c, run); }
    ScheduledIsExact(c, run);
    AllExitedWork(s.workers);
  }

  /** Until the path returns, some step other than a cancellation is enabled. */
  lemma NeverStuck(c: Config, run: seq<Action>) returns (next: Action)
    requires c.Valid() && Play(c, run).Some? && !Play(c, run).value.collector.Returned?
    ensures Enabled(c, Play(c, run).value, next) && !next.Cancel?
  {
    var s := Play(c, run).value;
    PlayInv(c, run);
    if s.collector.Accounting? {
      next := Return;
    } else if s.buffer != [] {
      next := Receive(false);
    } else if s.closed {
      next := LoadScheduled;
    } else if s.scheduler.Adding? {
      next := AddScheduled;
    } else if s.scheduler.Returning? {
      next := CloseJobs;
    } else if w :| 0 <= w < |s.workers| && s.workers[w].Executing? {
      next := FinishExchange(w, NoResponse);
    } else if w :| 0 <= w < |s.workers| && s.workers[w].Sending? {
      next := SendObservation(w);
    } else if s.scheduler.Selecting? {
      assert s.workers[0].Idle?;
      next := if s.next < c.queryCount then HandOff(0) else StopScheduling;
    } else if w :| 0 <= w < |s.workers| && s.workers[w].Idle? {
      next := ExitWorker(w);
    } else {
      next := CloseObservations;
    }
  }

  // ---------- fairness between query names ----------

  /** How many of the observed queries asked for the name at the given position of QueryNames. */
  function Asked(observations: seq<Observation>, nameCount: nat, position: nat): nat
    requires nameCount > 0
  {
    if observations == [] then 0
    else
      var n := |observations| - 1;
      Asked(observations[..n], nameCount, position) + if observations[n].index % nameCount == position then 1 else 0
  }

  /** The share of a position among the queries 0, ..., n - 1. */
  function Share(n: nat, nameCount: nat, position: nat): nat
    requires nameCount > 0
  {
    if n == 0 then 0
    else Share(n - 1, nameCount, position) + if (n - 1) % nameCount == position then 1 else 0
  }

  lemma NextShare(n: nat, q: nat, r: nat, nameCount: nat, position: nat)
    requires r < nameCount && n == q * nameCount + r + 1
    ensures Share(n, nameCount, position)
         == Share(q * nameCount + r, nameCount, position) + if r == position then 1 else 0
  {
    Remainder(q, r, nameCount);
  }

  lemma {:induction false} ShareClosedForm(q: nat, r: nat, nameCount: nat, position: nat)
    requires r < nameCount && position < nameCount
    ensures Share(q * nameCount + r, nameCount, position) == q + if position < r then 1 else 0
    decreases q, r
  {
    var n := q * nameCount + r;
    if r > 0 {
      ShareClosedForm(q, r - 1, nameCount, position);
      NextShare(n, q, r - 1, nameCount, position);
    } else if q > 0 {
      assert n - 1 == (q - 1) * nameCount + (nameCount - 1);
      ShareClosedForm(q - 1, nameCount - 1, nameCount, position);
      NextShare(n, q - 1, nameCount - 1, nameCount, position);
    }
  }

  lemma ShareOf(n: nat, nameCount: nat, position: nat)
    requires position < nameCount
    ensures Share(n, nameCount, position) == n / nameCount + if position < n % nameCount then 1 else 0
  {
    DivMod(n, nameCount);
    ShareClosedForm(n / nameCount, n % nameCount, nameCount, position);
  }

  lemma {:induction false} FindObserved(observations: seq<Observation>, index: nat) returns (i: nat)
    requires Observed(observations, index) > 0
    ensures i < |observations| && observations[i].index == index
  {
    var n := |observations| - 1;
    if observations[n].index == index {
      i := n;
    } else {
      i := FindObserved(observations[..n], index);
    }
  }

  ghost function Without(observations: seq<Observation>, i: nat): seq<Observation>
    requires i < |observations|
  {
    observations[..i] + observations[i + 1..]
  }

  lemma {:induction false} WithoutCounts(observations: seq<Observation>, i: nat, nameCount: nat, position: nat, index: nat)
    requires i < |observations| && nameCount > 0
    ensures Asked(observations, nameCount, position) == Asked(Without(observations, i), nameCount, position)
            + if observations[i].index % nameCount == position then 1 else 0
    ensures Observed(observations, index) == Observed(Without(observations, i), index)
            + if observations[i].index == index then 1 else 0
  {
    var n := |observations| - 1;
    var rest := Without(observations, i);
    if i < n {
      WithoutCounts(observations[..n], i, nameCount, position, index);
      assert rest[..n - 1] == Without(observations[..n], i);
      assert rest[n - 1] == observations[n];
    } else {
      assert rest == observations[..n];
    }
  }

  lemma {:induction false} AskedIsShare(observations: seq<Observation>, n: nat, nameCount: nat, position: nat)
    requires nameCount > 0 && |observations| == n
    requires forall index: nat :: Observed(observations, index) == if index < n then 1 else 0
    ensures Asked(observations, nameCount, position) == Share(n, nameCount, position)
    decreases n
  {
    if n > 0 {
      var i := FindObserved(observations, n - 1);
      WithoutCounts(observations, i, nameCount, position, n - 1);
      forall index: nat ensures Observed(Without(observations, i), index) == if index < n - 1 then 1 else 0 {
        WithoutCounts(observations, i, nameCount, position, index);
      }
      AskedIsShare(Without(observations, i), n - 1, nameCount, position);
    }
  }

  /** Even after a cancellation no name was asked for more than once more often than another. */
  lemma NamesBalanced(c: Config, run: seq<Action>, p: nat, q: nat)
    requires c.Valid() && Play(c, run).Some? && !Play(c, run).value.collector.Collecting?
    requires p < c.nameCount && q < c.nameCount
    ensures var s := Play(c, run).value;
            && Asked(s.consumed, c.nameCount, p)
               == s.scheduled / c.nameCount + (if p < s.scheduled % c.nameCount then 1 else 0)
            && Asked(s.consumed, c.nameCount, p) <= Asked(s.consumed, c.nameCount, q) + 1
  {
    var s := Play(c, run).value;
    var k, n := c.nameCount, s.scheduled;
    ScheduledIsExact(c, run);
    AskedIsShare(s.consumed, n, k, p);
    AskedIsShare(s.consumed, n, k, q);
    ShareOf(n, k, p);
    ShareOf(n, k, q);
  }
}
