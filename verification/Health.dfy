/**
 The lifecycle of the health server under any number of overlapping Start and Shutdown calls.
 A generation is one http.Server together with its listener; it is named by the index of the goroutine
 that serves it, so two generations never share a name, as two allocated servers never share an address.
 */
module Health {
  import opened Wrappers

  type Generation = nat

  /** The fields that the mutex guards. */
  datatype Fields = Fields(server: Option<Generation>, listener: Option<Generation>, ready: bool)

  datatype StartResult = Started | AlreadyRunning | BindFailed

  // ---------- the critical sections ----------

  function StartSection(f: Fields, binds: bool, g: Generation): (Fields, StartResult) {
    if f.server.Some? || f.listener.Some? || f.ready then (f, AlreadyRunning)
    else if !binds then (f, BindFailed)
    else (Fields(Some(g), Some(g), true), Started)
  }

  /** Returns the captured server; there is nothing more to do when there is none. */
  function ShutdownSection(f: Fields): (Fields, Option<Generation>) {
    if f.server.None? then (f.(ready := false, listener := None), None) else (f.(ready := false), f.server)
  }

  function ReleaseSection(f: Fields, captured: Generation): Fields {
    if f.server == Some(captured) then f.(server := None, listener := None) else f
  }

  function CleanUpSection(f: Fields, served: Generation): Fields {
    if f.server == Some(served) then Fields(None, None, false) else f
  }

  class Server {
    var httpServer: Option<Generation>
    var listener: Option<Generation>
    var ready: bool

    constructor ()
      ensures View() == Fields(None, None, false)
    {
      httpServer, listener, ready := None, None, false;
    }

    function View(): Fields
      reads this
    {
      Fields(httpServer, listener, ready)
    }

    method Start(binds: bool, generation: Generation) returns (result: StartResult)
      modifies this
      ensures (View(), result) == StartSection(old(View()), binds, generation)
    {
      if httpServer.Some? || listener.Some? || ready {
        return AlreadyRunning;
      }
      if !binds {
        return BindFailed;
      }
      listener := Some(generation);
      httpServer := Some(generation);
      ready := true;
      result := Started;
    }

    method BeginShutdown() returns (captured: Option<Generation>)
      modifies this
      ensures (View(), captured) == ShutdownSection(old(View()))
    {
      captured := httpServer;
      if captured.None? {
        ready := false;
        listener := None;
        return;
      }
      ready := false;
    }

    method FinishShutdown(captured: Generation)
      modifies this
      ensures View() == ReleaseSection(old(View()), captured)
    {
      if httpServer == Some(captured) {
        httpServer := None;
        listener := None;
      }
    }

    method CleanUpAfterServe(served: Generation)
      modifies this
      ensures View() == CleanUpSection(old(View()), served)
    {
      if httpServer == Some(served) {
        ready := false;
        httpServer := None;
        listener := None;
      }
    }

    /** A shutdown that nothing interleaves with leaves the server stopped and ready to start again. */
    method Shutdown()
      modifies this
      requires httpServer == listener
      ensures View() == Fields(None, None, false)
    {
      var captured := BeginShutdown();
      if captured.Some? {
        FinishShutdown(captured.value);
      }
    }
  }

  // ---------- all goroutines together ----------

  datatype Thread =
    | ServePending(gen: Generation)       // Start has released the lock, Serve is not running yet
    | Serving(gen: Generation)
    | ServeReturned(gen: Generation)
    | ShutdownWaiting(gen: Generation)    // inside http.Server.Shutdown
    | ShutdownReturned(gen: Generation)
    | Finished

  datatype State = State(fields: Fields, threads: seq<Thread>, open: set<Generation>)

  datatype Action =
    | Start(binds: bool)
    | Shutdown
    | BeginServing(thread: nat)
    | ReturnFromServe(thread: nat)
    | CleanUp(thread: nat)
    | ReturnFromShutdown(thread: nat)
    | Release(thread: nat)

  const INIT := State(Fields(None, None, false), [], {})

  predicate Enabled(s: State, a: Action) {
    match a
    case Start(_) => true
    case Shutdown => true
    case BeginServing(t) => t < |s.threads| && s.threads[t].ServePending?
    case ReturnFromServe(t) => t < |s.threads| && s.threads[t].Serving?
    case CleanUp(t) => t < |s.threads| && s.threads[t].ServeReturned?
    case ReturnFromShutdown(t) => t < |s.threads| && s.threads[t].ShutdownWaiting?
    case Release(t) => t < |s.threads| && s.threads[t].ShutdownReturned?
  }

  function Apply(s: State, a: Action): State
    requires Enabled(s, a)
  {
    match a
    case Start(binds) =>
      var g := |s.threads|;
      var (fields, result) := StartSection(s.fields, binds, g);
      if result.Started? then State(fields, s.threads + [ServePending(g)], s.open + {g}) else s.(fields := fields)
    case Shutdown =>
      var (fields, captured) := ShutdownSection(s.fields);
      s.(fields := fields,
         threads := if captured.Some? then s.threads + [ShutdownWaiting(captured.value)] else s.threads)
    case BeginServing(t) => s.(threads := s.threads[t := Serving(s.threads[t].gen)])
    case ReturnFromServe(t) =>
      // Serve closes its listener whenever it returns, expectedly or not.
      s.(threads := s.threads[t := ServeReturned(s.threads[t].gen)], open := s.open - {s.threads[t].gen})
    case CleanUp(t) =>
      s.(fields := CleanUpSection(s.fields, s.threads[t].gen), threads := s.threads[t := Finished])
    case ReturnFromShutdown(t) =>
      // http.Server.Shutdown closes the listeners that Serve has registered, even if its context expires.
      var g := s.threads[t].gen;
      s.(threads := s.threads[t := ShutdownReturned(g)],
         open := if g < |s.threads| && s.threads[g].ServePending? then s.open else s.open - {g})
    case Release(t) =>
      s.(fields := ReleaseSection(s.fields, s.threads[t].gen), threads := s.threads[t := Finished])
  }

  function Execute(s: State, run: seq<Action>): Option<State>
    decreases |run|
  {
    if run == [] then Some(s)
    else if Enabled(s, run[0]) then Execute(Apply(s, run[0]), run[1..])
    else None
  }

  // ---------- invariants ----------

  predicate Serves(t: Thread, g: Generation) {
    (t.ServePending? || t.Serving? || t.ServeReturned?) && t.gen == g
  }

  ghost predicate Inv(s: State) {
    && s.fields.server == s.fields.listener
    && (s.fields.ready ==> s.fields.server.Some?)
    && (s.fields.server.Some? ==>
          s.fields.server.value < |s.threads| && Serves(s.threads[s.fields.server.value], s.fields.server.value))
    && (forall g :: g in s.open ==>
          g < |s.threads| && Serves(s.threads[g], g) && !s.threads[g].ServeReturned?)
    && (forall t :: 0 <= t < |s.threads| && (s.threads[t].ShutdownWaiting? || s.threads[t].ShutdownReturned?) ==>
                      s.threads[t].gen < t && (s.fields.server == Some(s.threads[t].gen) ==> !s.fields.ready))
    && (forall t :: 0 <= t < |s.threads| && (s.threads[t].ServePending? || s.threads[t].Serving? || s.threads[t].ServeReturned?) ==>
                      s.threads[t].gen == t)
  }

  lemma StepInv(s: State, a: Action)
    requires Inv(s) && Enabled(s, a)
    ensures Inv(Apply(s, a))
  {
  }

  lemma {:induction false} ExecuteInv(s: State, run: seq<Action>)
    requires Inv(s)
    ensures Execute(s, run).Some? ==> Inv(Execute(s, run).value)
    decreases |run|
  {
    if run != [] && Enabled(s, run[0]) {
      StepInv(s, run[0]);
      ExecuteInv(Apply(s, run[0]), run[1..]);
    }
  }

  /** In every reachable state. */
  lemma LifecycleInvariant(run: seq<Action>)
    requires Execute(INIT, run).Some?
    ensures var s := Execute(INIT, run).value;
            && (s.fields.ready ==> s.fields.server.Some?)
            && (s.fields.server.None? <==> s.fields.listener.None?)
            && (StartSection(s.fields, true, |s.threads|).1 == AlreadyRunning <==> s.fields.server.Some?)
            && (ShutdownSection(s.fields).1.None? ==> ShutdownSection(s.fields).0 == s.fields)
            && ((forall t :: 0 <= t < |s.threads| ==> s.threads[t].Finished?) ==>
                  s.fields == Fields(None, None, false) && s.open == {})
  {
    ExecuteInv(INIT, run);
  }

  // ---------- readiness ----------

  /** A Shutdown call has captured the generation and is not over. */
  ghost predicate Captured(s: State, g: Generation) {
    exists t :: 0 <= t < |s.threads|
                && (s.threads[t].ShutdownWaiting? || s.threads[t].ShutdownReturned?) && s.threads[t].gen == g
  }

  /** Only a Shutdown keeps a published generation from being ready. */
  ghost predicate ReadyOrCaptured(s: State) {
    s.fields.server.Some? && !s.fields.ready ==> Captured(s, s.fields.server.value)
  }

  lemma StillCaptured(s: State, a: Action, g: Generation)
    requires Captured(s, g) && Enabled(s, a) && !(a.Release? && s.threads[a.thread].gen == g)
    ensures Captured(Apply(s, a), g)
  {
    var s' := Apply(s, a);
    var t :| 0 <= t < |s.threads|
             && (s.threads[t].ShutdownWaiting? || s.threads[t].ShutdownReturned?) && s.threads[t].gen == g;
    assert (s'.threads[t].ShutdownWaiting? || s'.threads[t].ShutdownReturned?) && s'.threads[t].gen == g;
  }

  lemma StepReadyOrCaptured(s: State, a: Action)
    requires Inv(s) && ReadyOrCaptured(s) && Enabled(s, a)
    ensures ReadyOrCaptured(Apply(s, a))
  {
    var s' := Apply(s, a);
    if s'.fields.server.Some? && !s'.fields.ready {
      if a.Shutdown? {
        assert s'.threads[|s.threads|] == ShutdownWaiting(s'.fields.server.value);
      } else {
        StillCaptured(s, a, s'.fields.server.value);
      }
    }
  }

  lemma {:induction false} ExecuteReadyOrCaptured(s: State, run: seq<Action>)
    requires Inv(s) && ReadyOrCaptured(s)
    ensures Execute(s, run).Some? ==> ReadyOrCaptured(Execute(s, run).value)
    decreases |run|
  {
    if run != [] && Enabled(s, run[0]) {
      StepInv(s, run[0]);
      StepReadyOrCaptured(s, run[0]);
      ExecuteReadyOrCaptured(Apply(s, run[0]), run[1..]);
    }
  }

  /** In every reachable state a published server is ready exactly if no Shutdown has captured its generation. */
  lemma ReadyExactly(run: seq<Action>)
    requires Execute(INIT, run).Some? && Execute(INIT, run).value.fields.server.Some?
    ensures var s := Execute(INIT, run).value; s.fields.ready <==> !Captured(s, s.fields.server.value)
  {
    ExecuteInv(INIT, run);
    ExecuteReadyOrCaptured(INIT, run);
  }

  lemma {:induction false} ExecuteAppend(s: State, run: seq<Action>, a: Action)
    requires Execute(s, run).Some? && Enabled(Execute(s, run).value, a)
    ensures Execute(s, run + [a]) == Some(Apply(Execute(s, run).value, a))
    decreases |run|
  {
    if run == [] {
      assert run + [a] == [a] && [a][1..] == [];
    } else {
      ExecuteAppend(Apply(s, run[0]), run[1..], a);
      assert (run + [a])[1..] == run[1..] + [a];
    }
  }

  /**
   A Start after any run. If nothing is published and the address binds, a new generation, unknown to all earlier
   goroutines, is published, open and ready; otherwise nothing changes.
   */
  lemma StartMakesReady(run: seq<Action>, binds: bool)
    requires Execute(INIT, run).Some?
    ensures var s := Execute(INIT, run).value;
            var g := |s.threads|;
            && Execute(INIT, run + [Start(binds)]).Some?
            && var s' := Execute(INIT, run + [Start(binds)]).value;
               if s.fields.server.None? && binds then
                 && s'.fields.server == Some(g) && s'.fields.listener == Some(g) && s'.fields.ready
                 && g in s'.open && s'.threads == s.threads + [ServePending(g)]
                 && forall t :: 0 <= t < g && !s.threads[t].Finished? ==> s.threads[t].gen != g
               else s' == s
  {
    ExecuteInv(INIT, run);
    ExecuteAppend(INIT, run, Start(binds));
  }

  // ---------- isolation of generations ----------

  /** The generation a goroutine works for in this step, if it works for one that it remembers. */
  function Remembered(s: State, a: Action): Option<Generation>
    requires Enabled(s, a)
  {
    match a
    case CleanUp(t) => Some(s.threads[t].gen)
    case Release(t) => Some(s.threads[t].gen)
    case _ => None
  }

  lemma LateStepsAreHarmless(s: State, a: Action, g: Generation)
    requires Inv(s) && Enabled(s, a) && s.fields.server == Some(g) && !a.Shutdown? && Remembered(s, a) != Some(g)
    ensures Apply(s, a).fields == s.fields
  {
  }

  /** In a run, nobody calls Shutdown and no goroutine that remembers the generation does its late step. */
  predicate OnlyOthers(s: State, run: seq<Action>, g: Generation)
    decreases |run|
  {
    run == [] ||
    (Enabled(s, run[0]) && !run[0].Shutdown? && Remembered(s, run[0]) != Some(g)
     && OnlyOthers(Apply(s, run[0]), run[1..], g))
  }

  /**
   Whether it is ready or being drained, the state of a published generation does not change over any run of Starts
   and of goroutines of other generations, however late they are.
   */
  lemma {:induction false} OthersAreHarmless(s: State, run: seq<Action>, g: Generation)
    requires Inv(s) && s.fields.server == Some(g) && OnlyOthers(s, run, g)
    ensures Execute(s, run).Some? && Execute(s, run).value.fields == s.fields
    decreases |run|
  {
    if run != [] {
      StepInv(s, run[0]);
      LateStepsAreHarmless(s, run[0], g);
      OthersAreHarmless(Apply(s, run[0]), run[1..], g);
    }
  }

  /** The steps that may end the readiness of a generation. */
  predicate EndsReadiness(s: State, a: Action, g: Generation) {
    a.Shutdown? || (a.CleanUp? && a.thread == g)
  }

  function Without(s: State, run: seq<Action>, g: Generation): bool
    decreases |run|
  {
    run == [] ||
    (Enabled(s, run[0]) && !EndsReadiness(s, run[0], g) && Without(Apply(s, run[0]), run[1..], g))
  }

  /** A ready generation stays ready until it is shut down or its own Serve has returned. */
  lemma {:induction false} StaysReady(s: State, run: seq<Action>, g: Generation)
    requires Inv(s) && s.fields.ready && s.fields.server == Some(g)
    requires Without(s, run, g)
    ensures Execute(s, run).Some? && Execute(s, run).value.fields == s.fields
    decreases |run|
  {
    if run != [] {
      StepInv(s, run[0]);
      ReadyStep(s, run[0], g);
      StaysReady(Apply(s, run[0]), run[1..], g);
    }
  }

  /** One step ends the readiness of a generation exactly when it is a Shutdown or the clean-up of its own Serve. */
  lemma ReadyStep(s: State, a: Action, g: Generation)
    requires Inv(s) && Enabled(s, a) && s.fields.ready && s.fields.server == Some(g)
    ensures EndsReadiness(s, a, g) <==> !(Apply(s, a).fields.ready && Apply(s, a).fields.server == Some(g))
    ensures !EndsReadiness(s, a, g) ==> Apply(s, a).fields == s.fields
  {
  }

  /** The generation is over, or its readiness is. */
  predicate Retired(s: State, g: Generation) {
    g < |s.threads| && (s.fields.server != Some(g) || !s.fields.ready)
  }

  /** Readiness never comes back to a generation. */
  lemma {:induction false} RetiredForever(s: State, run: seq<Action>, g: Generation)
    requires Inv(s) && Retired(s, g) && Execute(s, run).Some?
    ensures Retired(Execute(s, run).value, g)
    decreases |run|
  {
    if run != [] {
      StepInv(s, run[0]);
      RetiredForever(Apply(s, run[0]), run[1..], g);
    }
  }

  /** Once a Shutdown has run to its end, its generation is not published any more. */
  lemma {:induction false} ShutdownUnpublishes(s: State, t: nat, run: seq<Action>)
    requires Inv(s) && Enabled(s, Release(t)) && Execute(Apply(s, Release(t)), run).Some?
    ensures Execute(Apply(s, Release(t)), run).value.fields.server != Some(s.threads[t].gen)
  {
    StepInv(s, Release(t));
    NeverPublishedAgain(Apply(s, Release(t)), run, s.threads[t].gen);
  }

  lemma {:induction false} NeverPublishedAgain(s: State, run: seq<Action>, g: Generation)
    requires Inv(s) && g < |s.threads| && s.fields.server != Some(g) && Execute(s, run).Some?
    ensures Execute(s, run).value.fields.server != Some(g)
    decreases |run|
  {
    if run != [] {
      StepInv(s, run[0]);
      NeverPublishedAgain(Apply(s, run[0]), run[1..], g);
    }
  }
}
