/**
 The lifecycle of the DNS server: Start holds the mutex for as long as the two listeners take to come up,
 Shutdown takes it twice, and one observer per listener reports an unexpected end. The `ready` flag is
 atomic and visible without the mutex, so the steps below are cut at every access to it.
 */
module Dns {
  import opened Wrappers

  type Generation = int

  datatype Network = Udp | Tcp

  datatype Socket = Socket(gen: Generation, network: Network)

  datatype Fields = Fields(
    started: bool, shuttingDown: bool, udp: Option<Generation>, tcp: Option<Generation>, ready: bool)

  const STOPPED := Fields(false, false, None, None, false)

  datatype StartPc =
    | OpeningUdp
    | OpeningTcp
    | Publishing
    | AwaitingUdp
    | AwaitingTcp
    | RollingBack
    | MarkingStarted
    | StoringReady
    | Spawning

  /** Who holds the mutex across a step. */
  datatype Lock = Free | Starting(pc: StartPc) | Flagging

  datatype ObserverPc = Waiting | Deciding | Storing | Gone

  datatype Observer = Observer(socket: Socket, pc: ObserverPc)

  datatype ClosingPc = ClosingUdp | ClosingTcp | Resetting

  /** A Shutdown call between its two critical sections, with the servers it captured. */
  datatype Closing = Closing(udp: Option<Generation>, tcp: Option<Generation>, pc: ClosingPc)

  /** overlap: several Shutdown calls may be in flight; configured: address and handler are set. */
  datatype Config = Config(overlap: bool, configured: bool)

  datatype State = State(
    fields: Fields,
    lock: Lock,
    generations: nat,            // Start calls that got past their checks; the last one is the current generation
    served: set<Socket>,         // sockets with a serving goroutine, past or present
    ended: set<Socket>,          // sockets whose serving goroutine has returned
    open: set<Socket>,
    observers: seq<Observer>,
    shutdowns: seq<Closing>)

  const INIT := State(STOPPED, Free, 0, {}, {}, {}, [], [])

  datatype Action =
    | StartEnter
    | Open(ok: bool)              // net.ListenPacket, then net.Listen
    | Publish
    | Await(ok: bool)             // waitForListenerStartup, for UDP and then for TCP
    | RollBack
    | MarkStarted
    | StoreReady
    | Spawn
    | ListenerEnds(socket: Socket)
    | Wake(observer: nat)
    | Decide(observer: nat)
    | StoreNotReady(observer: nat)
    | ShutdownEnter
    | ShutdownFlag
    | Close(shutdown: nat)        // ShutdownContext of the UDP server, then of the TCP server
    | Reset(shutdown: nat)

  function Current(s: State): Generation {
    s.generations - 1
  }

  function Own(s: State, network: Network): Socket {
    Socket(Current(s), network)
  }

  predicate Enabled(c: Config, s: State, a: Action) {
    match a
    case StartEnter => s.lock.Free?
    case Open(_) => s.lock == Starting(OpeningUdp) || s.lock == Starting(OpeningTcp)
    case Publish => s.lock == Starting(Publishing)
    case Await(ok) =>
      && (s.lock == Starting(AwaitingUdp) || s.lock == Starting(AwaitingTcp))
      && (ok || Own(s, if s.lock.pc.AwaitingUdp? then Udp else Tcp) in s.ended)
    case RollBack => s.lock == Starting(RollingBack)
    case MarkStarted => s.lock == Starting(MarkingStarted)
    case StoreReady => s.lock == Starting(StoringReady)
    case Spawn => s.lock == Starting(Spawning)
    case ListenerEnds(socket) => socket in s.served && socket !in s.ended
    case Wake(i) => i < |s.observers| && s.observers[i].pc.Waiting? && s.observers[i].socket in s.ended
    case Decide(i) => i < |s.observers| && s.observers[i].pc.Deciding? && s.lock.Free?
    case StoreNotReady(i) => i < |s.observers| && s.observers[i].pc.Storing?
    case ShutdownEnter => s.lock.Free? && (c.overlap || s.shutdowns == [])
    case ShutdownFlag => s.lock.Flagging?
    case Close(i) => i < |s.shutdowns| && !s.shutdowns[i].pc.Resetting?
    case Reset(i) => i < |s.shutdowns| && s.shutdowns[i].pc.Resetting? && s.lock.Free?
  }

  function Without(open: set<Socket>, g: Option<Generation>, network: Network): set<Socket> {
    if g.None? then open else open - {Socket(g.value, network)}
  }

  function Apply(c: Config, s: State, a: Action): State
    requires Enabled(c, s, a)
  {
    match a
    case StartEnter =>
      if s.fields.started || s.fields.shuttingDown || !c.configured then s
      else s.(lock := Starting(OpeningUdp), generations := s.generations + 1)
    case Open(ok) =>
      if s.lock.pc.OpeningUdp? then
        if ok then s.(open := s.open + {Own(s, Udp)}, lock := Starting(OpeningTcp)) else s.(lock := Free)
      else
        if ok then s.(open := s.open + {Own(s, Tcp)}, lock := Starting(Publishing))
        else s.(open := s.open - {Own(s, Udp)}, lock := Free)
    case Publish =>
      var g := Some(Current(s));
      s.(fields := s.fields.(udp := g, tcp := g), served := s.served + {Own(s, Udp), Own(s, Tcp)},
         lock := Starting(AwaitingUdp))
    case Await(ok) =>
      if !ok then s.(fields := s.fields.(ready := false), lock := Starting(RollingBack))
      else s.(lock := Starting(if s.lock.pc.AwaitingUdp? then AwaitingTcp else MarkingStarted))
    case RollBack =>
      s.(fields := Fields(false, false, None, None, s.fields.ready),
         open := s.open - {Own(s, Udp), Own(s, Tcp)}, lock := Free)
    case MarkStarted => s.(fields := s.fields.(started := true), lock := Starting(StoringReady))
    case StoreReady => s.(fields := s.fields.(ready := true), lock := Starting(Spawning))
    case Spawn =>
      s.(observers := s.observers + [Observer(Own(s, Udp), Waiting), Observer(Own(s, Tcp), Waiting)], lock := Free)
    case ListenerEnds(socket) => s.(ended := s.ended + {socket}, open := s.open - {socket})
    case Wake(i) => s.(observers := s.observers[i := s.observers[i].(pc := Deciding)])
    case Decide(i) =>
      var pc := if !s.fields.started || s.fields.shuttingDown then Gone else Storing;
      s.(observers := s.observers[i := s.observers[i].(pc := pc)])
    case StoreNotReady(i) =>
      s.(fields := s.fields.(ready := false), observers := s.observers[i := s.observers[i].(pc := Gone)])
    case ShutdownEnter =>
      s.(fields := s.fields.(ready := false), lock := if s.fields.started then Flagging else Free)
    case ShutdownFlag =>
      s.(fields := s.fields.(shuttingDown := true), lock := Free,
         shutdowns := s.shutdowns + [Closing(s.fields.udp, s.fields.tcp, ClosingUdp)])
    case Close(i) =>
      var t := s.shutdowns[i];
      if t.pc.ClosingUdp? then
        s.(open := Without(s.open, t.udp, Udp), shutdowns := s.shutdowns[i := t.(pc := ClosingTcp)])
      else
        s.(open := Without(s.open, t.tcp, Tcp), shutdowns := s.shutdowns[i := t.(pc := Resetting)])
    case Reset(i) =>
      s.(fields := Fields(false, false, None, None, s.fields.ready),
         shutdowns := s.shutdowns[..i] + s.shutdowns[i + 1..])
  }

  function Execute(c: Config, s: State, run: seq<Action>): Option<State>
    decreases |run|
  {
    if run == [] then Some(s)
    else if Enabled(c, s, run[0]) then Execute(c, Apply(c, s, run[0]), run[1..])
    else None
  }

  // ---------- invariant, with at most one Shutdown in flight ----------

  /** Ready means that both listeners are published, started and not being shut down. */
  predicate ReadySound(f: Fields) {
    f.ready ==> f.started && !f.shuttingDown && f.udp.Some? && f.udp == f.tcp
  }

  /** Fields of each stage of Start, of a stopped, a running and a closing server. */
  ghost predicate Stages(s: State) {
    var f, g := s.fields, Current(s);
    && |s.shutdowns| <= 1
    && (f.shuttingDown <==> s.shutdowns != [])
    && (f.udp == f.tcp)
    && (f.udp.Some? ==> f.udp.value == g)
    && (f.started ==> f.udp.Some?)
    && (f.shuttingDown ==> f.started && !f.ready && s.lock.Free? && s.shutdowns[0].udp == s.shutdowns[0].tcp == f.udp)
    && (s.lock.Free? ==> (f.started <==> f.udp.Some?))
    && (s.lock.Flagging? ==> f.started && !f.ready && !f.shuttingDown)
    && (s.lock.Starting? ==>
          && s.generations > 0 && !f.shuttingDown
          && (f.started <==> s.lock.pc.StoringReady? || s.lock.pc.Spawning?)
          && (f.udp.None? <==> s.lock.pc.OpeningUdp? || s.lock.pc.OpeningTcp? || s.lock.pc.Publishing?)
          && (f.ready ==> s.lock.pc.Spawning?))
  }

  /** Only the current generation owns open sockets, and it owns them unless their listener has ended. */
  ghost predicate Sockets(s: State) {
    Ownership(s) && Openings(s) && Closings(s)
  }

  ghost predicate Ownership(s: State) {
    var f, g := s.fields, Current(s);
    && (forall x :: x in s.open ==> x.gen == g)
    && (forall x :: x in s.served ==> x.gen <= g)
    && s.ended <= s.served
    && (s.lock.Starting? && f.udp.None? ==> forall x :: x in s.served ==> x.gen < g)
    && (f.udp.Some? ==> Socket(g, Udp) in s.served && Socket(g, Tcp) in s.served)
  }

  ghost predicate Openings(s: State) {
    var f, g := s.fields, Current(s);
    && (s.lock == Starting(OpeningUdp) ==> forall x :: x !in s.open)
    && (s.lock == Starting(OpeningTcp) ==> forall x :: x in s.open <==> x == Socket(g, Udp))
    && (s.lock == Starting(Publishing) ==> Socket(g, Udp) in s.open && Socket(g, Tcp) in s.open)
    && (s.lock.Free? && f.udp.None? ==> forall x :: x !in s.open)
  }

  ghost predicate Closings(s: State) {
    var f, g := s.fields, Current(s);
    && (f.udp.Some? && s.shutdowns == [] ==>
          && (Socket(g, Udp) in s.open || Socket(g, Udp) in s.ended)
          && (Socket(g, Tcp) in s.open || Socket(g, Tcp) in s.ended))
    && (s.shutdowns != [] ==>
          && (!s.shutdowns[0].pc.ClosingUdp? ==> Socket(g, Udp) !in s.open)
          && (s.shutdowns[0].pc.Resetting? ==> Socket(g, Tcp) !in s.open))
  }

  ghost predicate Observers(s: State) {
    forall i :: 0 <= i < |s.observers| ==>
                  && 0 <= s.observers[i].socket.gen < s.generations
                  && s.observers[i].socket in s.served
                  && (s.observers[i].pc.Deciding? || s.observers[i].pc.Storing? ==> s.observers[i].socket in s.ended)
  }

  ghost predicate Inv(s: State) {
    ReadySound(s.fields) && Stages(s) && Sockets(s) && Observers(s)
  }

  lemma StepStages(c: Config, s: State, a: Action)
    requires ReadySound(s.fields) && Stages(s) && Enabled(c, s, a) && (a.ShutdownEnter? ==> s.shutdowns == [])
    ensures ReadySound(Apply(c, s, a).fields) && Stages(Apply(c, s, a))
  {
  }

  lemma StepOwnership(c: Config, s: State, a: Action)
    requires Stages(s) && Sockets(s) && Enabled(c, s, a) && (a.ShutdownEnter? ==> s.shutdowns == [])
    ensures Ownership(Apply(c, s, a))
  {
  }

  lemma StepOpenings(c: Config, s: State, a: Action)
    requires Stages(s) && Sockets(s) && Enabled(c, s, a) && (a.ShutdownEnter? ==> s.shutdowns == [])
    ensures Openings(Apply(c, s, a))
  {
    forall x | x in s.open ensures x == Own(s, Udp) || x == Own(s, Tcp) {
      OwnSockets(s, x);
    }
  }

  lemma StepClosings(c: Config, s: State, a: Action)
    requires Stages(s) && Sockets(s) && Enabled(c, s, a) && (a.ShutdownEnter? ==> s.shutdowns == [])
    ensures Closings(Apply(c, s, a))
  {
  }

  lemma StepSockets(c: Config, s: State, a: Action)
    requires Stages(s) && Sockets(s) && Enabled(c, s, a) && (a.ShutdownEnter? ==> s.shutdowns == [])
    ensures Sockets(Apply(c, s, a))
  {
    StepOwnership(c, s, a);
    StepOpenings(c, s, a);
    StepClosings(c, s, a);
  }

  lemma StepObservers(c: Config, s: State, a: Action)
    requires s.lock.Starting? ==> s.generations > 0
    requires s.lock == Starting(Spawning) ==> Own(s, Udp) in s.served && Own(s, Tcp) in s.served
    requires Observers(s) && Enabled(c, s, a)
    ensures Observers(Apply(c, s, a))
  {
    var s' := Apply(c, s, a);
    assert s.ended <= s'.ended && s.served <= s'.served && s.generations <= s'.generations;
  }

  lemma StepInv(c: Config, s: State, a: Action)
    requires Inv(s) && Enabled(c, s, a) && (a.ShutdownEnter? ==> s.shutdowns == [])
    ensures Inv(Apply(c, s, a))
  {
    StepStages(c, s, a);
    StepSockets(c, s, a);
    assert s.lock.Starting? ==> s.generations > 0;
    assert s.lock == Starting(Spawning) ==> Own(s, Udp) in s.served && Own(s, Tcp) in s.served;
    StepObservers(c, s, a);
  }

  lemma {:induction false} ExecuteInv(c: Config, s: State, run: seq<Action>)
    requires !c.overlap && Inv(s)
    ensures Execute(c, s, run).Some? ==> Inv(Execute(c, s, run).value)
    decreases |run|
  {
    if run != [] && Enabled(c, s, run[0]) {
      StepInv(c, s, run[0]);
      ExecuteInv(c, Apply(c, s, run[0]), run[1..]);
    }
  }

  /**
   In every reachable state: ready is sound, a server that is shutting down refuses to start, and a server
   that is neither starting nor started owns no socket.
   */
  lemma LifecycleInvariant(c: Config, run: seq<Action>)
    requires !c.overlap && Execute(c, INIT, run).Some?
    ensures var s := Execute(c, INIT, run).value;
            && ReadySound(s.fields)
            && (s.fields.shuttingDown && Enabled(c, s, StartEnter) ==> Apply(c, s, StartEnter) == s)
            && (s.lock.Free? && !s.fields.started ==> s.fields == STOPPED && s.open == {})
  {
    ExecuteInv(c, INIT, run);
    var s := Execute(c, INIT, run).value;
    assert Sockets(s);
  }

  /**
   The step with which Start returns: it either succeeds, and each socket is open unless its listener has
   ended since, or it fails, and nothing is left behind.
   */
  lemma StartOutcome(c: Config, s: State, a: Action)
    requires !c.overlap && Inv(s) && Enabled(c, s, a)
    requires s.lock.Starting? && Apply(c, s, a).lock.Free?
    ensures var s' := Apply(c, s, a);
            if a.Spawn? then
              && s'.fields.started && s'.fields.udp == s'.fields.tcp == Some(Current(s))
              && (Own(s, Udp) in s'.open || Own(s, Udp) in s'.ended)
              && (Own(s, Tcp) in s'.open || Own(s, Tcp) in s'.ended)
            else s'.fields == STOPPED && s'.open == {}
  {
    StepStages(c, s, a);
    StepSockets(c, s, a);
  }

  /** Readiness is only taken away by a Shutdown, or by an observer whose own listener has ended. */
  lemma ReadyLost(c: Config, s: State, a: Action)
    requires Inv(s) && Enabled(c, s, a) && s.fields.ready && !Apply(c, s, a).fields.ready
    ensures a.ShutdownEnter? || (a.StoreNotReady? && s.observers[a.observer].socket in s.ended)
  {
    assert Stages(s) && Observers(s);
  }

  // ---------- observers of earlier generations ----------

  /** Every observer that is not finished watches the current generation. */
  ghost predicate NoStaleObserver(s: State) {
    forall i :: 0 <= i < |s.observers| && !s.observers[i].pc.Gone? ==> s.observers[i].socket.gen == Current(s)
  }

  lemma {:induction false} EndedGrows(c: Config, s: State, run: seq<Action>)
    requires Execute(c, s, run).Some?
    ensures s.ended <= Execute(c, s, run).value.ended
    decreases |run|
  {
    if run != [] {
      EndedGrows(c, Apply(c, s, run[0]), run[1..]);
    }
  }

  /**
   Without stale observers a generation is isolated: it stays ready through any run in which nobody
   calls Shutdown and neither of its own listeners ends.
   */
  lemma {:induction false} StaysReady(c: Config, s: State, run: seq<Action>)
    requires !c.overlap && Inv(s) && NoStaleObserver(s) && s.fields.ready
    requires Execute(c, s, run).Some? && ShutdownEnter !in run
    requires Own(s, Udp) !in Execute(c, s, run).value.ended && Own(s, Tcp) !in Execute(c, s, run).value.ended
    ensures Execute(c, s, run).value.fields == s.fields
    ensures NoStaleObserver(Execute(c, s, run).value)
    decreases |run|
  {
    if run != [] {
      var s' := Apply(c, s, run[0]);
      EndedGrows(c, s, run);
      ReadyStep(c, s, run[0]);
      StepInv(c, s, run[0]);
      StaysReady(c, s', run[1..]);
    }
  }

  lemma ReadyStep(c: Config, s: State, a: Action)
    requires !c.overlap && Inv(s) && NoStaleObserver(s) && s.fields.ready && Enabled(c, s, a) && !a.ShutdownEnter?
    requires Own(s, Udp) !in s.ended && Own(s, Tcp) !in s.ended
    ensures var s' := Apply(c, s, a);
            s'.fields == s.fields && s'.generations == s.generations && NoStaleObserver(s')
  {
    if a.StoreNotReady? {
      assert Observers(s);
      OwnSockets(s, s.observers[a.observer].socket);
    }
  }

  lemma OwnSockets(s: State, x: Socket)
    requires x.gen == Current(s)
    ensures x == Own(s, Udp) || x == Own(s, Tcp)
  {
    match x.network {
      case Udp =>
      case Tcp =>
    }
  }

  /** One more step of a run. */
  lemma Extend(c: Config, origin: State, run: seq<Action>, s: State, a: Action) returns (run': seq<Action>, s': State)
    requires Execute(c, origin, run) == Some(s) && Enabled(c, s, a)
    ensures run' == run + [a] && s' == Apply(c, s, a) && Execute(c, origin, run') == Some(s')
  {
    run', s' := run + [a], Apply(c, s, a);
    ExecuteAppend(c, origin, run, a);
  }

  lemma {:induction false} ExecuteAppend(c: Config, s: State, run: seq<Action>, a: Action)
    requires Execute(c, s, run).Some? && Enabled(c, Execute(c, s, run).value, a)
    ensures Execute(c, s, run + [a]) == Some(Apply(c, Execute(c, s, run).value, a))
    decreases |run|
  {
    if run == [] {
      assert run + [a] == [a] && [a][1..] == [];
    } else {
      ExecuteAppend(c, Apply(c, s, run[0]), run[1..], a);
      assert (run + [a])[1..] == run[1..] + [a];
    }
  }

  /** A run in which nobody calls Shutdown and neither listener of the current generation ends. */
  ghost predicate Undisturbed(c: Config, s: State, run: seq<Action>) {
    && Execute(c, s, run).Some? && ShutdownEnter !in run
    && Own(s, Udp) !in Execute(c, s, run).value.ended && Own(s, Tcp) !in Execute(c, s, run).value.ended
  }

  /** Only a Shutdown or the end of one of its own listeners can take readiness from the current generation. */
  ghost predicate Isolated(c: Config, s: State) {
    forall run: seq<Action> :: Undisturbed(c, s, run) ==> Execute(c, s, run).value.fields.ready
  }

  /** The mutex is free and the stale observer still there, maybe after the last step of Start. */
  lemma Unlocked(c: Config, s: State) returns (run: seq<Action>, s': State)
    requires Inv(s) && s.fields.ready
    ensures Execute(c, s, run) == Some(s') && ShutdownEnter !in run && s'.lock.Free?
    ensures s'.fields == s.fields && s'.ended == s.ended && s'.served == s.served && s.observers <= s'.observers
  {
    assert Stages(s);
    assert Execute(c, s, []) == Some(s);
    run, s' := [], s;
    if s.lock.Starting? {
      run, s' := Extend(c, s, run, s', Spawn);
    }
  }

  /** The listener of the observer ends, if it has not, and the observer wakes up, if it has not. */
  lemma Awake(c: Config, origin: State, run: seq<Action>, s: State, i: nat) returns (run': seq<Action>, s': State)
    requires Execute(c, origin, run) == Some(s) && ShutdownEnter !in run && s.lock.Free? && i < |s.observers|
    requires s.observers[i].socket in s.served && !s.observers[i].pc.Gone?
    ensures Execute(c, origin, run') == Some(s') && ShutdownEnter !in run' && s'.lock.Free?
    ensures s'.fields == s.fields && i < |s'.observers| && (s'.observers[i].pc.Deciding? || s'.observers[i].pc.Storing?)
    ensures s'.ended <= s.ended + {s.observers[i].socket}
  {
    run', s' := run, s;
    if s.observers[i].pc.Waiting? {
      if s.observers[i].socket !in s.ended {
        run', s' := Extend(c, origin, run', s', ListenerEnds(s.observers[i].socket));
      }
      run', s' := Extend(c, origin, run', s', Wake(i));
    }
  }

  /** From whatever ready state: a stale observer can take the readiness away from the healthy generation. */
  lemma StaleObserverTakesReadiness(c: Config, s: State, i: nat) returns (run: seq<Action>)
    requires Inv(s) && s.fields.ready && Own(s, Udp) !in s.ended && Own(s, Tcp) !in s.ended
    requires i < |s.observers| && !s.observers[i].pc.Gone? && s.observers[i].socket.gen != Current(s)
    ensures Undisturbed(c, s, run) && !Execute(c, s, run).value.fields.ready
  {
    var s';
    run, s' := Unlocked(c, s);
    assert s'.observers[i] == s.observers[i] && s.observers[i].socket in s.served by { assert Observers(s); }
    run, s' := Awake(c, s, run, s', i);
    if s'.observers[i].pc.Deciding? {
      assert s'.fields.started && !s'.fields.shuttingDown;
      run, s' := Extend(c, s, run, s', Decide(i));
    }
    run, s' := Extend(c, s, run, s', StoreNotReady(i));
  }

  /** Isolation of a ready generation whose listeners run, exactly: no observer of an earlier one is left. */
  lemma IsolatedExactly(c: Config, s: State)
    requires !c.overlap && Inv(s) && s.fields.ready && Own(s, Udp) !in s.ended && Own(s, Tcp) !in s.ended
    ensures Isolated(c, s) <==> NoStaleObserver(s)
  {
    if NoStaleObserver(s) {
      forall run: seq<Action> | Undisturbed(c, s, run) ensures Execute(c, s, run).value.fields.ready {
        StaysReady(c, s, run);
      }
    } else {
      var i :| 0 <= i < |s.observers| && !s.observers[i].pc.Gone? && s.observers[i].socket.gen != Current(s);
      var run := StaleObserverTakesReadiness(c, s, i);
    }
  }

  // ---------- what a caller can do about it ----------

  /** The caller waits for the observers: no Start gets past its checks before all of them are gone. */
  ghost predicate Patient(c: Config, s: State, run: seq<Action>)
    decreases |run|
  {
    run == [] ||
    (Enabled(c, s, run[0])
     && (Apply(c, s, run[0]).generations > s.generations ==>
           forall i :: 0 <= i < |s.observers| ==> s.observers[i].pc.Gone?)
     && Patient(c, Apply(c, s, run[0]), run[1..]))
  }

  lemma NoStaleStep(c: Config, s: State, a: Action)
    requires Inv(s) && NoStaleObserver(s) && Enabled(c, s, a)
    requires Apply(c, s, a).generations > s.generations ==> forall i :: 0 <= i < |s.observers| ==> s.observers[i].pc.Gone?
    ensures NoStaleObserver(Apply(c, s, a))
  {
  }

  lemma {:induction false} PatientRuns(c: Config, s: State, run: seq<Action>)
    requires !c.overlap && Inv(s) && NoStaleObserver(s) && Patient(c, s, run)
    ensures Execute(c, s, run).Some? && Inv(Execute(c, s, run).value) && NoStaleObserver(Execute(c, s, run).value)
    decreases |run|
  {
    if run != [] {
      NoStaleStep(c, s, run[0]);
      StepInv(c, s, run[0]);
      PatientRuns(c, Apply(c, s, run[0]), run[1..]);
    }
  }

  /** With a patient caller every ready generation whose listeners run is isolated. */
  lemma PatientCallersAreIsolated(c: Config, run: seq<Action>)
    requires !c.overlap && Patient(c, INIT, run)
    ensures Execute(c, INIT, run).Some?
    ensures var s := Execute(c, INIT, run).value;
            s.fields.ready && Own(s, Udp) !in s.ended && Own(s, Tcp) !in s.ended ==> Isolated(c, s)
  {
    PatientRuns(c, INIT, run);
    var s := Execute(c, INIT, run).value;
    if s.fields.ready && Own(s, Udp) !in s.ended && Own(s, Tcp) !in s.ended {
      IsolatedExactly(c, s);
    }
  }

  /** So is the first generation, the only one that App.Run ever starts. */
  lemma FirstGenerationIsIsolated(c: Config, run: seq<Action>)
    requires !c.overlap && Execute(c, INIT, run).Some? && Execute(c, INIT, run).value.generations == 1
    ensures var s := Execute(c, INIT, run).value;
            s.fields.ready && Own(s, Udp) !in s.ended && Own(s, Tcp) !in s.ended ==> Isolated(c, s)
  {
    ExecuteInv(c, INIT, run);
    var s := Execute(c, INIT, run).value;
    assert Observers(s);
    if s.fields.ready && Own(s, Udp) !in s.ended && Own(s, Tcp) !in s.ended {
      IsolatedExactly(c, s);
    }
  }

  /** Both listeners are open and published. */
  lemma Listening(c: Config, run: seq<Action>, s: State) returns (run': seq<Action>, s': State)
    requires Execute(c, INIT, run) == Some(s) && c.configured
    requires s.lock.Free? && !s.fields.started && !s.fields.shuttingDown
    ensures run <= run' && ShutdownEnter !in run'[|run|..] && Execute(c, INIT, run') == Some(s')
    ensures var g := s.generations;
            s' == s.(fields := s.fields.(udp := Some(g), tcp := Some(g)), generations := g + 1,
                     served := s.served + {Socket(g, Udp), Socket(g, Tcp)},
                     open := s.open + {Socket(g, Udp)} + {Socket(g, Tcp)},
                     lock := Starting(AwaitingUdp))
  {
    run', s' := Extend(c, INIT, run, s, StartEnter);
    run', s' := Extend(c, INIT, run', s', Open(true));
    run', s' := Extend(c, INIT, run', s', Open(true));
    run', s' := Extend(c, INIT, run', s', Publish);
  }

  /** And both have reported their start. */
  lemma Serving(c: Config, run: seq<Action>, s: State) returns (run': seq<Action>, s': State)
    requires Execute(c, INIT, run) == Some(s) && c.configured
    requires s.lock.Free? && !s.fields.started && !s.fields.shuttingDown
    ensures run <= run' && ShutdownEnter !in run'[|run|..] && Execute(c, INIT, run') == Some(s')
    ensures var g := s.generations;
            s' == s.(fields := s.fields.(udp := Some(g), tcp := Some(g)), generations := g + 1,
                     served := s.served + {Socket(g, Udp), Socket(g, Tcp)},
                     open := s.open + {Socket(g, Udp)} + {Socket(g, Tcp)},
                     lock := Starting(MarkingStarted))
  {
    run', s' := Listening(c, run, s);
    run', s' := Extend(c, INIT, run', s', Await(true));
    run', s' := Extend(c, INIT, run', s', Await(true));
  }

  /** A Start that nothing goes wrong in. */
  lemma StartUp(c: Config, run: seq<Action>, s: State) returns (run': seq<Action>, s': State)
    requires Execute(c, INIT, run) == Some(s) && c.configured
    requires s.lock.Free? && !s.fields.started && !s.fields.shuttingDown
    ensures run <= run' && ShutdownEnter !in run'[|run|..] && Execute(c, INIT, run') == Some(s')
    ensures var g := s.generations;
            s' == s.(fields := Fields(true, false, Some(g), Some(g), true), generations := g + 1,
                     served := s.served + {Socket(g, Udp), Socket(g, Tcp)},
                     open := s.open + {Socket(g, Udp)} + {Socket(g, Tcp)},
                     observers := s.observers + [Observer(Socket(g, Udp), Waiting), Observer(Socket(g, Tcp), Waiting)])
  {
    run', s' := Serving(c, run, s);
    run', s' := Extend(c, INIT, run', s', MarkStarted);
    run', s' := Extend(c, INIT, run', s', StoreReady);
    run', s' := Extend(c, INIT, run', s', Spawn);
  }

  /** A Shutdown up to the point where both listeners are closed. */
  lemma BeginShutdown(c: Config, run: seq<Action>, s: State) returns (run': seq<Action>, s': State)
    requires Execute(c, INIT, run) == Some(s)
    requires s.lock.Free? && s.fields.started && s.fields.udp == s.fields.tcp == Some(Current(s)) && s.shutdowns == []
    ensures Execute(c, INIT, run') == Some(s')
    ensures s' == s.(fields := s.fields.(ready := false, shuttingDown := true),
                     open := s.open - {Own(s, Udp)} - {Own(s, Tcp)},
                     shutdowns := [Closing(Some(Current(s)), Some(Current(s)), Resetting)])
  {
    run', s' := Extend(c, INIT, run, s, ShutdownEnter);
    run', s' := Extend(c, INIT, run', s', ShutdownFlag);
    run', s' := Extend(c, INIT, run', s', Close(0));
    run', s' := Extend(c, INIT, run', s', Close(0));
  }

  /** The first generation has been up, and its Shutdown has closed both listeners. */
  lemma HalfClosed(c: Config) returns (run: seq<Action>, s: State)
    requires c.configured
    ensures Execute(c, INIT, run) == Some(s) && s.lock.Free? && s.generations == 1
    ensures s.fields == Fields(true, true, Some(0), Some(0), false) && s.open == {} && s.ended == {}
    ensures s.served == {Socket(0, Udp), Socket(0, Tcp)} && s.shutdowns == [Closing(Some(0), Some(0), Resetting)]
    ensures s.observers == [Observer(Socket(0, Udp), Waiting), Observer(Socket(0, Tcp), Waiting)]
  {
    assert Execute(c, INIT, []) == Some(INIT);
    run, s := StartUp(c, [], INIT);
    run, s := BeginShutdown(c, run, s);
  }

  /**
   States with a stale observer are reachable. Start, Shutdown, Start again: the observer of the first UDP listener,
   which ended as it should, wakes up late, finds the server started, and takes the readiness of the second
   generation away although both of its listeners run and nobody asked it to stop.
   */
  lemma StaleObserverStrikes() returns (ready: seq<Action>, strike: seq<Action>)
    ensures var c := Config(false, true);
            && Execute(c, INIT, ready).Some? && Execute(c, INIT, ready + strike).Some?
            && ShutdownEnter !in strike
            && var s, s' := Execute(c, INIT, ready).value, Execute(c, INIT, ready + strike).value;
               && s.fields.ready && !NoStaleObserver(s)
               && !s'.fields.ready && s'.fields.started && !s'.fields.shuttingDown
               && Own(s', Udp) in s'.open && Own(s', Tcp) in s'.open
               && Own(s', Udp) !in s'.ended && Own(s', Tcp) !in s'.ended
  {
    var c := Config(false, true);
    var s;
    ready, s := Restart(c);
    strike := [Wake(0)] + [Decide(0)] + [StoreNotReady(0)];
    var run, s' := Extend(c, INIT, ready, s, Wake(0));
    run, s' := Extend(c, INIT, run, s', Decide(0));
    run, s' := Extend(c, INIT, run, s', StoreNotReady(0));
    assert ready + strike == run;
    assert s.observers[0].pc.Waiting? && s.observers[0].socket.gen != Current(s);
  }

  /** Two generations, one after the other; the first UDP listener has ended and nobody has looked yet. */
  lemma Restart(c: Config) returns (run: seq<Action>, s: State)
    requires !c.overlap && c.configured
    ensures Execute(c, INIT, run) == Some(s)
    ensures s.fields == Fields(true, false, Some(1), Some(1), true) && s.lock.Free? && s.generations == 2
    ensures s.ended == {Socket(0, Udp)} && Socket(1, Udp) in s.open && Socket(1, Tcp) in s.open
    ensures |s.observers| == 4 && s.observers[0] == Observer(Socket(0, Udp), Waiting)
  {
    run, s := HalfClosed(c);
    run, s := Extend(c, INIT, run, s, ListenerEnds(Socket(0, Udp)));
    run, s := Extend(c, INIT, run, s, Reset(0));
    run, s := StartUp(c, run, s);
  }

  // ---------- overlapping Shutdown calls ----------

  /** What keeps readiness sound however many Shutdown calls overlap. */
  ghost predicate Sound(s: State) {
    && ReadySound(s.fields)
    && (s.lock.Flagging? ==> !s.fields.ready)
    && (s.lock.Starting? ==>
          && !s.fields.shuttingDown
          && (s.fields.ready ==> s.lock.pc.Spawning?)
          && (s.lock.pc.StoringReady? ==> s.fields.started)
          && (s.lock.pc.StoringReady? || s.lock.pc.MarkingStarted? || s.lock.pc.AwaitingTcp? || s.lock.pc.AwaitingUdp? ==>
                s.fields.udp.Some? && s.fields.udp == s.fields.tcp))
  }

  /** Of all steps only one breaks it, and only then: a Shutdown that ends while the server is ready again. */
  lemma OnlyLateResetBreaks(c: Config, s: State, a: Action)
    requires Sound(s) && Enabled(c, s, a)
    ensures Sound(Apply(c, s, a)) <==> !(a.Reset? && s.fields.ready)
  {
  }

  /** The run executes, and none of its Shutdown calls ends while the server is ready. */
  predicate NoLateReset(c: Config, s: State, run: seq<Action>)
    decreases |run|
  {
    run == [] ||
    (Enabled(c, s, run[0]) && !(run[0].Reset? && s.fields.ready) && NoLateReset(c, Apply(c, s, run[0]), run[1..]))
  }

  /** The run executes, and every state on its way is sound. */
  ghost predicate SoundThroughout(c: Config, s: State, run: seq<Action>)
    decreases |run|
  {
    Sound(s) && (run == [] || (Enabled(c, s, run[0]) && SoundThroughout(c, Apply(c, s, run[0]), run[1..])))
  }

  lemma {:induction false} SoundExactly(c: Config, s: State, run: seq<Action>)
    requires Sound(s) && Execute(c, s, run).Some?
    ensures SoundThroughout(c, s, run) <==> NoLateReset(c, s, run)
    decreases |run|
  {
    if run != [] {
      var s' := Apply(c, s, run[0]);
      OnlyLateResetBreaks(c, s, run[0]);
      if Sound(s') {
        SoundExactly(c, s', run[1..]);
      }
    }
  }

  /**
   However many Start and Shutdown calls overlap: readiness is sound all along a run exactly when no Shutdown
   ends while the server is ready.
   */
  lemma OverlapIsSoundExactly(c: Config, run: seq<Action>)
    requires Execute(c, INIT, run).Some?
    ensures SoundThroughout(c, INIT, run) <==> NoLateReset(c, INIT, run)
  {
    SoundExactly(c, INIT, run);
  }

  /**
   And that does happen when two Shutdown calls overlap: the second one finishes after the next Start and
   leaves a server that claims to be ready, is not started, and whose open sockets no Shutdown can reach.
   */
  lemma OverlappingShutdownsLeak() returns (run: seq<Action>)
    ensures var c := Config(true, true);
            && Execute(c, INIT, run).Some?
            && var s := Execute(c, INIT, run).value;
               && s.fields.ready && !s.fields.started && s.shutdowns == [] && s.lock.Free?
               && Own(s, Udp) in s.open && Own(s, Tcp) in s.open
               && Apply(c, s, ShutdownEnter).shutdowns == [] && Apply(c, s, ShutdownEnter).open == s.open
  {
    var c := Config(true, true);
    var s;
    run, s := RestartDuringShutdown(c);
    run, s := Extend(c, INIT, run, s, Reset(0));
  }

  /** A second generation that is up while a Shutdown of the first one has still to reset the server. */
  lemma RestartDuringShutdown(c: Config) returns (run: seq<Action>, s: State)
    requires c.overlap && c.configured
    ensures Execute(c, INIT, run) == Some(s) && s.lock.Free? && s.generations == 2
    ensures s.fields == Fields(true, false, Some(1), Some(1), true)
    ensures Socket(1, Udp) in s.open && Socket(1, Tcp) in s.open
    ensures |s.shutdowns| == 1 && s.shutdowns[0].pc.Resetting?
  {
    run, s := HalfClosed(c);
    run, s := LateShutdown(c, run, s);
    run, s := StartUp(c, run, s);
  }

  /** A second Shutdown enters before the first one resets the server. */
  lemma LateShutdown(c: Config, run: seq<Action>, s: State) returns (run': seq<Action>, s': State)
    requires c.overlap && Execute(c, INIT, run) == Some(s) && s.lock.Free? && s.fields.started && |s.shutdowns| == 1
    requires s.shutdowns[0].pc.Resetting?
    ensures Execute(c, INIT, run') == Some(s')
    ensures s'.fields == Fields(false, false, None, None, false) && s'.lock.Free?
    ensures s'.generations == s.generations
    ensures |s'.shutdowns| == 1 && s'.shutdowns[0].pc.Resetting?
  {
    run', s' := Extend(c, INIT, run, s, ShutdownEnter);
    run', s' := Extend(c, INIT, run', s', ShutdownFlag);
    run', s' := Extend(c, INIT, run', s', Close(1));
    run', s' := Extend(c, INIT, run', s', Close(1));
    run', s' := Extend(c, INIT, run', s', Reset(0));
  }

  // ---------- the server object ----------

  /** How the operating system and the DNS library answer during one Start. */
  datatype StartEnv = StartEnv(configured: bool, udpOpens: bool, tcpOpens: bool, udpStarts: bool, tcpStarts: bool)

  /** The whole of Start when nothing interleaves with it: fields, open sockets, success. */
  function RunStart(f: Fields, open: set<Socket>, g: Generation, env: StartEnv): (Fields, set<Socket>, bool) {
    if f.started || f.shuttingDown || !env.configured || !env.udpOpens then (f, open, false)
    else if !env.tcpOpens then (f, open + {Socket(g, Udp)} - {Socket(g, Udp)}, false)
    else
      var both := open + {Socket(g, Udp)} + {Socket(g, Tcp)};
      if !env.udpStarts || !env.tcpStarts then (STOPPED, both - {Socket(g, Udp), Socket(g, Tcp)}, false)
      else (Fields(true, false, Some(g), Some(g), true), both, true)
  }

  class SocketTable {
    var open: set<Socket>

    method Listen(socket: Socket, ok: bool)
      modifies this
      ensures open == if ok then old(open) + {socket} else old(open)
    {
      if ok {
        open := open + {socket};
      }
    }

    method Close(socket: Socket)
      modifies this
      ensures open == old(open) - {socket}
    {
      open := open - {socket};
    }
  }

  class Server {
    var started: bool
    var shuttingDown: bool
    var udpServer: Option<Generation>
    var tcpServer: Option<Generation>
    var ready: bool

    constructor ()
      ensures View() == STOPPED
    {
      started, shuttingDown, udpServer, tcpServer, ready := false, false, None, None, false;
    }

    function View(): Fields
      reads this
    {
      Fields(started, shuttingDown, udpServer, tcpServer, ready)
    }

    method Start(sockets: SocketTable, g: Generation, env: StartEnv) returns (ok: bool)
      modifies this, sockets
      ensures (View(), sockets.open, ok) == RunStart(old(View()), old(sockets.open), g, env)
    {
      if started || shuttingDown || !env.configured {
        return false;
      }
      sockets.Listen(Socket(g, Udp), env.udpOpens);
      if !env.udpOpens {
        return false;
      }
      sockets.Listen(Socket(g, Tcp), env.tcpOpens);
      if !env.tcpOpens {
        sockets.Close(Socket(g, Udp));
        return false;
      }
      udpServer, tcpServer := Some(g), Some(g);
      if !env.udpStarts {
        RollBackStartup(sockets, g);
        return false;
      }
      if !env.tcpStarts {
        RollBackStartup(sockets, g);
        return false;
      }
      started := true;
      ready := true;
      ok := true;
    }

    method RollBackStartup(sockets: SocketTable, g: Generation)
      modifies this, sockets
      ensures View() == STOPPED && sockets.open == old(sockets.open) - {Socket(g, Udp), Socket(g, Tcp)}
    {
      ready := false;
      started := false;
      shuttingDown := false;
      udpServer, tcpServer := None, None;
      sockets.Close(Socket(g, Udp));
      sockets.Close(Socket(g, Tcp));
    }

    /** Not ready from the first statement on; `closing` says whether there is a server to stop. */
    method BeginShutdown() returns (closing: bool, udp: Option<Generation>, tcp: Option<Generation>)
      modifies this
      ensures closing == old(started) && (closing ==> (udp, tcp) == (old(udpServer), old(tcpServer)))
      ensures View() == old(View()).(ready := false, shuttingDown := old(started) || old(shuttingDown))
    {
      udp, tcp := None, None;
      if !started {
        ready := false;
        return false, udp, tcp;
      }
      ready := false;
      shuttingDown := true;
      udp, tcp := udpServer, tcpServer;
      closing := true;
    }

    method FinishShutdown()
      modifies this
      ensures View() == STOPPED.(ready := old(ready))
    {
      started := false;
      shuttingDown := false;
      udpServer, tcpServer := None, None;
    }

    /** A Shutdown that nothing interleaves with closes what the server had open and stops it. */
    method Shutdown(sockets: SocketTable)
      requires started || View() == STOPPED.(ready := ready)
      modifies this, sockets
      ensures View() == STOPPED
      ensures sockets.open == Without(Without(old(sockets.open), old(udpServer), Udp), old(tcpServer), Tcp)
    {
      var closing, udp, tcp := BeginShutdown();
      if !closing {
        return;
      }
      if udp.Some? {
        sockets.Close(Socket(udp.value, Udp));
      }
      if tcp.Some? {
        sockets.Close(Socket(tcp.value, Tcp));
      }
      FinishShutdown();
    }
  }

  /** Start of the object is an uninterrupted run of the step-by-step Start, for every answer of the environment. */
  lemma StartIsARun(c: Config, s: State, env: StartEnv) returns (run: seq<Action>, s': State)
    requires s.lock.Free? && c.configured == env.configured
    requires !s.fields.started && !s.fields.shuttingDown ==> s.fields == STOPPED
    requires forall x :: x in s.served + s.ended ==> x.gen < s.generations
    ensures Execute(c, s, run) == Some(s') && s'.lock.Free?
    ensures (s'.fields, s'.open, s'.fields.started && !s.fields.started)
         == RunStart(s.fields, s.open, s.generations, env)
  {
    assert Execute(c, s, []) == Some(s);
    run, s' := Extend(c, s, [], s, StartEnter);
    if s'.lock.Free? {
      return;
    }
    run, s' := Extend(c, s, run, s', Open(env.udpOpens));
    if !env.udpOpens {
      return;
    }
    run, s' := Extend(c, s, run, s', Open(env.tcpOpens));
    if !env.tcpOpens {
      return;
    }
    run, s' := Extend(c, s, run, s', Publish);
    if env.udpStarts && env.tcpStarts {
      run, s' := Extend(c, s, run, s', Await(true));
      run, s' := Extend(c, s, run, s', Await(true));
      run, s' := Extend(c, s, run, s', MarkStarted);
      run, s' := Extend(c, s, run, s', StoreReady);
      run, s' := Extend(c, s, run, s', Spawn);
    } else {
      run, s' := FailedStartup(c, s, run, s', env.udpStarts);
    }
  }

  /** One of the listeners ends before it has reported its start. */
  lemma FailedStartup(c: Config, origin: State, run: seq<Action>, s: State, udpStarts: bool)
    returns (run': seq<Action>, s': State)
    requires Execute(c, origin, run) == Some(s) && s.lock == Starting(AwaitingUdp)
    requires {Own(s, Udp), Own(s, Tcp)} <= s.served && Own(s, Udp) !in s.ended && Own(s, Tcp) !in s.ended
    ensures Execute(c, origin, run') == Some(s') && s'.lock.Free?
    ensures s'.fields == STOPPED && s'.open == s.open - {Own(s, Udp), Own(s, Tcp)}
  {
    run', s' := run, s;
    if udpStarts {
      run', s' := Extend(c, origin, run', s', Await(true));
      run', s' := Extend(c, origin, run', s', ListenerEnds(Own(s, Tcp)));
    } else {
      run', s' := Extend(c, origin, run', s', ListenerEnds(Own(s, Udp)));
    }
    run', s' := Extend(c, origin, run', s', Await(false));
    run', s' := Extend(c, origin, run', s', RollBack);
  }
}
