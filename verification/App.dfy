/**
 App.Run: the order in which the two servers are started, rolled back and stopped, with every goroutine
 of both of them running in between.
 */
module App {
  import opened Wrappers
  import Dns
  import Health

  datatype Pc =
    | StartingDns
    | StartingHealth
    | RollingBack
    | AwaitingSignal
    | StoppingHealth
    | StoppingDns
    | Returned(ok: bool)

  /** `called`: the call that belongs to the program point has been made. */
  datatype State = State(pc: Pc, called: bool, healthStarted: bool, dns: Dns.State, health: Health.State)

  const INIT := State(StartingDns, false, false, Dns.INIT, Health.INIT)

  datatype Action = DnsStep(dnsAction: Dns.Action) | HealthStep(healthAction: Health.Action) | Proceed

  /** Nothing in the DNS server prevents overlapping Shutdown calls; it is Run that makes only one. */
  function DnsConfig(configured: bool): Dns.Config {
    Dns.Config(true, configured)
  }

  predicate DnsIdle(s: State) {
    s.dns.lock.Free? && s.dns.shutdowns == []
  }

  predicate HealthShutdownOver(s: State) {
    forall t :: 0 <= t < |s.health.threads| ==>
                  !s.health.threads[t].ShutdownWaiting? && !s.health.threads[t].ShutdownReturned?
  }

  predicate Enabled(configured: bool, s: State, a: Action) {
    match a
    case DnsStep(d) =>
      && Dns.Enabled(DnsConfig(configured), s.dns, d)
      && (d.StartEnter? ==> s.pc.StartingDns? && !s.called)
      && (d.ShutdownEnter? ==> (s.pc.RollingBack? || s.pc.StoppingDns?) && !s.called)
    case HealthStep(h) =>
      && Health.Enabled(s.health, h)
      && (h.Start? ==> s.pc.StartingHealth? && !s.called)
      && (h.Shutdown? ==> s.pc.StoppingHealth? && !s.called)
    case Proceed =>
      match s.pc
      case StartingDns => s.called && DnsIdle(s)
      case StartingHealth => s.called
      case RollingBack => s.called && DnsIdle(s)
      case AwaitingSignal => true
      case StoppingHealth => s.called && HealthShutdownOver(s)
      case StoppingDns => s.called && DnsIdle(s)
      case Returned(_) => false
  }

  function Next(s: State): Pc {
    match s.pc
    case StartingDns => if s.dns.fields.started then StartingHealth else Returned(false)
    case StartingHealth => if s.healthStarted then AwaitingSignal else RollingBack
    case RollingBack => Returned(false)
    case AwaitingSignal => StoppingHealth
    case StoppingHealth => StoppingDns
    case StoppingDns => Returned(true)
    case Returned(ok) => Returned(ok)
  }

  function Apply(configured: bool, s: State, a: Action): State
    requires Enabled(configured, s, a)
  {
    match a
    case DnsStep(d) =>
      s.(dns := Dns.Apply(DnsConfig(configured), s.dns, d), called := s.called || d.StartEnter? || d.ShutdownEnter?)
    case HealthStep(h) =>
      s.(health := Health.Apply(s.health, h), called := s.called || h.Start? || h.Shutdown?,
         healthStarted := if h.Start?
                          then Health.StartSection(s.health.fields, h.binds, |s.health.threads|).1.Started?
                          else s.healthStarted)
    case Proceed => s.(pc := Next(s), called := false)
  }

  function Execute(configured: bool, s: State, run: seq<Action>): Option<State>
    decreases |run|
  {
    if run == [] then Some(s)
    else if Enabled(configured, s, run[0]) then Execute(configured, Apply(configured, s, run[0]), run[1..])
    else None
  }

  // ---------- invariant ----------

  /** The DNS server has come up and nobody has asked it to stop. */
  predicate DnsUp(d: Dns.State) {
    d.lock.Free? && d.fields.started && !d.fields.shuttingDown
  }

  predicate DnsDown(d: Dns.State) {
    d.lock.Free? && d.fields == Dns.STOPPED && d.open == {} && d.shutdowns == []
  }

  /** Its one Shutdown has been called. */
  predicate DnsClosing(d: Dns.State) {
    !d.lock.Starting? && !d.fields.ready && (d.lock.Free? && d.shutdowns == [] ==> !d.fields.started)
  }

  ghost predicate Program(s: State) {
    match s.pc
    case StartingDns =>
      && s.health == Health.INIT && s.dns.shutdowns == [] && !s.dns.lock.Flagging?
      && (!s.called ==> s.dns == Dns.INIT)
    case StartingHealth =>
      && DnsUp(s.dns)
      && (!s.called || !s.healthStarted ==> s.health == Health.INIT)
    case RollingBack =>
      && s.health == Health.INIT && (if s.called then DnsClosing(s.dns) else DnsUp(s.dns))
    case AwaitingSignal => DnsUp(s.dns)
    case StoppingHealth => DnsUp(s.dns)
    case StoppingDns =>
      && (if s.called then DnsClosing(s.dns) else DnsUp(s.dns))
    case Returned(_) => DnsDown(s.dns)
  }

  /** The one generation of the health server is published and ready until the clean-up after its Serve. */
  predicate HealthUp(h: Health.State) {
    && |h.threads| == 1
    && if h.threads[0].Finished? then h.fields == Health.Fields(None, None, false)
       else Health.Serves(h.threads[0], 0) && h.fields == Health.Fields(Some(0), Some(0), true)
  }

  /** From the successful Start of the health server to the call of its Shutdown. */
  predicate AfterHealthStart(s: State) {
    || s.pc.AwaitingSignal? || (s.pc.StartingHealth? && s.called && s.healthStarted)
    || (s.pc.StoppingHealth? && !s.called)
  }

  /** The health server has at most the goroutine that serves it and the one Shutdown of Run. */
  ghost predicate HealthProgram(s: State) {
    var h := s.health;
    && |h.threads| <= 2
    && (s.pc.StartingHealth? && !s.called ==> h == Health.INIT)
    && (s.pc.StartingHealth? || s.pc.AwaitingSignal? || (s.pc.StoppingHealth? && !s.called) ==> |h.threads| <= 1)
    && (s.pc.StoppingHealth? && s.called ==>
          && !h.fields.ready
          && (h.fields.server.Some? ==>
                |h.threads| == 2 && (h.threads[1].ShutdownWaiting? || h.threads[1].ShutdownReturned?)
                && h.fields.server == Some(h.threads[1].gen)))
    && (s.pc.StoppingDns? || s.pc.Returned? ==> h.fields == Health.Fields(None, None, false))
    && (AfterHealthStart(s) ==> HealthUp(h))
  }

  /** One generation of listeners only, so no observer is stale, and readiness is exact while the server is up. */
  ghost predicate Readiness(d: Dns.State) {
    && d.generations <= 1
    && (DnsUp(d) && !d.fields.ready ==> OwnEnded(d))
    && (d.lock.Starting? || d.generations == 0 ==> d.observers == [])
    && (d.lock == Dns.Starting(Dns.Spawning) ==> d.fields.ready)
  }

  predicate OwnEnded(d: Dns.State) {
    Dns.Own(d, Dns.Udp) in d.ended || Dns.Own(d, Dns.Tcp) in d.ended
  }

  /** Run reports success exactly if the health server, and before it the DNS server, has started. */
  predicate Reports(s: State) {
    && (s.healthStarted ==> |s.health.threads| >= 1)
    && (!s.healthStarted ==> s.health == Health.INIT)
    && match s.pc
       case StartingDns => !s.healthStarted
       case StartingHealth => s.healthStarted ==> s.called
       case RollingBack => !s.healthStarted
       case AwaitingSignal => s.healthStarted
       case StoppingHealth => s.healthStarted
       case StoppingDns => s.healthStarted
       case Returned(ok) => ok == s.healthStarted
  }

  ghost predicate Inv(s: State) {
    Dns.Inv(s.dns) && Health.Inv(s.health) && Program(s) && HealthProgram(s) && Readiness(s.dns) && Reports(s)
  }

  lemma StepServers(configured: bool, s: State, a: Action)
    requires Inv(s) && Enabled(configured, s, a)
    ensures Dns.Inv(Apply(configured, s, a).dns) && Health.Inv(Apply(configured, s, a).health)
  {
    match a {
      case DnsStep(d) =>
        if d.ShutdownEnter? {
          assert Dns.Stages(s.dns);
        }
        Dns.StepInv(DnsConfig(configured), s.dns, d);
      case HealthStep(h) => Health.StepInv(s.health, h);
      case Proceed =>
    }
  }

  lemma DnsStays(c: Dns.Config, d: Dns.State, a: Dns.Action)
    requires Dns.Inv(d) && Dns.Enabled(c, d, a) && !a.ShutdownEnter?
    ensures DnsUp(d) ==> DnsUp(Dns.Apply(c, d, a))
    ensures DnsClosing(d) && !a.StartEnter? ==> DnsClosing(Dns.Apply(c, d, a))
    ensures DnsDown(d) && !a.StartEnter? ==> DnsDown(Dns.Apply(c, d, a))
  {
    assert Dns.Stages(d);
  }

  lemma ShutdownCloses(c: Dns.Config, d: Dns.State)
    requires Dns.Inv(d) && Dns.Enabled(c, d, Dns.ShutdownEnter) && DnsUp(d)
    ensures DnsClosing(Dns.Apply(c, d, Dns.ShutdownEnter))
  {
  }

  lemma StoppedIsDown(d: Dns.State)
    requires Dns.Inv(d) && d.lock.Free? && !d.fields.started
    ensures DnsDown(d)
  {
    assert Dns.Stages(d) && Dns.Sockets(d);
  }

  lemma StartStays(c: Dns.Config, d: Dns.State, a: Dns.Action)
    requires Dns.Inv(d) && Dns.Enabled(c, d, a) && !a.ShutdownEnter?
    requires d.shutdowns == [] && !d.lock.Flagging?
    ensures var d' := Dns.Apply(c, d, a); d'.shutdowns == [] && !d'.lock.Flagging?
  {
  }

  lemma DnsProgram(configured: bool, s: State, d: Dns.Action)
    requires Inv(s) && Enabled(configured, s, DnsStep(d))
    ensures Program(Apply(configured, s, DnsStep(d)))
  {
    if d.ShutdownEnter? {
      ShutdownProgram(configured, s);
    } else if s.pc.StartingDns? {
      StartStays(DnsConfig(configured), s.dns, d);
    } else {
      RunningProgram(configured, s, d);
    }
  }

  lemma ShutdownProgram(configured: bool, s: State)
    requires Dns.Inv(s.dns) && Program(s) && Enabled(configured, s, DnsStep(Dns.ShutdownEnter))
    ensures Program(Apply(configured, s, DnsStep(Dns.ShutdownEnter)))
  {
    ShutdownCloses(DnsConfig(configured), s.dns);
  }

  lemma RunningProgram(configured: bool, s: State, d: Dns.Action)
    requires Dns.Inv(s.dns) && Program(s) && Enabled(configured, s, DnsStep(d))
    requires !s.pc.StartingDns? && !d.ShutdownEnter?
    ensures Program(Apply(configured, s, DnsStep(d)))
  {
    DnsStays(DnsConfig(configured), s.dns, d);
  }

  lemma ProceedProgram(configured: bool, s: State)
    requires Inv(s) && Enabled(configured, s, Proceed)
    ensures Program(Apply(configured, s, Proceed))
  {
    assert Dns.Stages(s.dns);
    if s.dns.lock.Free? && !s.dns.fields.started {
      StoppedIsDown(s.dns);
    }
  }

  lemma StepProgram(configured: bool, s: State, a: Action)
    requires Inv(s) && Enabled(configured, s, a)
    ensures Program(Apply(configured, s, a))
  {
    match a {
      case DnsStep(d) => DnsProgram(configured, s, d);
      case HealthStep(h) =>
      case Proceed => ProceedProgram(configured, s);
    }
  }

  lemma StepHealthProgram(configured: bool, s: State, a: Action)
    requires Inv(s) && Enabled(configured, s, a)
    ensures HealthProgram(Apply(configured, s, a))
  {
    match a {
      case DnsStep(d) =>
        // DnsStep sets `called` only where the health server has not been started or has been stopped
        assert Apply(configured, s, a).health == s.health;
      case HealthStep(h) => HealthStepProgram(configured, s, h);
      case Proceed => assert Apply(configured, s, a).health == s.health;
    }
  }

  lemma HealthStepProgram(configured: bool, s: State, h: Health.Action)
    requires Health.Inv(s.health) && Program(s) && HealthProgram(s) && Enabled(configured, s, HealthStep(h))
    ensures HealthProgram(Apply(configured, s, HealthStep(h)))
  {
  }

  lemma DnsReadiness(c: Dns.Config, d: Dns.State, a: Dns.Action)
    requires Dns.Inv(d) && Readiness(d) && Dns.Enabled(c, d, a)
    requires a.StartEnter? ==> d.generations == 0
    ensures Readiness(Dns.Apply(c, d, a))
  {
    assert Dns.Stages(d) && Dns.Observers(d);
    if a.StoreNotReady? {
      Dns.OwnSockets(d, d.observers[a.observer].socket);
    }
  }

  lemma StepReadiness(configured: bool, s: State, a: Action)
    requires Inv(s) && Enabled(configured, s, a)
    ensures Readiness(Apply(configured, s, a).dns)
  {
    if a.DnsStep? {
      DnsReadiness(DnsConfig(configured), s.dns, a.dnsAction);
    }
  }

  lemma StepReports(configured: bool, s: State, a: Action)
    requires Reports(s) && HealthProgram(s) && Enabled(configured, s, a)
    ensures Reports(Apply(configured, s, a))
  {
  }

  lemma {:induction false} ExecuteInv(configured: bool, s: State, run: seq<Action>)
    requires Inv(s)
    ensures Execute(configured, s, run).Some? ==> Inv(Execute(configured, s, run).value)
    decreases |run|
  {
    if run != [] && Enabled(configured, s, run[0]) {
      StepServers(configured, s, run[0]);
      StepProgram(configured, s, run[0]);
      StepHealthProgram(configured, s, run[0]);
      StepReadiness(configured, s, run[0]);
      StepReports(configured, s, run[0]);
      ExecuteInv(configured, Apply(configured, s, run[0]), run[1..]);
    }
  }

  /**
   In every state of every run of the application: while it waits for the signal, the DNS server is up and the health
   server is published and ready unless its Serve has returned; the health server is ready only while the DNS server is
   up and not being stopped; while the DNS server is up it reports not ready only if one of its listeners
   has ended; at most one Shutdown of it is in flight; and when Run returns, whether after a failed start,
   a rollback or a shutdown, both servers are stopped and no DNS socket is left open, and it reports success exactly
   if a generation of the health server has run.
   */
  lemma RunIsOrderly(configured: bool, run: seq<Action>)
    requires Execute(configured, INIT, run).Some?
    ensures var s := Execute(configured, INIT, run).value;
            && (s.health.fields.ready ==> DnsUp(s.dns))
            && (DnsUp(s.dns) && !s.dns.fields.ready ==> OwnEnded(s.dns))
            && |s.dns.shutdowns| <= 1
            && (s.pc.AwaitingSignal? ==> DnsUp(s.dns) && HealthUp(s.health))
            && (s.pc.Returned? ==> DnsDown(s.dns) && s.health.fields == Health.Fields(None, None, false))
            && (s.pc.Returned? ==> (s.pc.ok <==> s.health.threads != []))
  {
    ExecuteInv(configured, INIT, run);
    assert Dns.Stages(Execute(configured, INIT, run).value.dns);
  }

  // ---------- Run on the server objects ----------

  datatype Call = StartDns | StartHealth | ShutdownHealth | ShutdownDns

  class Application {
    const dnsServer: Dns.Server
    const healthServer: Health.Server
    const sockets: Dns.SocketTable

    constructor (dnsServer: Dns.Server, healthServer: Health.Server, sockets: Dns.SocketTable)
      ensures this.dnsServer == dnsServer && this.healthServer == healthServer && this.sockets == sockets
    {
      this.dnsServer, this.healthServer, this.sockets := dnsServer, healthServer, sockets;
    }

    /**
     Run when nothing interleaves with it: what was started is stopped in reverse order, and in every
     case both servers are stopped and the sockets are what they were before.
     */
    method Run(env: Dns.StartEnv, healthBinds: bool) returns (ok: bool, calls: seq<Call>)
      requires dnsServer.View() == Dns.STOPPED && healthServer.View() == Health.Fields(None, None, false)
      requires Dns.Socket(0, Dns.Udp) !in sockets.open && Dns.Socket(0, Dns.Tcp) !in sockets.open
      modifies dnsServer, healthServer, sockets
      ensures dnsServer.View() == Dns.STOPPED && healthServer.View() == Health.Fields(None, None, false)
      ensures sockets.open == old(sockets.open)
      ensures ok <==> healthBinds && env.configured && env.udpOpens && env.tcpOpens && env.udpStarts && env.tcpStarts
      ensures calls ==
              if !(env.configured && env.udpOpens && env.tcpOpens && env.udpStarts && env.tcpStarts) then [StartDns]
              else if !healthBinds then [StartDns, StartHealth, ShutdownDns]
              else [StartDns, StartHealth, ShutdownHealth, ShutdownDns]
    {
      calls := [StartDns];
      var started := dnsServer.Start(sockets, 0, env);
      if !started {
        return false, calls;
      }
      calls := calls + [StartHealth];
      var result := healthServer.Start(healthBinds, 0);
      if !result.Started? {
        calls := calls + [ShutdownDns];
        dnsServer.Shutdown(sockets);
        return false, calls;
      }
      calls := calls + [ShutdownHealth];
      healthServer.Shutdown();
      calls := calls + [ShutdownDns];
      dnsServer.Shutdown(sockets);
      ok := true;
    }
  }
}
