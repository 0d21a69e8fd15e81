/** What the shared counters say about the handlers, in every state that any interleaving can reach. */
module LedgerLaws {
  import opened HandlerFlow
  import opened HandlerLaws
  import opened Journal
  import opened Ledger
  import opened Metrics
  import opened Wrappers

  /** Handlers that have counted their request in the total, but not yet for its network. */
  function BetweenAdds(handlers: seq<Running>): nat
    requires AllValid(handlers)
  {
    if handlers == [] then 0
    else
      (if HalfCounted(handlers[0].Done()) then 1 else 0) + BetweenAdds(handlers[1..])
  }

  /** Handlers whose request is not nil. */
  function RealRequests(handlers: seq<Running>): nat {
    if handlers == [] then 0
    else (if handlers[0].env.request.Some? then 1 else 0) + RealRequests(handlers[1..])
  }

  /** Handlers whose WriteMsg panicked after the response was counted. */
  function WritePanics(handlers: seq<Running>): nat {
    if handlers == [] then 0
    else (if WritePanicked(handlers[0].env) then 1 else 0) + WritePanics(handlers[1..])
  }

  ghost predicate Finished(h: Running) {
    h.left == 0
  }

  /** Every handler has finished, and none was given a nil writer. */
  ghost predicate Quiescent(handlers: seq<Running>) {
    forall i :: 0 <= i < |handlers| ==> Finished(handlers[i]) && !handlers[i].env.writer.NoWriter?
  }

  ghost predicate Programs(start: Log, handlers: seq<Running>) {
    forall i :: 0 <= i < |handlers| ==> handlers[i].program == Handle(start, handlers[i].env).trace
  }

  ghost predicate ArriveWith(start: Log, run: seq<Action>) {
    forall i :: 0 <= i < |run| && run[i].Arrive? ==> run[i].program == Handle(start, run[i].env).trace
  }

  /** Every handler that arrives runs ServeDNS in its environment. */
  ghost predicate Genuine(run: seq<Action>) {
    ArriveWith(EMPTY, run)
  }

  /** What the law of one handler says about the part of it that has been performed. */
  ghost predicate Fine(h: Running)
    requires h.Valid()
  {
    && Steady(h.Done())
    && (Finished(h) ==> Lawful(h.env, After(ZERO, h.Done()), Written(h.Done())))
  }

  ghost predicate AllFine(handlers: seq<Running>) {
    forall i :: 0 <= i < |handlers| ==> handlers[i].Valid() && Fine(handlers[i])
  }

  lemma PrefixLaw(start: Log, h: Running)
    requires Fresh(start) && h.Valid() && h.program == Handle(start, h.env).trace
    ensures Fine(h)
  {
    HandlerLaw(start, h.env);
    SteadyPrefix(h.program, h.left);
  }

  lemma ProgramsAreFine(start: Log, handlers: seq<Running>)
    requires Fresh(start) && AllValid(handlers) && Programs(start, handlers)
    ensures AllFine(handlers)
  {
    forall i | 0 <= i < |handlers| ensures Fine(handlers[i]) {
      PrefixLaw(start, handlers[i]);
    }
  }

  lemma {:induction false} PrefixSums(handlers: seq<Running>)
    requires AllValid(handlers) && AllFine(handlers)
    ensures SumAll(Excess, handlers) == BetweenAdds(handlers) && SumAll(Slack, handlers) >= 0
  {
    if handlers != [] {
      assert Fine(handlers[0]);
      PrefixSums(handlers[1..]);
    }
  }

  lemma {:induction false} FinalSums(handlers: seq<Running>)
    requires AllValid(handlers) && AllFine(handlers) && Quiescent(handlers)
    ensures SumAll(Reserve, handlers) >= 0
    ensures SumAll(Responses, handlers) == RealRequests(handlers) + WritePanics(handlers)
    ensures WritePanics(handlers) <= SumAll(Panics, handlers)
  {
    if handlers != [] {
      assert Fine(handlers[0]);
      FinalSums(handlers[1..]);
    }
  }

  lemma BookedAt(q: Quantity, s: State)
    requires Inv(s)
    ensures Value(q, s.counters) == SumAll(q, s.handlers)
  {
  }

  lemma FinalValues(s: State)
    requires Inv(s) && AllFine(s.handlers) && Quiescent(s.handlers)
    ensures Value(Reserve, s.counters) >= 0
    ensures Value(Responses, s.counters) == RealRequests(s.handlers) + WritePanics(s.handlers)
    ensures WritePanics(s.handlers) <= Value(Panics, s.counters)
  {
    FinalSums(s.handlers);
    BookedAt(Reserve, s);
    BookedAt(Responses, s);
    BookedAt(Panics, s);
  }

  lemma StartInv(s: State)
    requires s.counters == ZERO && s.handlers == [] && s.sent == []
    ensures Inv(s)
  {
    forall q ensures Value(q, s.counters) == SumAll(q, s.handlers) {
      NothingCounted(q, s.counters);
    }
  }

  lemma StepPrograms(start: Log, s: State, a: Action)
    requires Programs(start, s.handlers) && Enabled(s, a)
    requires a.Arrive? ==> a.program == Handle(start, a.env).trace
    ensures Programs(start, Apply(s, a).handlers)
  {
    var before, after := s.handlers, Apply(s, a).handlers;
    forall j | 0 <= j < |after| ensures after[j].program == Handle(start, after[j].env).trace {
      if j < |before| {
        assert after[j].program == before[j].program && after[j].env == before[j].env;
      }
    }
  }

  lemma {:induction false} ExecutePrograms(start: Log, s: State, run: seq<Action>)
    requires Programs(start, s.handlers) && ArriveWith(start, run) && Execute(s, run).Some?
    ensures Programs(start, Execute(s, run).value.handlers)
    decreases |run|
  {
    if run != [] {
      StepPrograms(start, s, run[0]);
      ExecutePrograms(start, Apply(s, run[0]), run[1..]);
    }
  }

  lemma Reaches(start: Log, s: State, run: seq<Action>)
    requires Fresh(start) && ArriveWith(start, run)
    requires s.counters == ZERO && s.handlers == [] && s.sent == [] && Execute(s, run).Some?
    ensures var s' := Execute(s, run).value; Inv(s') && AllFine(s'.handlers)
  {
    StartInv(s);
    ExecuteInv(s, run);
    ExecutePrograms(start, s, run);
    ProgramsAreFine(start, Execute(s, run).value.handlers);
  }

  lemma Reachable(run: seq<Action>)
    requires Genuine(run) && Execute(INIT, run).Some?
    ensures var s := Execute(INIT, run).value; Inv(s) && AllFine(s.handlers)
  {
    Reaches(EMPTY, INIT, run);
  }

  /** In every state the total exceeds the counts per network by the handlers between the two increments. */
  lemma RequestsPerNetwork(run: seq<Action>)
    requires Genuine(run) && Execute(INIT, run).Some?
    ensures var s := Execute(INIT, run).value;
            && AllValid(s.handlers)
            && s.counters.requestsTotal - (s.counters.requestsUdp + s.counters.requestsTcp) == BetweenAdds(s.handlers)
  {
    Reachable(run);
    var s := Execute(INIT, run).value;
    PrefixSums(s.handlers);
    BookedAt(Excess, s);
  }

  /** In every state responses are covered by requests, invalid requests and panics. */
  lemma ResponsesCovered(run: seq<Action>)
    requires Genuine(run) && Execute(INIT, run).Some?
    ensures var c := Execute(INIT, run).value.counters;
            c.Responses() <= c.requestsTotal + c.invalidRequests + c.handlerPanics
  {
    Reachable(run);
    var s := Execute(INIT, run).value;
    PrefixSums(s.handlers);
    BookedAt(Slack, s);
  }

  lemma QuiescentValues(run: seq<Action>)
    requires Genuine(run) && Execute(INIT, run).Some? && Quiescent(Execute(INIT, run).value.handlers)
    ensures var s := Execute(INIT, run).value;
            && Value(Reserve, s.counters) >= 0
            && Value(Responses, s.counters) == RealRequests(s.handlers) + WritePanics(s.handlers)
            && WritePanics(s.handlers) <= Value(Panics, s.counters)
  {
    Reachable(run);
    FinalValues(Execute(INIT, run).value);
  }

  lemma {:induction false} NoWritePanics(handlers: seq<Running>)
    ensures WritePanics(handlers) == 0 <==> forall i :: 0 <= i < |handlers| ==> !WritePanicked(handlers[i].env)
  {
    if handlers != [] {
      NoWritePanics(handlers[1..]);
      assert forall i :: 0 < i < |handlers| ==> handlers[i] == handlers[1..][i - 1];
    }
  }

  lemma Readings(c: Counters, requests: int, panics: int)
    requires Value(Reserve, c) >= 0 && Value(Responses, c) == requests + panics && panics <= Value(Panics, c)
    ensures c.Responses() == requests + panics && panics <= c.handlerPanics
    ensures c.upstreamTimeouts + c.upstreamErrors <= c.servFail
  {
  }

  /**
   When all handlers have finished, responses are the real requests, each counted a second time exactly if its
   WriteMsg panicked (no other panic does that), and every upstream failure has its SERVFAIL.
   */
  lemma QuiescentLedger(run: seq<Action>)
    requires Genuine(run) && Execute(INIT, run).Some? && Quiescent(Execute(INIT, run).value.handlers)
    ensures var s := Execute(INIT, run).value;
            && s.counters.Responses() == RealRequests(s.handlers) + WritePanics(s.handlers)
            && WritePanics(s.handlers) <= s.counters.handlerPanics
            && (s.counters.Responses() == RealRequests(s.handlers) <==>
                  forall i :: 0 <= i < |s.handlers| ==> !WritePanicked(s.handlers[i].env))
            && s.counters.upstreamTimeouts + s.counters.upstreamErrors <= s.counters.servFail
  {
    QuiescentValues(run);
    var s := Execute(INIT, run).value;
    Readings(s.counters, RealRequests(s.handlers), WritePanics(s.handlers));
    NoWritePanics(s.handlers);
  }

  /**
   Whatever the other handlers do, a finished handler with a writer has made exactly one call of WriteMsg that did
   not panic, with a message that carries the ID of the request (section 4.1.1 of RFC 1035); for a nil request none.
   */
  lemma AnsweredOnce(run: seq<Action>, i: nat)
    requires Genuine(run) && Execute(INIT, run).Some? && i < |Execute(INIT, run).value.handlers|
    requires Finished(Execute(INIT, run).value.handlers[i])
    requires !Execute(INIT, run).value.handlers[i].env.writer.NoWriter?
    ensures var s := Execute(INIT, run).value;
            var messages, request := SentBy(s.sent, i), s.handlers[i].env.request;
            if request.None? then messages == [] else |messages| == 1 && messages[0].id == request.value.id
  {
    Reachable(run);
    var s := Execute(INIT, run).value;
    assert Fine(s.handlers[i]);
    assert SentBy(s.sent, i) == Written(s.handlers[i].Done());
  }

  function Alone(i: nat, n: nat): seq<Action> {
    if n == 0 then [] else Alone(i, n - 1) + [Step(i)]
  }

  lemma {:induction false} ExecuteAppend(s: State, run: seq<Action>, a: Action)
    requires Execute(s, run).Some? && Enabled(Execute(s, run).value, a)
    ensures Execute(s, run + [a]) == Some(Apply(Execute(s, run).value, a))
    decreases |run|
  {
    if run == [] {
      assert run + [a] == [a] && [a][1..] == [];
    } else {
      ExecuteAppend(Apply(s, run[0]), run[1..], a);
      assert (run + [a])[1..] == run[1..] + [a];
    }
  }

  /** What a handler has done brings the counters from c to the present ones. */
  ghost predicate Explained(c: Counters, s: State, i: nat) {
    i < |s.handlers| && s.handlers[i].Valid() && s.counters == After(c, s.handlers[i].Done())
  }

  lemma StepAlone(c: Counters, s: State, i: nat)
    requires Explained(c, s, i) && s.handlers[i].left > 0
    ensures Enabled(s, Step(i)) && Explained(c, Apply(s, Step(i)), i)
    ensures Apply(s, Step(i)).handlers[i] == s.handlers[i].Advanced()
  {
    DropOne(s.handlers[i].program, s.handlers[i].left);
  }

  /** Handlers take no notice of each other: one that is left alone changes the counters like the sequential code. */
  lemma {:induction false} AloneIsSequential(c: Counters, s: State, i: nat, n: nat)
    requires Explained(c, s, i) && n <= s.handlers[i].left
    ensures Execute(s, Alone(i, n)).Some? && Explained(c, Execute(s, Alone(i, n)).value, i)
    ensures Execute(s, Alone(i, n)).value.handlers[i] == s.handlers[i].(left := s.handlers[i].left - n)
  {
    if n > 0 {
      AloneIsSequential(c, s, i, n - 1);
      var s' := Execute(s, Alone(i, n - 1)).value;
      StepAlone(c, s', i);
      ExecuteAppend(s, Alone(i, n - 1), Step(i));
    }
  }

  /** Arriving and then running alone is ServeDNS: the counters end where its program takes them. */
  lemma ArrivingAlone(s: State, env: Env, program: Trace)
    ensures var i, arrived := |s.handlers|, Apply(s, Arrive(env, program));
            var end := Execute(arrived, Alone(i, Length(program)));
            end.Some? && end.value.counters == After(s.counters, program)
  {
    var i, arrived, n := |s.handlers|, Apply(s, Arrive(env, program)), Length(program);
    DropAll(program);
    assert Explained(s.counters, arrived, i);
    AloneIsSequential(s.counters, arrived, i, n);
  }
}
