/**
 Any number of DNS handlers running at the same time, each performing its operations one by one in any
 interleaving with the others, and the books they keep together.
 */
module Ledger {
  import opened HandlerFlow
  import opened Journal
  import opened Metrics
  import opened Wrappers

  function Length(trace: Trace): nat {
    if trace.Start? then 0 else 1 + Length(trace.before)
  }

  /** The trace without its last n operations. */
  function Drop(trace: Trace, n: nat): Trace
    requires n <= Length(trace)
  {
    if n == 0 then trace else Drop(trace.before, n - 1)
  }

  /** A handler with its program, of which the last `left` operations are still to be performed. */
  datatype Running = Running(env: Env, program: Trace, left: nat)
  {
    predicate Valid() {
      left <= Length(program)
    }

    function Done(): Trace
      requires Valid()
    {
      Drop(program, left)
    }

    function Advanced(): Running
      requires Valid() && left > 0
    {
      Running(env, program, left - 1)
    }
  }

  datatype State = State(counters: Counters, handlers: seq<Running>, sent: seq<(nat, Message)>)

  datatype Action = Arrive(env: Env, program: Trace) | Step(handler: nat)

  const INIT := State(ZERO, [], [])

  predicate Enabled(s: State, a: Action) {
    a.Step? ==> a.handler < |s.handlers| && s.handlers[a.handler].Valid() && s.handlers[a.handler].left > 0
  }

  lemma {:induction false} DropOne(trace: Trace, n: nat)
    requires 0 < n <= Length(trace)
    ensures Drop(trace, n - 1).Then? && Drop(trace, n - 1).before == Drop(trace, n)
  {
    if n > 1 {
      DropOne(trace.before, n - 1);
    }
  }

  function NextOp(h: Running): Op
    requires h.Valid() && h.left > 0
  {
    DropOne(h.program, h.left);
    h.Advanced().Done().op
  }

  function Apply(s: State, a: Action): State
    requires Enabled(s, a)
  {
    match a
    case Arrive(env, program) => s.(handlers := s.handlers + [Running(env, program, Length(program))])
    case Step(i) =>
      var h := s.handlers[i];
      var moved := s.(handlers := s.handlers[i := h.Advanced()]);
      match NextOp(h)
      case Add(counter, amount) => moved.(counters := s.counters.Plus(counter, amount))
      case Write(m) => moved.(sent := s.sent + [(i, m)])
  }

  function Execute(s: State, run: seq<Action>): Option<State>
    decreases |run|
  {
    if run == [] then Some(s)
    else if Enabled(s, run[0]) then Execute(Apply(s, run[0]), run[1..])
    else None
  }

  // ---------- the books ----------

  /** What a handler has contributed to a quantity. */
  function Sum(q: Quantity, trace: Trace): int {
    Value(q, After(ZERO, trace))
  }

  ghost predicate AllValid(handlers: seq<Running>) {
    forall i :: 0 <= i < |handlers| ==> handlers[i].Valid()
  }

  function SumAll(q: Quantity, handlers: seq<Running>): int
    requires AllValid(handlers)
  {
    if handlers == [] then 0 else Sum(q, handlers[0].Done()) + SumAll(q, handlers[1..])
  }

  function SentBy(sent: seq<(nat, Message)>, i: nat): seq<Message> {
    if sent == [] then []
    else SentBy(sent[..|sent| - 1], i) + if sent[|sent| - 1].0 == i then [sent[|sent| - 1].1] else []
  }

  /** The record of messages holds exactly what the handlers have written. */
  ghost predicate SentRight(s: State)
    requires AllValid(s.handlers)
  {
    && (forall i :: 0 <= i < |s.handlers| ==> SentBy(s.sent, i) == Written(s.handlers[i].Done()))
    && (forall j :: 0 <= j < |s.sent| ==> s.sent[j].0 < |s.handlers|)
  }

  /** The counters and the messages hold exactly what the handlers have done. */
  ghost predicate Inv(s: State) {
    AllValid(s.handlers) && SentRight(s) && forall q :: Value(q, s.counters) == SumAll(q, s.handlers)
  }

  /** What one increment adds to a quantity, wherever it is made. */
  function Weight(q: Quantity, c: Counter, n: int): int {
    match q
    case Excess => if c.RequestsTotal? then n else if c.RequestsUdp? || c.RequestsTcp? then -n else 0
    case Slack =>
      if c.RequestsTotal? || c.InvalidRequests? || c.HandlerPanics? then n else if IsResponse(c) then -n else 0
    case Reserve => if c.ServFail? then n else if c.UpstreamTimeouts? || c.UpstreamErrors? then -n else 0
    case Responses => if IsResponse(c) then n else 0
    case Panics => if c.HandlerPanics? then n else 0
  }

  lemma PlusAdds(q: Quantity, c: Counters, counter: Counter, n: int)
    ensures Value(q, c.Plus(counter, n)) == Value(q, c) + Weight(q, counter, n)
  {
  }

  lemma AfterThen(c: Counters, trace: Trace, op: Op)
    ensures After(c, Then(trace, op))
         == if op.Add? then After(c, trace).Plus(op.counter, op.amount) else After(c, trace)
  {
  }

  lemma SumThen(q: Quantity, trace: Trace, op: Op)
    ensures Sum(q, Then(trace, op)) == Sum(q, trace) + if op.Add? then Weight(q, op.counter, op.amount) else 0
  {
    AfterThen(ZERO, trace, op);
    if op.Add? {
      PlusAdds(q, After(ZERO, trace), op.counter, op.amount);
    }
  }

  lemma {:induction false} SumAllUpdate(q: Quantity, handlers: seq<Running>, i: nat, h: Running)
    requires AllValid(handlers) && i < |handlers| && h.Valid()
    ensures SumAll(q, handlers[i := h]) == SumAll(q, handlers) + Sum(q, h.Done()) - Sum(q, handlers[i].Done())
  {
    if i == 0 {
      assert handlers[i := h][1..] == handlers[1..];
    } else {
      SumAllUpdate(q, handlers[1..], i - 1, h);
      assert handlers[i := h][1..] == handlers[1..][i - 1 := h];
    }
  }

  lemma {:induction false} SumAllAppend(q: Quantity, handlers: seq<Running>, h: Running)
    requires AllValid(handlers) && h.Valid()
    ensures SumAll(q, handlers + [h]) == SumAll(q, handlers) + Sum(q, h.Done())
  {
    if handlers == [] {
      assert (handlers + [h])[1..] == [];
    } else {
      SumAllAppend(q, handlers[1..], h);
      assert (handlers + [h])[1..] == handlers[1..] + [h];
    }
  }

  lemma {:induction false} SentByNobody(sent: seq<(nat, Message)>, i: nat)
    requires forall j :: 0 <= j < |sent| ==> sent[j].0 != i
    ensures SentBy(sent, i) == []
  {
    if sent != [] {
      SentByNobody(sent[..|sent| - 1], i);
    }
  }

  lemma {:induction false} DropAll(trace: Trace)
    ensures Drop(trace, Length(trace)) == Start
  {
    if trace.Then? {
      DropAll(trace.before);
    }
  }

  lemma ArriveInv(s: State, h: Running)
    requires Inv(s) && h.Valid() && h.Done() == Start
    ensures Inv(s.(handlers := s.handlers + [h]))
  {
    forall q ensures Value(q, s.counters) == SumAll(q, s.handlers + [h]) {
      SumAllAppend(q, s.handlers, h);
    }
    SentByNobody(s.sent, |s.handlers|);
  }

  lemma StepSum(q: Quantity, s: State, i: nat)
    requires Inv(s) && Enabled(s, Step(i)) && AllValid(Apply(s, Step(i)).handlers)
    ensures Value(q, Apply(s, Step(i)).counters) == SumAll(q, Apply(s, Step(i)).handlers)
  {
    StepValue(q, s, i);
    StepSumAll(q, s, i);
  }

  function OpWeight(q: Quantity, op: Op): int {
    if op.Add? then Weight(q, op.counter, op.amount) else 0
  }

  lemma StepValue(q: Quantity, s: State, i: nat)
    requires Enabled(s, Step(i))
    ensures Value(q, Apply(s, Step(i)).counters) == Value(q, s.counters) + OpWeight(q, NextOp(s.handlers[i]))
  {
    var op := NextOp(s.handlers[i]);
    if op.Add? {
      PlusAdds(q, s.counters, op.counter, op.amount);
    }
  }

  lemma StepSumAll(q: Quantity, s: State, i: nat)
    requires AllValid(s.handlers) && Enabled(s, Step(i)) && AllValid(Apply(s, Step(i)).handlers)
    ensures SumAll(q, Apply(s, Step(i)).handlers) == SumAll(q, s.handlers) + OpWeight(q, NextOp(s.handlers[i]))
  {
    AdvancedSum(q, s.handlers[i]);
    SumAllUpdate(q, s.handlers, i, s.handlers[i].Advanced());
  }

  lemma AdvancedSum(q: Quantity, h: Running)
    requires h.Valid() && h.left > 0
    ensures Sum(q, h.Advanced().Done()) == Sum(q, h.Done()) + OpWeight(q, NextOp(h))
  {
    AdvancedDone(h);
    SumThen(q, h.Done(), NextOp(h));
  }

  lemma AdvancedDone(h: Running)
    requires h.Valid() && h.left > 0
    ensures h.Advanced().Done() == Then(h.Done(), NextOp(h))
  {
    DropOne(h.program, h.left);
  }

  lemma StepSent(s: State, i: nat)
    requires Inv(s) && Enabled(s, Step(i)) && AllValid(Apply(s, Step(i)).handlers)
    ensures SentRight(Apply(s, Step(i)))
  {
    var s', h := Apply(s, Step(i)), s.handlers[i];
    DropOne(h.program, h.left);
    forall j | 0 <= j < |s'.handlers| ensures SentBy(s'.sent, j) == Written(s'.handlers[j].Done()) {
      if NextOp(h).Write? {
        assert s'.sent[..|s.sent|] == s.sent;
      }
    }
  }

  lemma StepInv(s: State, i: nat)
    requires Inv(s) && Enabled(s, Step(i))
    ensures Inv(Apply(s, Step(i)))
  {
    StepSent(s, i);
    var s' := Apply(s, Step(i));
    forall q ensures Value(q, s'.counters) == SumAll(q, s'.handlers) {
      StepSum(q, s, i);
    }
  }

  lemma {:induction false} ExecuteInv(s: State, run: seq<Action>)
    requires Inv(s)
    ensures Execute(s, run).Some? ==> Inv(Execute(s, run).value)
    decreases |run|
  {
    if run != [] && Enabled(s, run[0]) {
      match run[0] {
        case Arrive(env, program) =>
          DropAll(program);
          ArriveInv(s, Running(env, program, Length(program)));
        case Step(i) => StepInv(s, i);
      }
      ExecuteInv(Apply(s, run[0]), run[1..]);
    }
  }

  lemma SaneBefore(trace: Trace)
    requires Sane(trace) && trace.Then?
    ensures Sane(trace.before)
  {
  }

  lemma DropBefore(trace: Trace, n: nat)
    requires 0 < n <= Length(trace)
    ensures Drop(trace, n) == Drop(trace.before, n - 1)
  {
  }

  lemma {:induction false} SteadyPrefix(trace: Trace, n: nat)
    requires Sane(trace) && n <= Length(trace)
    ensures Steady(Drop(trace, n))
  {
    if n > 0 {
      SaneBefore(trace);
      SteadyPrefix(trace.before, n - 1);
      DropBefore(trace, n);
    }
  }
}
