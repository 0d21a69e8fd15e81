/** Nothing is lost between handlers: the shared counters are the sum of what each handler does on its own. */
module LedgerTotals {
  import opened HandlerFlow
  import opened HandlerLaws
  import opened HandlerOutcomes
  import opened Journal
  import opened Ledger
  import opened LedgerLaws
  import opened Metrics
  import opened Wrappers

  function SumOf(zero: Counters, parts: seq<Counters>): Counters {
    if parts == [] then zero else Combined(parts[0], SumOf(zero, parts[1..]))
  }

  /** What each handler has counted so far. */
  function Parts(zero: Counters, handlers: seq<Running>): seq<Counters>
    requires AllValid(handlers)
  {
    seq(|handlers|, i requires 0 <= i < |handlers| => After(zero, handlers[i].Done()))
  }

  /** The outcome of each request. */
  function Outcomes(handlers: seq<Running>): seq<Counters> {
    seq(|handlers|, i requires 0 <= i < |handlers| => Increments(handlers[i].env))
  }

  ghost predicate AllFinished(handlers: seq<Running>) {
    forall i :: 0 <= i < |handlers| ==> Finished(handlers[i])
  }

  lemma CombinedPlusLeft(c: Counters, d: Counters, counter: Counter, n: int)
    ensures Combined(c.Plus(counter, n), d) == Combined(c, d).Plus(counter, n)
  {
  }

  lemma {:induction false} SumAfterPlus(zero: Counters, parts: seq<Counters>, i: nat, counter: Counter, n: int)
    requires i < |parts|
    ensures SumOf(zero, parts[i := parts[i].Plus(counter, n)]) == SumOf(zero, parts).Plus(counter, n)
  {
    var changed := parts[i := parts[i].Plus(counter, n)];
    if i == 0 {
      assert changed[1..] == parts[1..];
      CombinedPlusLeft(parts[0], SumOf(zero, parts[1..]), counter, n);
    } else {
      assert changed[1..] == parts[1..][i - 1 := parts[i].Plus(counter, n)];
      SumAfterPlus(zero, parts[1..], i - 1, counter, n);
      CombinedPlus(parts[0], SumOf(zero, parts[1..]), counter, n);
    }
  }

  lemma {:induction false} SumWithZero(zero: Counters, parts: seq<Counters>)
    requires zero == ZERO
    ensures SumOf(zero, parts + [zero]) == SumOf(zero, parts)
  {
    if parts == [] {
      assert (parts + [zero])[1..] == [];
      CombinedWithZero(zero, zero);
    } else {
      assert (parts + [zero])[1..] == parts[1..] + [zero];
      SumWithZero(zero, parts[1..]);
    }
  }

  /** The counters are what the handlers have counted. */
  ghost predicate Booked(zero: Counters, s: State) {
    AllValid(s.handlers) && s.counters == SumOf(zero, Parts(zero, s.handlers))
  }

  lemma {:induction false} PartsOfArrival(zero: Counters, handlers: seq<Running>, h: Running)
    requires AllValid(handlers) && h.Valid() && After(zero, h.Done()) == zero
    ensures AllValid(handlers + [h]) && Parts(zero, handlers + [h]) == Parts(zero, handlers) + [zero]
  {
  }

  lemma BookedArrival(zero: Counters, s: State, env: Env, program: Trace)
    requires zero == ZERO && Booked(zero, s)
    ensures Booked(zero, Apply(s, Arrive(env, program)))
  {
    var h := Running(env, program, Length(program));
    assert h.Valid() && After(zero, h.Done()) == zero by {
      DropAll(program);
    }
    PartsOfArrival(zero, s.handlers, h);
    SumWithZero(zero, Parts(zero, s.handlers));
  }

  lemma BookedStep(zero: Counters, s: State, i: nat)
    requires Booked(zero, s) && Enabled(s, Step(i))
    ensures Booked(zero, Apply(s, Step(i)))
  {
    var h, op, parts := s.handlers[i], NextOp(s.handlers[i]), Parts(zero, s.handlers);
    var parts' := Parts(zero, Apply(s, Step(i)).handlers);
    AdvancedDone(h);
    if op.Add? {
      assert parts' == parts[i := parts[i].Plus(op.counter, op.amount)];
      SumAfterPlus(zero, parts, i, op.counter, op.amount);
    } else {
      assert parts' == parts;
    }
  }

  lemma {:induction false} BookedRun(zero: Counters, s: State, run: seq<Action>)
    requires zero == ZERO && Booked(zero, s) && Execute(s, run).Some?
    ensures Booked(zero, Execute(s, run).value)
    decreases |run|
  {
    if run != [] {
      match run[0] {
        case Arrive(env, program) => BookedArrival(zero, s, env, program);
        case Step(i) => BookedStep(zero, s, i);
      }
      BookedRun(zero, Apply(s, run[0]), run[1..]);
    }
  }

  lemma FinishedOutcome(start: Log, h: Running)
    requires Fresh(start) && h.Valid() && Finished(h) && h.program == Handle(start, h.env).trace
    ensures After(start.counters, h.Done()) == Increments(h.env) && Written(h.Done()) == Messages(h.env)
  {
    ServedFrom(start, start.counters, h.env);
    CombinedWithZero(start.counters, Increments(h.env));
  }

  lemma {:induction false} FinishedPart(start: Log, handlers: seq<Running>, i: nat)
    requires Fresh(start) && AllValid(handlers) && Programs(start, handlers) && AllFinished(handlers) && i < |handlers|
    ensures Parts(start.counters, handlers)[i] == Outcomes(handlers)[i]
  {
    assert Finished(handlers[i]);
    FinishedOutcome(start, handlers[i]);
  }

  lemma {:induction false} FinishedParts(start: Log, handlers: seq<Running>)
    requires Fresh(start) && AllValid(handlers) && Programs(start, handlers) && AllFinished(handlers)
    ensures Parts(start.counters, handlers) == Outcomes(handlers)
  {
    var parts, outcomes := Parts(start.counters, handlers), Outcomes(handlers);
    forall i | 0 <= i < |handlers| ensures parts[i] == outcomes[i] {
      FinishedPart(start, handlers, i);
    }
  }

  lemma TotalsOf(start: Log, s: State, run: seq<Action>)
    requires Fresh(start) && ArriveWith(start, run)
    requires s.counters == ZERO && s.handlers == [] && s.sent == [] && Execute(s, run).Some?
    requires AllFinished(Execute(s, run).value.handlers)
    ensures Execute(s, run).value.counters == SumOf(start.counters, Outcomes(Execute(s, run).value.handlers))
  {
    var s' := Execute(s, run).value;
    BookedRun(start.counters, s, run);
    ExecutePrograms(start, s, run);
    FinishedParts(start, s'.handlers);
  }

  /**
   When all handlers have finished, each of the fourteen counters is the sum of the outcomes of the requests, in
   whatever order their operations were interleaved.
   */
  lemma CountersAddUp(run: seq<Action>)
    requires Genuine(run) && Execute(INIT, run).Some? && AllFinished(Execute(INIT, run).value.handlers)
    ensures var s := Execute(INIT, run).value; s.counters == SumOf(ZERO, Outcomes(s.handlers))
  {
    TotalsOf(EMPTY, INIT, run);
  }

  lemma WrittenBy(start: Log, s: State, run: seq<Action>, i: nat)
    requires Fresh(start) && ArriveWith(start, run)
    requires s.counters == ZERO && s.handlers == [] && s.sent == [] && Execute(s, run).Some?
    requires i < |Execute(s, run).value.handlers| && Finished(Execute(s, run).value.handlers[i])
    ensures SentBy(Execute(s, run).value.sent, i) == Messages(Execute(s, run).value.handlers[i].env)
  {
    var s' := Execute(s, run).value;
    Reaches(start, s, run);
    ExecutePrograms(start, s, run);
    FinishedOutcome(start, s'.handlers[i]);
  }

  /** Whatever the other handlers do, a finished handler has written exactly the messages of its outcome. */
  lemma WrittenAsIfAlone(run: seq<Action>, i: nat)
    requires Genuine(run) && Execute(INIT, run).Some? && i < |Execute(INIT, run).value.handlers|
    requires Finished(Execute(INIT, run).value.handlers[i])
    ensures var s := Execute(INIT, run).value; SentBy(s.sent, i) == Messages(s.handlers[i].env)
  {
    WrittenBy(EMPTY, INIT, run, i);
  }
}
