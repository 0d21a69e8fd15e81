/** What one handler has done: its operations, together with running totals of them. */
module Journal {
  import opened Metrics

  /** A sequence of operations, the last one outermost. */
  datatype Trace = Start | Then(before: Trace, op: Op)

  /** The counters after these operations. */
  function After(c: Counters, trace: Trace): Counters {
    match trace
    case Start => c
    case Then(before, Add(counter, amount)) => After(c, before).Plus(counter, amount)
    case Then(before, Write(_)) => After(c, before)
  }

  /** The messages among the operations. */
  function Written(trace: Trace): seq<Message> {
    match trace
    case Start => []
    case Then(before, op) => Written(before) + if op.Write? then [op.message] else []
  }

  /** Linear combinations of counters. */
  datatype Quantity =
    | Excess     // requests in total, minus those counted per network
    | Slack      // requests, invalid requests and panics, minus responses
    | Reserve    // SERVFAIL responses, minus upstream timeouts and errors
    | Responses
    | Panics

  function Value(q: Quantity, c: Counters): int {
    match q
    case Excess => c.requestsTotal - c.requestsUdp - c.requestsTcp
    case Slack => c.requestsTotal + c.invalidRequests + c.handlerPanics - c.Responses()
    case Reserve => c.servFail - c.upstreamTimeouts - c.upstreamErrors
    case Responses => c.Responses()
    case Panics => c.handlerPanics
  }

  /** The last operation is the first of the two increments of a request. */
  predicate HalfCounted(trace: Trace) {
    trace.Then? && trace.op == Add(RequestsTotal, 1)
  }

  /** Responses are covered, and the network of a request is missing only between its two increments. */
  predicate Balanced(c: Counters, halfCounted: bool) {
    Value(Slack, c) >= 0 && Value(Excess, c) == if halfCounted then 1 else 0
  }

  predicate Steady(trace: Trace) {
    Balanced(After(ZERO, trace), HalfCounted(trace))
  }

  /** The operations and all their prefixes are balanced. */
  predicate Sane(trace: Trace) {
    Steady(trace) && (trace.Then? ==> Sane(trace.before))
  }

  /** A trace with running totals: the counters and messages it amounts to, and whether it is sane. */
  datatype Log = Log(trace: Trace, counters: Counters, messages: seq<Message>, sane: bool)
  {
    function Add(counter: Counter, amount: int): Log {
      var c := counters.Plus(counter, amount);
      Log(Then(trace, Op.Add(counter, amount)), c, messages,
          sane && Balanced(c, counter.RequestsTotal? && amount == 1))
    }

    function Write(m: Message): Log {
      Log(Then(trace, Op.Write(m)), counters, messages + [m], sane && Balanced(counters, false))
    }

    /** The running totals are right. */
    ghost predicate Valid() {
      counters == After(ZERO, trace) && messages == Written(trace) && (sane <==> Sane(trace))
    }
  }

  const EMPTY := Log(Start, ZERO, [], true)

  lemma StartIsSane(trace: Trace)
    requires trace.Start?
    ensures Sane(trace)
  {
  }

  lemma StartIsValid(log: Log)
    requires log.trace.Start? && log.counters == ZERO && log.messages == [] && log.sane
    ensures log.Valid()
  {
    StartIsSane(log.trace);
  }

  lemma AddIsValid(log: Log, counter: Counter, amount: int)
    requires log.Valid()
    ensures log.Add(counter, amount).Valid()
  {
  }

  lemma WriteIsValid(log: Log, m: Message)
    requires log.Valid()
    ensures log.Write(m).Valid()
  {
  }
}
