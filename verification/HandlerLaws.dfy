/** The laws of one handler, for every request and every environment. */
module HandlerLaws {
  import opened HandlerFlow
  import opened Journal
  import opened Metrics
  import opened Wrappers

  // ---------- the running totals are right ----------

  lemma WriteValid(log: Log, m: Message, result: WriteResult)
    requires log.Valid()
    ensures WriteSteps(log, m, result).log.Valid()
  {
    WriteIsValid(log, m);
    AddIsValid(log.Write(m), WriteErrors, 1);
  }

  lemma ErrorValid(log: Log, e: Env, responseCode: int, result: WriteResult)
    requires log.Valid()
    ensures ErrorSteps(log, e, responseCode, result).log.Valid()
  {
    if e.request.Some? {
      var counter := ResponseCounter(responseCode);
      AddIsValid(log, counter, 1);
      WriteValid(log.Add(counter, 1), Message(e.request.value.id, responseCode), result);
    }
  }

  lemma FailureValid(log: Log, e: Env, counter: Counter)
    requires log.Valid()
    ensures UpstreamFailureSteps(log, e, counter).log.Valid()
  {
    AddIsValid(log, counter, 1);
    ErrorValid(log.Add(counter, 1), e, SERVER_FAILURE, e.write);
  }

  lemma AnswerValid(log: Log, e: Env, responseCode: int)
    requires log.Valid() && e.request.Some?
    ensures AnswerSteps(log, e, responseCode).log.Valid()
  {
    var counter := ResponseCounter(responseCode);
    AddIsValid(log, counter, 1);
    WriteValid(log.Add(counter, 1), Message(e.request.value.id, responseCode), e.write);
  }

  lemma LatencyValid(log: Log, latency: int)
    requires log.Valid()
    ensures LatencyLog(log, latency).Valid()
  {
    AddIsValid(log, LatencyNanoseconds, latency);
    AddIsValid(log.Add(LatencyNanoseconds, latency), LatencySamples, 1);
  }

  lemma ExchangeValid(log: Log, e: Env)
    requires log.Valid() && e.request.Some?
    ensures ExchangeSteps(log, e).log.Valid()
  {
    if !e.exchange.ExchangePanics? {
      var timed := LatencyLog(log, e.exchange.latency);
      LatencyValid(log, e.exchange.latency);
      match e.exchange {
        case ExchangeFails(_, timeout) => FailureValid(timed, e, if timeout then UpstreamTimeouts else UpstreamErrors);
        case NoAnswer(_) => FailureValid(timed, e, UpstreamErrors);
        case Answers(_, responseCode) => AnswerValid(timed, e, responseCode);
      }
    }
  }

  lemma ForwardValid(log: Log, e: Env)
    requires log.Valid() && e.request.Some?
    ensures ForwardSteps(log, e).log.Valid()
  {
    var network := if e.writer.TcpWriter? then RequestsTcp else RequestsUdp;
    AddIsValid(log, RequestsTotal, 1);
    AddIsValid(log.Add(RequestsTotal, 1), network, 1);
    var counted := RequestLog(log, e.writer.TcpWriter?);
    if e.forwarder {
      ExchangeValid(counted, e);
    } else {
      FailureValid(counted, e, UpstreamErrors);
    }
  }

  lemma ServeValid(log: Log, e: Env)
    requires log.Valid()
    ensures ServeSteps(log, e).log.Valid()
  {
    if e.request.None? || e.request.value.questions == 0 {
      AddIsValid(log, InvalidRequests, 1);
      ErrorValid(log.Add(InvalidRequests, 1), e, FORMAT_ERROR, e.write);
    } else if e.writer.NoWriter? || !e.addressPanics {
      ForwardValid(log, e);
    }
  }

  lemma RecoverValid(log: Log, e: Env)
    requires log.Valid()
    ensures RecoverSteps(log, e).log.Valid()
  {
    AddIsValid(log, HandlerPanics, 1);
    ErrorValid(log.Add(HandlerPanics, 1), e, SERVER_FAILURE, if e.recoveryWriteFails then WriteFails else WriteOk);
  }

  /** The running totals of a handler are right. */
  lemma HandleValid(log: Log, e: Env)
    requires log.Valid()
    ensures Handle(log, e).Valid()
  {
    ServeValid(log, e);
    RecoverValid(ServeSteps(log, e).log, e);
  }

  // ---------- what the pieces of the flow add up to ----------

  /** Sane operations that do not end between the two increments of a request. */
  predicate Closed(log: Log) {
    log.sane && Balanced(log.counters, false)
  }

  /** What a piece of the flow adds to the quantities and to the messages. */
  ghost predicate Adds(before: Log, after: Log, slack: int, reserve: int, responses: int, messages: seq<Message>) {
    && Closed(after)
    && Value(Slack, after.counters) == Value(Slack, before.counters) + slack
    && Value(Reserve, after.counters) == Value(Reserve, before.counters) + reserve
    && Value(Responses, after.counters) == Value(Responses, before.counters) + responses
    && Value(Panics, after.counters) == Value(Panics, before.counters)
    && after.messages == before.messages + messages
  }

  lemma WriteAdds(log: Log, m: Message, result: WriteResult)
    requires Closed(log)
    ensures Adds(log, WriteSteps(log, m, result).log, 0, 0, 0, if result.WritePanics? then [] else [m])
  {
  }

  lemma ErrorAdds(log: Log, e: Env, responseCode: int, result: WriteResult)
    requires Closed(log) && Value(Slack, log.counters) >= 1 && !e.writer.NoWriter? && e.request.Some?
    ensures Adds(log, ErrorSteps(log, e, responseCode, result).log, -1, if responseCode == 2 then 1 else 0, 1,
                 if result.WritePanics? then [] else [Message(e.request.value.id, responseCode)])
  {
    WriteAdds(log.Add(ResponseCounter(responseCode), 1), Message(e.request.value.id, responseCode), result);
  }

  lemma FailureAdds(log: Log, e: Env, counter: Counter)
    requires Closed(log) && Value(Slack, log.counters) >= 1 && !e.writer.NoWriter? && e.request.Some?
    requires counter.UpstreamTimeouts? || counter.UpstreamErrors?
    ensures Adds(log, UpstreamFailureSteps(log, e, counter).log, -1, 0, 1,
                 if e.write.WritePanics? then [] else [Message(e.request.value.id, SERVER_FAILURE)])
  {
    ErrorAdds(log.Add(counter, 1), e, SERVER_FAILURE, e.write);
  }

  lemma AnswerAdds(log: Log, e: Env, responseCode: int)
    requires Closed(log) && Value(Slack, log.counters) >= 1 && !e.writer.NoWriter? && e.request.Some?
    ensures Adds(log, AnswerSteps(log, e, responseCode).log, -1, if responseCode == 2 then 1 else 0, 1,
                 if e.write.WritePanics? then [] else [Message(e.request.value.id, responseCode)])
  {
    WriteAdds(log.Add(ResponseCounter(responseCode), 1), Message(e.request.value.id, responseCode), e.write);
  }

  /** One message, with the ID of the request. */
  ghost predicate Answered(before: Log, after: Log, id: int) {
    |after.messages| == |before.messages| + 1 && after.messages[|before.messages|].id == id
  }

  function Requests(e: Env): int {
    if e.request.Some? then 1 else 0
  }

  /** With a writer, WriteMsg is called for the response, which is counted by then. */
  predicate ReachesWrite(e: Env) {
    && e.request.Some?
    && (e.request.value.questions > 0 ==> !e.addressPanics && (e.forwarder ==> !e.exchange.ExchangePanics?))
  }

  predicate WritePanicked(e: Env) {
    ReachesWrite(e) && e.write.WritePanics?
  }

  /** What the flow has done when it ends or panics. With a writer one that gets to the write panics there or not at all. */
  ghost predicate Flow(e: Env, before: Log, s: Steps, writing: bool) {
    && Closed(s.log)
    && (s.panicked ==> e.request.Some?)
    && Value(Panics, s.log.counters) == Value(Panics, before.counters)
    && (!e.writer.NoWriter? ==> FlowWithWriter(e, before, s, writing))
  }

  ghost predicate FlowWithWriter(e: Env, before: Log, s: Steps, writing: bool) {
    && (writing ==> (s.panicked <==> e.write.WritePanics?))
    && Value(Reserve, s.log.counters) >= Value(Reserve, before.counters)
    && Value(Responses, s.log.counters) - Value(Responses, before.counters)
         == (if s.panicked && !writing then 0 else Requests(e))
    && if s.panicked || e.request.None? then s.log.messages == before.messages
       else Answered(before, s.log, e.request.value.id)
  }

  /** A piece that ends a flow, after one that only counts. */
  lemma FlowAfter(e: Env, before: Log, counted: Log, slack: int, s: Steps, writing: bool)
    requires Adds(before, counted, slack, 0, 0, []) && Flow(e, counted, s, writing)
    ensures Flow(e, before, s, writing)
  {
  }

  lemma FailureFlow(log: Log, e: Env, counter: Counter)
    requires Closed(log) && Value(Slack, log.counters) >= 1 && e.request.Some?
    requires counter.UpstreamTimeouts? || counter.UpstreamErrors?
    ensures Flow(e, log, UpstreamFailureSteps(log, e, counter), true)
  {
    if !e.writer.NoWriter? {
      FailureAdds(log, e, counter);
    }
  }

  lemma AnswerFlow(log: Log, e: Env, responseCode: int)
    requires Closed(log) && Value(Slack, log.counters) >= 1 && e.request.Some?
    ensures Flow(e, log, AnswerSteps(log, e, responseCode), true)
  {
    if !e.writer.NoWriter? {
      AnswerAdds(log, e, responseCode);
    }
  }

  lemma LatencyAdds(log: Log, latency: int)
    requires Closed(log)
    ensures Adds(log, LatencyLog(log, latency), 0, 0, 0, [])
  {
  }

  lemma RequestAdds(log: Log, tcp: bool)
    requires Closed(log)
    ensures Adds(log, RequestLog(log, tcp), 1, 0, 0, [])
  {
  }

  lemma ExchangeFlow(log: Log, e: Env)
    requires Closed(log) && Value(Slack, log.counters) >= 1 && e.request.Some?
    ensures Flow(e, log, ExchangeSteps(log, e), !e.exchange.ExchangePanics?)
  {
    if e.exchange.ExchangePanics? {
      return;
    }
    var timed := LatencyLog(log, e.exchange.latency);
    LatencyAdds(log, e.exchange.latency);
    match e.exchange {
      case ExchangeFails(_, timeout) => FailureFlow(timed, e, if timeout then UpstreamTimeouts else UpstreamErrors);
      case NoAnswer(_) => FailureFlow(timed, e, UpstreamErrors);
      case Answers(_, responseCode) => AnswerFlow(timed, e, responseCode);
    }
    FlowAfter(e, log, timed, 0, ExchangeSteps(log, e), true);
  }

  lemma InvalidFlow(log: Log, e: Env)
    requires Closed(log)
    ensures Flow(e, log, InvalidSteps(log, e), e.request.Some?)
  {
    var counted := log.Add(InvalidRequests, 1);
    if e.request.Some? && !e.writer.NoWriter? {
      ErrorAdds(counted, e, FORMAT_ERROR, e.write);
    }
  }

  lemma ForwardFlow(log: Log, e: Env)
    requires Closed(log) && e.request.Some?
    ensures Flow(e, log, ForwardSteps(log, e), e.forwarder ==> !e.exchange.ExchangePanics?)
  {
    var counted := RequestLog(log, e.writer.TcpWriter?);
    RequestAdds(log, e.writer.TcpWriter?);
    if e.forwarder {
      ExchangeFlow(counted, e);
    } else {
      FailureFlow(counted, e, UpstreamErrors);
    }
    FlowAfter(e, log, counted, 1, ForwardSteps(log, e), e.forwarder ==> !e.exchange.ExchangePanics?);
  }

  lemma ServeFlow(log: Log, e: Env)
    requires Closed(log)
    ensures Flow(e, log, ServeSteps(log, e), ReachesWrite(e))
  {
    if e.request.None? || e.request.value.questions == 0 {
      InvalidFlow(log, e);
    } else if e.writer.NoWriter? || !e.addressPanics {
      ForwardFlow(log, e);
    }
  }

  /** What a handler has done when it is finished, its recovery included. */
  ghost predicate Lawful(e: Env, counters: Counters, messages: seq<Message>) {
    !e.writer.NoWriter? ==>
      && Value(Reserve, counters) >= 0
      && Value(Responses, counters) == Requests(e) + (if WritePanicked(e) then 1 else 0)
      && Value(Panics, counters) >= (if WritePanicked(e) then 1 else 0)
      && if e.request.None? then messages == [] else |messages| == 1 && messages[0].id == e.request.value.id
  }

  /** Nothing has happened yet. */
  ghost predicate Blank(log: Log) {
    && Closed(log) && log.messages == []
    && Value(Slack, log.counters) == Value(Reserve, log.counters) == 0
    && Value(Responses, log.counters) == Value(Panics, log.counters) == 0
  }

  lemma PanicAdds(log: Log)
    requires Closed(log)
    ensures var counted := log.Add(HandlerPanics, 1);
            && Closed(counted) && counted.messages == log.messages
            && Value(Slack, counted.counters) == Value(Slack, log.counters) + 1
            && Value(Reserve, counted.counters) == Value(Reserve, log.counters)
            && Value(Responses, counted.counters) == Value(Responses, log.counters)
            && Value(Panics, counted.counters) == Value(Panics, log.counters) + 1
  {
  }

  lemma RecoverFlow(start: Log, s: Steps, e: Env)
    requires Blank(start) && Flow(e, start, s, ReachesWrite(e)) && s.panicked
    ensures RecoverSteps(s.log, e).log.sane
    ensures Lawful(e, RecoverSteps(s.log, e).log.counters, RecoverSteps(s.log, e).log.messages)
  {
    PanicAdds(s.log);
    if !e.writer.NoWriter? {
      ErrorAdds(s.log.Add(HandlerPanics, 1), e, SERVER_FAILURE, if e.recoveryWriteFails then WriteFails else WriteOk);
    }
  }

  lemma EndedFlow(start: Log, s: Steps, e: Env)
    requires Blank(start) && Flow(e, start, s, ReachesWrite(e)) && !s.panicked
    ensures Lawful(e, s.log.counters, s.log.messages)
  {
  }

  lemma HandleLaw(start: Log, e: Env)
    requires Blank(start)
    ensures Handle(start, e).sane && Lawful(e, Handle(start, e).counters, Handle(start, e).messages)
  {
    var s := ServeSteps(start, e);
    ServeFlow(start, e);
    if s.panicked {
      RecoverFlow(start, s, e);
    } else {
      EndedFlow(start, s, e);
    }
  }

  predicate Fresh(log: Log) {
    log.trace.Start? && log.counters == ZERO && log.messages == [] && log.sane
  }

  lemma NothingCounted(q: Quantity, c: Counters)
    requires c == ZERO
    ensures Value(q, c) == 0
  {
  }

  lemma FreshIsBlank(log: Log)
    requires Fresh(log)
    ensures Blank(log)
  {
    NothingCounted(Excess, log.counters);
    NothingCounted(Slack, log.counters);
    NothingCounted(Reserve, log.counters);
    NothingCounted(Responses, log.counters);
    NothingCounted(Panics, log.counters);
  }

  /**
   Every request in every environment: all prefixes of the handler's operations are balanced, and with a writer
   they amount to one response for a request that is not nil (two if its WriteMsg panics), to a SERVFAIL for each
   upstream failure, and to exactly one message, with the ID of the request.
   */
  lemma HandlerLaw(start: Log, e: Env)
    requires Fresh(start)
    ensures Sane(Handle(start, e).trace)
    ensures Lawful(e, After(ZERO, Handle(start, e).trace), Written(Handle(start, e).trace))
  {
    FreshIsBlank(start);
    StartIsValid(start);
    HandleValid(start, e);
    HandleLaw(start, e);
  }
}
