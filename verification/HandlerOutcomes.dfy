/**
 The exact outcome of one request: every counter and every message, told by what happens and not by the steps that
 lead there.
 */
module HandlerOutcomes {
  import opened HandlerFlow
  import opened HandlerLaws
  import opened Journal
  import opened Metrics
  import opened Wrappers

  function One(b: bool): int {
    if b then 1 else 0
  }

  function Combined(a: Counters, b: Counters): Counters {
    Counters(
      a.requestsTotal + b.requestsTotal, a.requestsUdp + b.requestsUdp, a.requestsTcp + b.requestsTcp,
      a.noError + b.noError, a.nxDomain + b.nxDomain, a.servFail + b.servFail, a.otherResponse + b.otherResponse,
      a.upstreamTimeouts + b.upstreamTimeouts, a.upstreamErrors + b.upstreamErrors,
      a.invalidRequests + b.invalidRequests, a.writeErrors + b.writeErrors,
      a.latencyNanoseconds + b.latencyNanoseconds, a.latencySamples + b.latencySamples,
      a.handlerPanics + b.handlerPanics)
  }

  // ---------- what happens to a request ----------

  predicate HasWriter(e: Env) {
    !e.writer.NoWriter?
  }

  /** No request, or one without a question. */
  predicate IsInvalid(e: Env) {
    e.request.Some? ==> e.request.value.questions == 0
  }

  /** Valid, and its network could be told. */
  predicate IsCounted(e: Env) {
    !IsInvalid(e) && (HasWriter(e) ==> !e.addressPanics)
  }

  predicate IsForwarded(e: Env) {
    IsCounted(e) && e.forwarder
  }

  predicate TimesOut(e: Env) {
    IsForwarded(e) && e.exchange.ExchangeFails? && e.exchange.timeout
  }

  /** No forwarder, an error that is no timeout, or no answer. */
  predicate FailsUpstream(e: Env) {
    && IsCounted(e)
    && (!e.forwarder || (e.exchange.ExchangeFails? && !e.exchange.timeout) || e.exchange.NoAnswer?)
  }

  predicate IsAnswered(e: Env) {
    IsForwarded(e) && e.exchange.Answers?
  }

  predicate HasLatency(e: Env) {
    IsForwarded(e) && !e.exchange.ExchangePanics? && e.exchange.latency >= 0
  }

  /** The response code before any recovery: format error 1, server failure 2, or whatever the upstream says. */
  function FirstCode(e: Env): Option<int> {
    if IsAnswered(e) then Some(e.exchange.responseCode)
    else if !HasWriter(e) || e.request.None? then None
    else if IsInvalid(e) then Some(1)
    else if TimesOut(e) || FailsUpstream(e) then Some(2)
    else None
  }

  /** WriteMsg is called for the first response. */
  predicate Writes(e: Env) {
    HasWriter(e) && FirstCode(e).Some?
  }

  /** In the address of the writer, in the exchange, in WriteMsg, or because there is no writer for an answer. */
  predicate HasPanic(e: Env) {
    || (!IsInvalid(e) && HasWriter(e) && e.addressPanics)
    || (IsForwarded(e) && e.exchange.ExchangePanics?)
    || (Writes(e) && e.write.WritePanics?)
    || (IsAnswered(e) && !HasWriter(e))
  }

  /** A recovered panic is answered with a server failure, if there is a writer. */
  predicate Recovers(e: Env) {
    HasPanic(e) && HasWriter(e)
  }

  // ---------- what is counted for it ----------

  function RequestIncrements(e: Env): Counters {
    ZERO.(requestsTotal := One(IsCounted(e)),
          requestsUdp := One(IsCounted(e) && !e.writer.TcpWriter?),
          requestsTcp := One(IsCounted(e) && e.writer.TcpWriter?),
          invalidRequests := One(IsInvalid(e)))
  }

  function UpstreamIncrements(e: Env): Counters {
    ZERO.(upstreamTimeouts := One(TimesOut(e)),
          upstreamErrors := One(FailsUpstream(e)),
          latencyNanoseconds := if HasLatency(e) then e.exchange.latency else 0,
          latencySamples := One(HasLatency(e)))
  }

  function ResponseIncrements(e: Env): Counters {
    var code := FirstCode(e);
    ZERO.(noError := One(code == Some(0)),
          nxDomain := One(code == Some(3)),
          servFail := One(code == Some(2)),
          otherResponse := One(code.Some? && code.value != 0 && code.value != 2 && code.value != 3),
          writeErrors := One(Writes(e) && e.write.WriteFails?))
  }

  /** What the recovery counts: the panic, and with a writer a server failure and a write that fails. */
  function RecoveryIncrements(e: Env): Counters {
    ZERO.(servFail := One(Recovers(e)),
          writeErrors := One(Recovers(e) && e.recoveryWriteFails),
          handlerPanics := One(HasPanic(e)))
  }

  function Increments(e: Env): Counters {
    Combined(Combined(Combined(RequestIncrements(e), UpstreamIncrements(e)), ResponseIncrements(e)), RecoveryIncrements(e))
  }

  /** The calls of WriteMsg that do not panic: the first response, and that of the recovery. */
  function NormalMessages(e: Env): seq<Message> {
    if Writes(e) && !e.write.WritePanics? then [Message(e.request.value.id, FirstCode(e).value)] else []
  }

  function RecoveryMessages(e: Env): seq<Message> {
    if Recovers(e) then [Message(e.request.value.id, 2)] else []
  }

  function Messages(e: Env): seq<Message> {
    NormalMessages(e) + RecoveryMessages(e)
  }

  // ---------- the handler does that ----------

  ghost predicate Reached(before: Log, after: Log, d: Counters, messages: seq<Message>) {
    after.counters == Combined(before.counters, d) && after.messages == before.messages + messages
  }

  lemma ReachedTwice(a: Log, b: Log, c: Log, d: Counters, d': Counters, m: seq<Message>, m': seq<Message>)
    requires Reached(a, b, d, m) && Reached(b, c, d', m')
    ensures Reached(a, c, Combined(d, d'), m + m')
  {
  }

  lemma InvalidCounted(log: Log, e: Env)
    requires IsInvalid(e)
    ensures Reached(log, log.Add(InvalidRequests, 1), RequestIncrements(e), [])
    ensures Reached(log.Add(InvalidRequests, 1), log.Add(InvalidRequests, 1), UpstreamIncrements(e), [])
  {
  }

  lemma NotCounted(log: Log, e: Env)
    requires !IsInvalid(e) && !IsCounted(e)
    ensures Reached(log, log, RequestIncrements(e), []) && Reached(log, log, UpstreamIncrements(e), [])
    ensures Reached(log, log, ResponseIncrements(e), NormalMessages(e))
  {
  }

  lemma RequestCounted(log: Log, e: Env)
    requires IsCounted(e)
    ensures Reached(log, RequestLog(log, e.writer.TcpWriter?), RequestIncrements(e), [])
  {
  }

  lemma LatencyCounted(log: Log, latency: int)
    ensures LatencyLog(log, latency).messages == log.messages
    ensures LatencyLog(log, latency).counters
         == Combined(log.counters, if latency >= 0 then ZERO.(latencyNanoseconds := latency, latencySamples := 1) else ZERO)
  {
  }

  /** The log before the response. */
  function UpstreamLog(log: Log, e: Env): Log
    requires IsCounted(e)
  {
    if !e.forwarder then log.Add(UpstreamErrors, 1)
    else
      match e.exchange
      case ExchangePanics => log
      case ExchangeFails(latency, timeout) =>
        LatencyLog(log, latency).Add(if timeout then UpstreamTimeouts else UpstreamErrors, 1)
      case NoAnswer(latency) => LatencyLog(log, latency).Add(UpstreamErrors, 1)
      case Answers(latency, _) => LatencyLog(log, latency)
  }

  lemma UpstreamCounted(log: Log, e: Env)
    requires IsCounted(e)
    ensures Reached(log, UpstreamLog(log, e), UpstreamIncrements(e), [])
  {
    if e.forwarder && !e.exchange.ExchangePanics? {
      LatencyCounted(log, e.exchange.latency);
    }
  }

  lemma ErrorResponse(log: Log, e: Env, code: int)
    requires code == 1 || code == 2
    requires FirstCode(e) == if HasWriter(e) && e.request.Some? then Some(code) else None
    ensures Reached(log, ErrorSteps(log, e, code, e.write).log, ResponseIncrements(e), NormalMessages(e))
    ensures ErrorSteps(log, e, code, e.write).panicked <==> Writes(e) && e.write.WritePanics?
  {
  }

  lemma AnswerResponse(log: Log, e: Env)
    requires IsAnswered(e)
    ensures Reached(log, AnswerSteps(log, e, e.exchange.responseCode).log, ResponseIncrements(e), NormalMessages(e))
    ensures AnswerSteps(log, e, e.exchange.responseCode).panicked <==> HasPanic(e)
  {
  }

  /** After the request has been counted. */
  lemma ForwardResponse(log: Log, e: Env, s: Steps)
    requires IsCounted(e)
    requires s == if e.forwarder then ExchangeSteps(log, e) else UpstreamFailureSteps(log, e, UpstreamErrors)
    ensures Reached(UpstreamLog(log, e), s.log, ResponseIncrements(e), NormalMessages(e)) && (s.panicked <==> HasPanic(e))
  {
    if IsAnswered(e) {
      AnswerResponse(UpstreamLog(log, e), e);
    } else if !e.forwarder || !e.exchange.ExchangePanics? {
      ErrorResponse(UpstreamLog(log, e), e, 2);
    }
  }

  /** The normal flow passes two logs on its way, and panics when it should. */
  ghost predicate Served(log: Log, e: Env, counted: Log, upstream: Log, s: Steps) {
    && Reached(log, counted, RequestIncrements(e), [])
    && Reached(counted, upstream, UpstreamIncrements(e), [])
    && Reached(upstream, s.log, ResponseIncrements(e), NormalMessages(e))
    && (s.panicked <==> HasPanic(e))
  }

  lemma ServeOutcome(log: Log, e: Env) returns (counted: Log, upstream: Log)
    ensures Served(log, e, counted, upstream, ServeSteps(log, e))
  {
    if IsInvalid(e) {
      counted := log.Add(InvalidRequests, 1);
      upstream := counted;
      InvalidCounted(log, e);
      ErrorResponse(counted, e, 1);
    } else if !IsCounted(e) {
      counted, upstream := log, log;
      NotCounted(log, e);
    } else {
      counted := RequestLog(log, e.writer.TcpWriter?);
      upstream := UpstreamLog(counted, e);
      RequestCounted(log, e);
      UpstreamCounted(counted, e);
      ForwardResponse(counted, e, ServeSteps(log, e));
    }
  }

  lemma RecoverOutcome(log: Log, e: Env)
    requires HasPanic(e)
    ensures Reached(log, RecoverSteps(log, e).log, RecoveryIncrements(e), RecoveryMessages(e))
  {
  }

  lemma NothingRecovered(log: Log, e: Env)
    requires !HasPanic(e)
    ensures Reached(log, log, RecoveryIncrements(e), RecoveryMessages(e))
  {
  }

  /**
   ServeDNS from any point: all counters and messages, for every request, writer, upstream behaviour, write result
   and panic.
   */
  lemma OutcomeOf(log: Log, e: Env)
    ensures Reached(log, Handle(log, e), Increments(e), Messages(e))
  {
    var s := ServeSteps(log, e);
    var counted, upstream := ServeOutcome(log, e);
    if HasPanic(e) {
      RecoverOutcome(s.log, e);
    } else {
      NothingRecovered(s.log, e);
    }
    FourPieces(log, counted, upstream, s.log, Handle(log, e), e);
  }

  lemma FourPieces(log: Log, counted: Log, upstream: Log, served: Log, handled: Log, e: Env)
    requires Reached(log, counted, RequestIncrements(e), []) && Reached(counted, upstream, UpstreamIncrements(e), [])
    requires Reached(upstream, served, ResponseIncrements(e), NormalMessages(e))
    requires Reached(served, handled, RecoveryIncrements(e), RecoveryMessages(e))
    ensures Reached(log, handled, Increments(e), Messages(e))
  {
    FourSteps(log, counted, upstream, served, handled, RequestIncrements(e), UpstreamIncrements(e),
              ResponseIncrements(e), RecoveryIncrements(e), NormalMessages(e), RecoveryMessages(e));
  }

  lemma FourSteps(a: Log, b: Log, c: Log, d: Log, z: Log, i: Counters, j: Counters, k: Counters, l: Counters,
                  m: seq<Message>, n: seq<Message>)
    requires Reached(a, b, i, []) && Reached(b, c, j, []) && Reached(c, d, k, m) && Reached(d, z, l, n)
    ensures Reached(a, z, Combined(Combined(Combined(i, j), k), l), m + n)
  {
    var none: seq<Message> := [];
    ReachedTwice(a, b, c, i, j, none, none);
    assert none + none == none;
    ReachedTwice(a, c, d, Combined(i, j), k, none, m);
    assert none + m == m;
    ReachedTwice(a, d, z, Combined(Combined(i, j), k), l, m, n);
  }

  // ---------- from any counters, as the method sees it ----------

  lemma CombinedPlus(c: Counters, d: Counters, counter: Counter, n: int)
    ensures Combined(c, d).Plus(counter, n) == Combined(c, d.Plus(counter, n))
  {
  }

  lemma {:induction false} AfterShifts(c: Counters, zero: Counters, trace: Trace)
    requires zero == ZERO
    ensures After(c, trace) == Combined(c, After(zero, trace))
  {
    if trace.Then? {
      AfterShifts(c, zero, trace.before);
      if trace.op.Add? {
        CombinedPlus(c, After(zero, trace.before), trace.op.counter, trace.op.amount);
      }
    }
  }

  lemma CombinedWithZero(zero: Counters, d: Counters)
    requires zero == ZERO
    ensures Combined(zero, d) == d
  {
  }

  lemma TotalsFrom(start: Log, log: Log, c: Counters, d: Counters, messages: seq<Message>)
    requires Fresh(start) && log.Valid() && Reached(start, log, d, messages)
    ensures After(c, log.trace) == Combined(c, d) && Written(log.trace) == messages
  {
    CombinedWithZero(start.counters, d);
    AfterShifts(c, start.counters, log.trace);
  }

  /** The operations of ServeDNS amount to its outcome. */
  lemma ServedFrom(start: Log, c: Counters, e: Env)
    requires Fresh(start)
    ensures After(c, Handle(start, e).trace) == Combined(c, Increments(e))
    ensures Written(Handle(start, e).trace) == Messages(e)
  {
    StartIsValid(start);
    HandleValid(start, e);
    OutcomeOf(start, e);
    TotalsFrom(start, Handle(start, e), c, Increments(e), Messages(e));
  }
}
