/** The DNS request handler, on the metrics registry and the response writer. */
module Handler {
  import opened HandlerFlow
  import opened HandlerLaws
  import opened HandlerOutcomes
  import opened Journal
  import opened Metrics
  import opened Wrappers

  class ResponseWriter {
    var messages: seq<Message>
  }

  class DnsHandler {
    const metrics: Registry
    const writer: ResponseWriter

    constructor (metrics: Registry, writer: ResponseWriter)
      ensures this.metrics == metrics && this.writer == writer
    {
      this.metrics, this.writer := metrics, writer;
    }

    /** Since a moment with these counters and messages, exactly these operations have happened. */
    ghost predicate Did(counters: Counters, messages: seq<Message>, log: Log)
      reads metrics, writer
    {
      metrics.View() == After(counters, log.trace) && writer.messages == messages + Written(log.trace)
    }

    method WriteMessage(
      m: Message, result: WriteResult, ghost c: Counters, ghost sent: seq<Message>, ghost log: Log)
      returns (panicked: bool)
      requires Did(c, sent, log)
      modifies metrics, writer
      ensures Did(c, sent, WriteSteps(log, m, result).log) && panicked == WriteSteps(log, m, result).panicked
    {
      if result.WritePanics? {
        return true;
      }
      writer.messages := writer.messages + [m];
      assert Did(c, sent, log.Write(m));
      if result.WriteFails? {
        metrics.RecordResponseWriteError();
      }
      panicked := false;
    }

    method WriteErrorResponse(
      e: Env, responseCode: int, result: WriteResult, ghost c: Counters, ghost sent: seq<Message>, ghost log: Log)
      returns (panicked: bool)
      requires Did(c, sent, log)
      modifies metrics, writer
      ensures Did(c, sent, ErrorSteps(log, e, responseCode, result).log)
      ensures panicked == ErrorSteps(log, e, responseCode, result).panicked
    {
      if e.writer.NoWriter? || e.request.None? {
        return false;
      }
      ghost var counter := ResponseCounter(responseCode);
      metrics.RecordResponse(responseCode);
      panicked := WriteMessage(Message(e.request.value.id, responseCode), result, c, sent, log.Add(counter, 1));
    }

    method FailUpstream(e: Env, timeout: bool, ghost c: Counters, ghost sent: seq<Message>, ghost log: Log)
      returns (panicked: bool)
      requires Did(c, sent, log)
      modifies metrics, writer
      ensures var s := UpstreamFailureSteps(log, e, if timeout then UpstreamTimeouts else UpstreamErrors);
              Did(c, sent, s.log) && panicked == s.panicked
    {
      ghost var counter := if timeout then UpstreamTimeouts else UpstreamErrors;
      if timeout {
        metrics.RecordUpstreamTimeout();
      } else {
        metrics.RecordUpstreamError();
      }
      panicked := WriteErrorResponse(e, SERVER_FAILURE, e.write, c, sent, log.Add(counter, 1));
    }

    method Answer(e: Env, responseCode: int, ghost c: Counters, ghost sent: seq<Message>, ghost log: Log)
      returns (panicked: bool)
      requires e.request.Some? && Did(c, sent, log)
      modifies metrics, writer
      ensures Did(c, sent, AnswerSteps(log, e, responseCode).log)
      ensures panicked == AnswerSteps(log, e, responseCode).panicked
    {
      ghost var counter := ResponseCounter(responseCode);
      metrics.RecordResponse(responseCode);
      if e.writer.NoWriter? {
        return true;
      }
      panicked := WriteMessage(Message(e.request.value.id, responseCode), e.write, c, sent, log.Add(counter, 1));
    }

    method RecordLatency(latency: int, ghost c: Counters, ghost sent: seq<Message>, ghost log: Log)
      requires Did(c, sent, log)
      modifies metrics
      ensures Did(c, sent, LatencyLog(log, latency))
    {
      metrics.RecordUpstreamLatency(latency);
    }

    method Forward(e: Env, ghost c: Counters, ghost sent: seq<Message>, ghost log: Log) returns (panicked: bool)
      requires e.request.Some? && Did(c, sent, log)
      modifies metrics, writer
      ensures Did(c, sent, ExchangeSteps(log, e).log) && panicked == ExchangeSteps(log, e).panicked
    {
      match e.exchange {
        case ExchangePanics =>
          panicked := true;
        case ExchangeFails(latency, timeout) =>
          RecordLatency(latency, c, sent, log);
          panicked := FailUpstream(e, timeout, c, sent, LatencyLog(log, latency));
        case NoAnswer(latency) =>
          RecordLatency(latency, c, sent, log);
          panicked := FailUpstream(e, false, c, sent, LatencyLog(log, latency));
        case Answers(latency, responseCode) =>
          RecordLatency(latency, c, sent, log);
          panicked := Answer(e, responseCode, c, sent, LatencyLog(log, latency));
      }
    }

    method RecordRequest(tcp: bool, ghost c: Counters, ghost sent: seq<Message>, ghost log: Log)
      requires Did(c, sent, log)
      modifies metrics
      ensures Did(c, sent, RequestLog(log, tcp))
    {
      metrics.RecordRequest(tcp);
    }

    method Serve(e: Env, ghost c: Counters, ghost sent: seq<Message>, ghost log: Log) returns (panicked: bool)
      requires Did(c, sent, log)
      modifies metrics, writer
      ensures Did(c, sent, ServeSteps(log, e).log) && panicked == ServeSteps(log, e).panicked
    {
      if e.request.None? {
        metrics.RecordInvalidRequest();
        return false;
      }
      if e.request.value.questions == 0 {
        metrics.RecordInvalidRequest();
        panicked := WriteErrorResponse(e, FORMAT_ERROR, e.write, c, sent, log.Add(InvalidRequests, 1));
        return;
      }
      if !e.writer.NoWriter? && e.addressPanics {
        return true;
      }
      RecordRequest(e.writer.TcpWriter?, c, sent, log);
      if !e.forwarder {
        panicked := FailUpstream(e, false, c, sent, RequestLog(log, e.writer.TcpWriter?));
        return;
      }
      panicked := Forward(e, c, sent, RequestLog(log, e.writer.TcpWriter?));
    }

    /** The recovery of a panic. */
    method Recover(e: Env, ghost c: Counters, ghost sent: seq<Message>, ghost log: Log)
      requires Did(c, sent, log)
      modifies metrics, writer
      ensures Did(c, sent, RecoverSteps(log, e).log)
    {
      metrics.RecordHandlerPanic();
      var result := if e.recoveryWriteFails then WriteFails else WriteOk;
      var again := WriteErrorResponse(e, SERVER_FAILURE, result, c, sent, log.Add(HandlerPanics, 1));
    }

    method ServeAndRecover(e: Env, ghost c: Counters, ghost sent: seq<Message>, ghost log: Log)
      requires Did(c, sent, log)
      modifies metrics, writer
      ensures Did(c, sent, Handle(log, e))
    {
      var panicked := Serve(e, c, sent, log);
      if panicked {
        Recover(e, c, sent, ServeSteps(log, e).log);
      }
    }

    method ServeDNS(e: Env)
      modifies metrics, writer
      ensures metrics.View() == Combined(old(metrics.View()), Increments(e))
      ensures writer.messages == old(writer.messages) + Messages(e)
      ensures Did(old(metrics.View()), old(writer.messages), Handle(EMPTY, e))
    {
      ghost var c, sent, start := metrics.View(), writer.messages, EMPTY;
      NothingDone(c, sent, start);
      ServeAndRecover(e, c, sent, start);
      ServedFrom(start, c, e);
    }

    lemma NothingDone(c: Counters, sent: seq<Message>, start: Log)
      requires Fresh(start) && metrics.View() == c && writer.messages == sent
      ensures Did(c, sent, start)
    {
    }
  }
}
