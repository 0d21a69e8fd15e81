/**
 What the DNS request handler does with one request, operation by operation.
 The environment decides how the upstream answers, whether writing fails, and where a panic strikes.
 */
module HandlerFlow {
  import opened Journal
  import opened Metrics
  import opened Wrappers

  datatype Request = Request(id: int, questions: nat)

  datatype Writer = NoWriter | UdpWriter | TcpWriter

  datatype Exchange =
    | ExchangePanics
    | ExchangeFails(latency: int, timeout: bool)
    | NoAnswer(latency: int)
    | Answers(latency: int, responseCode: int)

  datatype WriteResult = WriteOk | WriteFails | WritePanics

  /** The last write is that of the panic recovery; if it panicked too, the process would end. */
  datatype Env = Env(
    request: Option<Request>, writer: Writer, addressPanics: bool, forwarder: bool, exchange: Exchange,
    write: WriteResult, recoveryWriteFails: bool)

  const FORMAT_ERROR := 1
  const SERVER_FAILURE := 2

  // ---------- the operations of one request ----------

  /** All operations up to the end or up to a panic. */
  datatype Steps = Steps(log: Log, panicked: bool)

  function WriteSteps(log: Log, m: Message, result: WriteResult): Steps {
    match result
    case WriteOk => Steps(log.Write(m), false)
    case WriteFails => Steps(log.Write(m).Add(WriteErrors, 1), false)
    case WritePanics => Steps(log, true)
  }

  function ErrorSteps(log: Log, e: Env, responseCode: int, result: WriteResult): Steps {
    if e.writer.NoWriter? || e.request.None? then Steps(log, false)
    else
      WriteSteps(log.Add(ResponseCounter(responseCode), 1), Message(e.request.value.id, responseCode), result)
  }

  function LatencyLog(log: Log, latency: int): Log {
    if latency < 0 then log else log.Add(LatencyNanoseconds, latency).Add(LatencySamples, 1)
  }

  function RequestLog(log: Log, tcp: bool): Log {
    log.Add(RequestsTotal, 1).Add(if tcp then RequestsTcp else RequestsUdp, 1)
  }

  function UpstreamFailureSteps(log: Log, e: Env, counter: Counter): Steps {
    ErrorSteps(log.Add(counter, 1), e, SERVER_FAILURE, e.write)
  }

  /** Writing to a nil writer panics. */
  function AnswerSteps(log: Log, e: Env, responseCode: int): Steps
    requires e.request.Some?
  {
    var counted := log.Add(ResponseCounter(responseCode), 1);
    if e.writer.NoWriter? then Steps(counted, true)
    else WriteSteps(counted, Message(e.request.value.id, responseCode), e.write)
  }

  function ExchangeSteps(log: Log, e: Env): Steps
    requires e.request.Some?
  {
    match e.exchange
    case ExchangePanics => Steps(log, true)
    case ExchangeFails(latency, timeout) =>
      UpstreamFailureSteps(LatencyLog(log, latency), e, if timeout then UpstreamTimeouts else UpstreamErrors)
    case NoAnswer(latency) => UpstreamFailureSteps(LatencyLog(log, latency), e, UpstreamErrors)
    case Answers(latency, responseCode) => AnswerSteps(LatencyLog(log, latency), e, responseCode)
  }

  /** ErrorSteps writes nothing when there is no request. */
  function InvalidSteps(log: Log, e: Env): Steps {
    ErrorSteps(log.Add(InvalidRequests, 1), e, FORMAT_ERROR, e.write)
  }

  function ForwardSteps(log: Log, e: Env): Steps
    requires e.request.Some?
  {
    var counted := RequestLog(log, e.writer.TcpWriter?);
    if e.forwarder then ExchangeSteps(counted, e) else UpstreamFailureSteps(counted, e, UpstreamErrors)
  }

  function ServeSteps(log: Log, e: Env): Steps {
    if e.request.None? || e.request.value.questions == 0 then InvalidSteps(log, e)
    else if !e.writer.NoWriter? && e.addressPanics then Steps(log, true)
    else ForwardSteps(log, e)
  }

  function RecoverSteps(log: Log, e: Env): Steps {
    ErrorSteps(log.Add(HandlerPanics, 1), e, SERVER_FAILURE, if e.recoveryWriteFails then WriteFails else WriteOk)
  }

  /** ServeDNS: the normal flow, and the recovery if it panicked. */
  function Handle(log: Log, e: Env): Log {
    var s := ServeSteps(log, e);
    if s.panicked then RecoverSteps(s.log, e).log else s.log
  }
}
