/** The runtime counters of the DNS service. Each Add is one atomic operation on one counter. */
module Metrics {

  datatype Counter =
    | RequestsTotal
    | RequestsUdp
    | RequestsTcp
    | NoError
    | NxDomain
    | ServFail
    | OtherResponse
    | UpstreamTimeouts
    | UpstreamErrors
    | InvalidRequests
    | WriteErrors
    | LatencyNanoseconds
    | LatencySamples
    | HandlerPanics

  predicate IsResponse(c: Counter) {
    c.NoError? || c.NxDomain? || c.ServFail? || c.OtherResponse?
  }

  function ResponseCounter(responseCode: int): Counter {
    if responseCode == 0 then NoError
    else if responseCode == 3 then NxDomain
    else if responseCode == 2 then ServFail
    else OtherResponse
  }

  datatype Message = Message(id: int, responseCode: int)

  /** An atomic increment, or a call of WriteMsg. */
  datatype Op = Add(counter: Counter, amount: int) | Write(message: Message)

  datatype Counters = Counters(
    requestsTotal: int, requestsUdp: int, requestsTcp: int,
    noError: int, nxDomain: int, servFail: int, otherResponse: int,
    upstreamTimeouts: int, upstreamErrors: int, invalidRequests: int, writeErrors: int,
    latencyNanoseconds: int, latencySamples: int, handlerPanics: int)
  {
    function Of(c: Counter): int {
      match c
      case RequestsTotal => requestsTotal
      case RequestsUdp => requestsUdp
      case RequestsTcp => requestsTcp
      case NoError => noError
      case NxDomain => nxDomain
      case ServFail => servFail
      case OtherResponse => otherResponse
      case UpstreamTimeouts => upstreamTimeouts
      case UpstreamErrors => upstreamErrors
      case InvalidRequests => invalidRequests
      case WriteErrors => writeErrors
      case LatencyNanoseconds => latencyNanoseconds
      case LatencySamples => latencySamples
      case HandlerPanics => handlerPanics
    }

    function Plus(c: Counter, n: int): Counters {
      match c
      case RequestsTotal => this.(requestsTotal := requestsTotal + n)
      case RequestsUdp => this.(requestsUdp := requestsUdp + n)
      case RequestsTcp => this.(requestsTcp := requestsTcp + n)
      case NoError => this.(noError := noError + n)
      case NxDomain => this.(nxDomain := nxDomain + n)
      case ServFail => this.(servFail := servFail + n)
      case OtherResponse => this.(otherResponse := otherResponse + n)
      case UpstreamTimeouts => this.(upstreamTimeouts := upstreamTimeouts + n)
      case UpstreamErrors => this.(upstreamErrors := upstreamErrors + n)
      case InvalidRequests => this.(invalidRequests := invalidRequests + n)
      case WriteErrors => this.(writeErrors := writeErrors + n)
      case LatencyNanoseconds => this.(latencyNanoseconds := latencyNanoseconds + n)
      case LatencySamples => this.(latencySamples := latencySamples + n)
      case HandlerPanics => this.(handlerPanics := handlerPanics + n)
    }

    function Responses(): int {
      noError + nxDomain + servFail + otherResponse
    }
  }

  const ZERO := Counters(0, 0, 0, 0, 0, 0, 0, 0, 0, 0, 0, 0, 0, 0)

  class Registry {
    var requestsTotal: int
    var requestsUdp: int
    var requestsTcp: int
    var noError: int
    var nxDomain: int
    var servFail: int
    var otherResponse: int
    var upstreamTimeouts: int
    var upstreamErrors: int
    var invalidRequests: int
    var writeErrors: int
    var latencyNanoseconds: int
    var latencySamples: int
    var handlerPanics: int

    function View(): Counters
      reads this
    {
      Counters(requestsTotal, requestsUdp, requestsTcp, noError, nxDomain, servFail, otherResponse,
               upstreamTimeouts, upstreamErrors, invalidRequests, writeErrors,
               latencyNanoseconds, latencySamples, handlerPanics)
    }

    method RecordRequest(tcp: bool)
      modifies this
      ensures View() == old(View()).Plus(RequestsTotal, 1).Plus(if tcp then RequestsTcp else RequestsUdp, 1)
    {
      requestsTotal := requestsTotal + 1;
      if tcp {
        requestsTcp := requestsTcp + 1;
      } else {
        requestsUdp := requestsUdp + 1;
      }
    }

    method RecordResponse(responseCode: int)
      modifies this
      ensures View() == old(View()).Plus(ResponseCounter(responseCode), 1)
    {
      match responseCode {
        case 0 => noError := noError + 1;
        case 3 => nxDomain := nxDomain + 1;
        case 2 => servFail := servFail + 1;
        case _ => otherResponse := otherResponse + 1;
      }
    }

    method RecordUpstreamTimeout()
      modifies this
      ensures View() == old(View()).Plus(UpstreamTimeouts, 1)
    {
      upstreamTimeouts := upstreamTimeouts + 1;
    }

    method RecordUpstreamError()
      modifies this
      ensures View() == old(View()).Plus(UpstreamErrors, 1)
    {
      upstreamErrors := upstreamErrors + 1;
    }

    method RecordInvalidRequest()
      modifies this
      ensures View() == old(View()).Plus(InvalidRequests, 1)
    {
      invalidRequests := invalidRequests + 1;
    }

    method RecordResponseWriteError()
      modifies this
      ensures View() == old(View()).Plus(WriteErrors, 1)
    {
      writeErrors := writeErrors + 1;
    }

    /** A negative latency is not recorded. */
    method RecordUpstreamLatency(latency: int)
      modifies this
      ensures View() == if latency < 0 then old(View())
                        else old(View()).Plus(LatencyNanoseconds, latency).Plus(LatencySamples, 1)
    {
      if latency < 0 {
        return;
      }
      latencyNanoseconds := latencyNanoseconds + latency;
      latencySamples := latencySamples + 1;
    }

    method RecordHandlerPanic()
      modifies this
      ensures View() == old(View()).Plus(HandlerPanics, 1)
    {
      handlerPanics := handlerPanics + 1;
    }
  }
}
