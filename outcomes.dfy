/**
 The outcomes of the HTTP calls the recommendation service makes, and the
 exceptions they turn into.

 Each call to an upstream service (the crawler at `/crawl`, the decomposition
 service at `/ask/`) ends in one `Reply`. The service code either returns the
 expected JSON field or lets an exception escape; `Settle` says which. Every
 exception carries the text `str(e)` that the orchestrator reports as the
 failure detail.
 */
module Outcomes {

  /** What one POST to an upstream service produced. */
  datatype Reply =
    | Delivered(payload: string)                            // 2xx with the expected JSON field, rendered as text
    | StatusFailure(code: int, body: string, message: string) // `raise_for_status` raised `httpx.HTTPStatusError`
    | TransportFailure(message: string)                     // `httpx.RequestError` or `httpx.TimeoutException`
    | Malformed(message: string)                            // body not JSON, field missing, or any other exception

  /** The exception that escapes a client function. */
  datatype Error =
    | HttpStatus(code: int, body: string, message: string)
    | Transport(message: string)
    | Decode(message: string)
    | CompletionFailure(message: string)                    // raised by or after the completion call

  datatype Result<T> = Ok(value: T) | Err(error: Error)

  datatype Option<T> = None | Some(value: T)

  /** `str(e)`: the text the orchestrator puts in the failure detail. */
  function Detail(e: Error): string
  {
    e.message
  }

  /** Whether the crawler's retry clause (`except (httpx.RequestError, httpx.TimeoutException)`) catches the reply's exception. */
  predicate Retryable(reply: Reply)
  {
    reply.TransportFailure?
  }

  /**
   The value a client returns, or the exception it lets escape unchanged, for
   one reply: the status error, the transport error and the decode error each
   propagate with their own message.
   */
  function Settle(reply: Reply): (r: Result<string>)
    ensures r.Ok? <==> reply.Delivered?
    ensures r.Ok? ==> r.value == reply.payload
    ensures r.Err? ==> Detail(r.error) == reply.message
    ensures r.Err? ==> (r.error.Transport? <==> Retryable(reply))
    ensures r.Err? ==> (r.error.HttpStatus? <==> reply.StatusFailure?)
  {
    match reply
    case Delivered(payload) => Ok(payload)
    case StatusFailure(code, body, message) => Err(HttpStatus(code, body, message))
    case TransportFailure(message) => Err(Transport(message))
    case Malformed(message) => Err(Decode(message))
  }
}
