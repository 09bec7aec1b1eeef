/** The requests this client sends to the controller, the replies it can get,
    and how a Python call of the client ends. The network itself is a
    parameter: a function from request to reply, as a mocked controller. */
module Http {
  import opened Json

  datatype HttpRequest =
    | Get(url: string, token: string, accept: string, verifyTls: bool, timeoutSeconds: Option<nat>)
    | Post(url: string, token: string, payload: Json)

  /** A reply reached the client (with its status and body text), or the
      request failed in transport (`httpx.RequestError`: DNS, connection,
      timeout). */
  datatype HttpReply =
    | TransportFailure
    | Reply(status: int, text: string)

  /** `response.is_success`: `raise_for_status()` raises for every other status. */
  predicate IsSuccess(status: int)
  {
    200 <= status < 300
  }

  const NoContent: int := 204

  /** The exceptions that escape a call of the client. */
  datatype PyError =
    | HttpStatusError(status: int)   // from raise_for_status on a non-2xx reply
    | JsonDecodeError                // from response.json() on a body that is not JSON

  /** How a call ends: it returns a value, the process exits through
      `sys.exit(1)`, or an exception propagates to the caller. */
  datatype Outcome<+T> =
    | Returned(value: T)
    | Exited
    | Raised(error: PyError)
  {
    /** The same failure, for a caller whose own result has another type. */
    function Propagate<U>(): Outcome<U>
      requires !Returned?
    {
      if Exited? then Exited else Raised(error)
    }
  }

  function ControllerUrl(host: string, path: string): string
  {
    "https://" + host + path
  }
}
