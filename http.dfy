/** The abstract HTTP exchange the adapter performs. The network, the
    body reader and the JSON decoder are not modelled: their outcomes are
    inputs. A read response carries a body that was either read in full
    or broke off, and a JSON body either decodes to a record or is
    malformed. */
module Http {

  const STATUS_OK := 200
  const STATUS_NO_CONTENT := 204
  const STATUS_SEE_OTHER := 303

  type Bytes = seq<bv8>

  datatype Option<T> = None | Some(value: T)

  /** What the adapter reports back to the host. Every error is the value
      produced at the point of failure, passed up unchanged. */
  datatype Error =
    | TransportFailed(msg: string)   // the request itself failed
    | BadStatus(status: string)      // an unexpected status, carrying the status line
    | ReadFailed(msg: string)        // reading the body failed
    | DecodeFailed(msg: string)      // the body is not the expected JSON
    | NotImplemented                 // the backend offers no such operation
  {
    /** The text of the error as the host sees it. */
    function Message(): string
    {
      match this
      case TransportFailed(m) => m
      case BadStatus(s) => s
      case ReadFailed(m) => m
      case DecodeFailed(m) => m
      case NotImplemented => "Not Implemented"
    }
  }

  datatype Result<T> = Ok(value: T) | Err(error: Error)

  /** The outcome of one request: no answer, or a status code, its status
      line and a body. */
  datatype Response<T> = Unreachable(msg: string) | Reply(code: int, status: string, body: T)

  /** A body read to its end, or a read that failed part way. */
  datatype Body<T> = Received(content: T) | Truncated(msg: string)

  /** A body decoded as JSON into a record, or rejected by the decoder. */
  datatype Json<T> = Decoded(value: T) | Invalid(msg: string)

  /** A read response that the adapter accepts: status exactly 200, a body
      read in full and decoded. */
  predicate Delivered<T>(resp: Response<Body<Json<T>>>)
  {
    resp.Reply? && resp.code == STATUS_OK && resp.body.Received? && resp.body.content.Decoded?
  }

  /** A read: transport failure, then the status test, then the body read.
      The status is tested before the body is touched, so a bad status wins
      over an unreadable body. */
  function Receive<T>(resp: Response<Body<T>>): (r: Result<T>)
    ensures r.Ok? <==> resp.Reply? && resp.code == STATUS_OK && resp.body.Received?
    ensures r.Ok? ==> r.value == resp.body.content
    ensures resp.Unreachable? ==> r == Err(TransportFailed(resp.msg))
    ensures resp.Reply? && resp.code != STATUS_OK ==> r == Err(BadStatus(resp.status))
    ensures resp.Reply? && resp.code == STATUS_OK && resp.body.Truncated? ==> r == Err(ReadFailed(resp.body.msg))
  {
    match resp
    case Unreachable(m) => Err(TransportFailed(m))
    case Reply(code, status, body) =>
      if code != STATUS_OK then Err(BadStatus(status))
      else match body
        case Truncated(m) => Err(ReadFailed(m))
        case Received(content) => Ok(content)
  }

  /** Decoding a received JSON body into its record. */
  function Decode<T>(body: Json<T>): (r: Result<T>)
    ensures r.Ok? <==> body.Decoded?
    ensures body.Decoded? ==> r == Ok(body.value)
    ensures body.Invalid? ==> r == Err(DecodeFailed(body.msg))
  {
    match body
    case Decoded(v) => Ok(v)
    case Invalid(m) => Err(DecodeFailed(m))
  }

  /** A read of a JSON record: `Receive` then `Decode`. */
  function Fetch<T>(resp: Response<Body<Json<T>>>): (r: Result<T>)
    ensures r.Ok? <==> Delivered(resp)
    ensures r.Ok? ==> r.value == resp.body.content.value
    ensures resp.Unreachable? ==> r == Err(TransportFailed(resp.msg))
    ensures resp.Reply? && resp.code != STATUS_OK ==> r == Err(BadStatus(resp.status))
    ensures Receive(resp).Err? ==> r == Err(Receive(resp).error)
    ensures Receive(resp).Ok? ==> r == Decode(Receive(resp).value)
  {
    match Receive(resp)
    case Err(e) => Err(e)
    case Ok(body) => Decode(body)
  }

  /** A notification: only 204 No Content is success; the body is never read. */
  function Acknowledge(resp: Response<()>): (r: Result<()>)
    ensures r.Ok? <==> resp.Reply? && resp.code == STATUS_NO_CONTENT
    ensures resp.Unreachable? ==> r == Err(TransportFailed(resp.msg))
    ensures resp.Reply? && resp.code != STATUS_NO_CONTENT ==> r == Err(BadStatus(resp.status))
  {
    match resp
    case Unreachable(m) => Err(TransportFailed(m))
    case Reply(code, status, _) =>
      if code != STATUS_NO_CONTENT then Err(BadStatus(status)) else Ok(())
  }
}
