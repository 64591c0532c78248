/**
 * The HTTP replies of the gateway and the gRPC-code to HTTP-status table of
 * `RespondJson` (api/http/grpc/grpc.go), with the status codes of section 15
 * of RFC 9110.
 */
module Http {
  import opened Wrappers
  import opened Grpc

  const StatusOK: nat := 200
  const StatusBadRequest: nat := 400
  const StatusUnauthorized: nat := 401
  const StatusForbidden: nat := 403
  const StatusNotFound: nat := 404
  const StatusRequestTimeout: nat := 408
  const StatusConflict: nat := 409
  const StatusTooManyRequests: nat := 429
  const StatusInternalServerError: nat := 500
  const StatusServiceUnavailable: nat := 503

  /** A reply body: plain text, or a response value marshalled as JSON. */
  datatype Body<T> = PlainText(text: string) | Json(value: T)

  /**
   * What a handler writes to the client: a status and a body, nothing at all
   * (`Unanswered`), or a panic of the handler (`Crashed`).
   */
  datatype Reply<T> = Reply(status: nat, body: Body<T>) | Unanswered | Crashed

  /** The status `RespondJson` sends for each code (grpc.go:21-41). */
  function StatusOf(c: Code): (s: nat)
    ensures s == StatusOK <==> c == OK
    ensures s == StatusServiceUnavailable <==> c == Unavailable
    ensures s == StatusTooManyRequests <==> c == ResourceExhausted
    ensures s == StatusBadRequest <==> c == InvalidArgument
    ensures s == StatusNotFound <==> c == NotFound
    ensures s == StatusConflict <==> c == AlreadyExists
    ensures s == StatusUnauthorized <==> c == Unauthenticated
    ensures s == StatusRequestTimeout <==> c == DeadlineExceeded
    ensures s in {200, 400, 401, 404, 408, 409, 429, 500, 503}
  {
    match c
    case OK => StatusOK
    case NotFound => StatusNotFound
    case AlreadyExists => StatusConflict
    case Unauthenticated => StatusUnauthorized
    case DeadlineExceeded => StatusRequestTimeout
    case InvalidArgument => StatusBadRequest
    case ResourceExhausted => StatusTooManyRequests
    case Unavailable => StatusServiceUnavailable
    case _ => StatusInternalServerError
  }

  /**
   * The eight codes with a status of their own are distinguished by it; every
   * other code, Unknown and Internal among them, is a server error.
   */
  lemma StatusOfInjective(c1: Code, c2: Code)
    ensures StatusOf(c1) == StatusOf(c2) && StatusOf(c1) != StatusInternalServerError ==> c1 == c2
    ensures c1 !in {OK, NotFound, AlreadyExists, Unauthenticated, DeadlineExceeded, InvalidArgument, ResourceExhausted, Unavailable}
            <==> StatusOf(c1) == StatusInternalServerError
  {
  }

  /**
   * `RespondJson`: the response marshalled with 200 when the error carries
   * code OK (nil included), otherwise the error's text with the status of its
   * code.
   */
  function RespondJson<T>(resp: T, err: Option<Error>): (r: Reply<T>)
    ensures r.Reply?
    ensures r.body.Json? <==> CodeOf(err) == OK
    ensures r.body.Json? ==> r == Reply(StatusOK, Json(resp))
    ensures err.Some? && CodeOf(err) != OK ==> r == Reply(StatusOf(CodeOf(err)), PlainText(Text(err.value)))
  {
    if CodeOf(err) == OK then Reply(StatusOK, Json(resp))
    else Reply(StatusOf(CodeOf(err)), PlainText(Text(err.value)))
  }
}
