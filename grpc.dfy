/**
 * gRPC status codes and the Go error values that flow through the gateway.
 *
 * A Go `error` is modelled as `Option<Error>`, `None` being `nil`. The kinds of
 * non-nil error that the code distinguishes are:
 *  - `Eof`: the `io.EOF` value, compared by identity;
 *  - `Status(code, msg)`: an error made by the gRPC status package;
 *  - `Wrapped(kind, detail)`: a package-level sentinel error, either itself or
 *    wrapped with `fmt.Errorf("%w: ...")`, so that `errors.Is(err, sentinel)` holds;
 *  - `Plain(msg)`: any other error (for example one made by `fmt.Errorf` without `%w`).
 */
module Grpc {
  import opened Wrappers

  datatype Code =
    | OK | Canceled | Unknown | InvalidArgument | DeadlineExceeded | NotFound
    | AlreadyExists | PermissionDenied | ResourceExhausted | FailedPrecondition
    | Aborted | OutOfRange | Unimplemented | Internal | Unavailable | DataLoss
    | Unauthenticated

  /** The sentinel errors declared with `errors.New` in the client packages; each is a distinct value. */
  datatype Sentinel =
    | PermitsInternal | PermitsInvalid | PermitsForbidden | PermitsNotFound
    | LimitsInternal | LimitsInvalid | LimitsNotFound | LimitsForbidden
    | EventsInternal | EventsInvalid
    | AuthInvalidToken | AuthInvalidUserId | AuthInternal
    | InvalidPayload

  datatype Error =
    | Eof
    | Status(code: Code, msg: string)
    | Wrapped(kind: Sentinel, detail: string)
    | Plain(msg: string)

  /** `status.Error(code, msg)`: a status error, except that code OK yields nil. */
  function StatusError(code: Code, msg: string): (e: Option<Error>)
    ensures e.None? <==> code == OK
    ensures e.Some? ==> e.value == Status(code, msg)
  {
    if code == OK then None else Some(Status(code, msg))
  }

  /**
   * `status.Code(err)`: OK for nil, the carried code for a status error, and
   * Unknown for every other error (a `%w` wrapper only wraps the sentinel, never
   * the formatted source error, so it carries no status).
   */
  function CodeOf(err: Option<Error>): (c: Code)
    ensures err.None? ==> c == OK
    ensures err.Some? && err.value.Status? ==> c == err.value.code
    ensures err.Some? && !err.value.Status? ==> c == Unknown
  {
    match err
    case None => OK
    case Some(Status(code, _)) => code
    case Some(_) => Unknown
  }

  /** `errors.Is(err, sentinel)`. */
  predicate Is(err: Option<Error>, kind: Sentinel) {
    err.Some? && err.value.Wrapped? && err.value.kind == kind
  }

  /** `codes.Code.String()`. */
  function CodeName(c: Code): string {
    match c
    case OK => "OK"
    case Canceled => "Canceled"
    case Unknown => "Unknown"
    case InvalidArgument => "InvalidArgument"
    case DeadlineExceeded => "DeadlineExceeded"
    case NotFound => "NotFound"
    case AlreadyExists => "AlreadyExists"
    case PermissionDenied => "PermissionDenied"
    case ResourceExhausted => "ResourceExhausted"
    case FailedPrecondition => "FailedPrecondition"
    case Aborted => "Aborted"
    case OutOfRange => "OutOfRange"
    case Unimplemented => "Unimplemented"
    case Internal => "Internal"
    case Unavailable => "Unavailable"
    case DataLoss => "DataLoss"
    case Unauthenticated => "Unauthenticated"
  }

  /** The text of each sentinel, as declared with `errors.New`. */
  function SentinelText(kind: Sentinel): string {
    match kind
    case PermitsInternal => "internal failure"
    case PermitsInvalid => "invalid"
    case PermitsForbidden => "forbidden"
    case PermitsNotFound => "usage record not found"
    case LimitsInternal => "internal failure"
    case LimitsInvalid => "invalid"
    case LimitsNotFound => "not found"
    case LimitsForbidden => "forbidden"
    case EventsInternal => "events: internal failure"
    case EventsInvalid => "events: invalid request"
    case AuthInvalidToken => "invalid token"
    case AuthInvalidUserId => "invalid user id"
    case AuthInternal => "internal failure"
    case InvalidPayload => "invalid request payload"
  }

  /**
   * `err.Error()`. A status error reads "rpc error: code = <name> desc = <msg>";
   * a wrapped sentinel reads as the sentinel's text followed by `detail`.
   */
  function Text(e: Error): string {
    match e
    case Eof => "EOF"
    case Status(code, msg) => "rpc error: code = " + CodeName(code) + " desc = " + msg
    case Wrapped(kind, detail) => SentinelText(kind) + detail
    case Plain(msg) => msg
  }

  /** `fmt.Errorf("%w: %s", sentinel, src)`: the sentinel wrapped with the text of the source error. */
  function Wrap(kind: Sentinel, src: Error): (e: Error)
    ensures Is(Some(e), kind) && CodeOf(Some(e)) == Unknown
  {
    Wrapped(kind, ": " + Text(src))
  }
}
