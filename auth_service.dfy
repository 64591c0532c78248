/**
 * The client of the authentication service (api/grpc/auth/service.go): one
 * remote call whose status code is turned into a package error.
 */
module AuthService {
  import opened Wrappers
  import opened Grpc

  datatype AuthenticateRequest = AuthenticateRequest(userId: string, token: string)

  /** The remote Authenticate; only its error is read. */
  type Client = AuthenticateRequest -> Option<Error>

  /**
   * The error `Authenticate` returns for the remote error `err` (service.go:35-43):
   * nil for OK, ErrInvalidToken naming the user and the token for
   * Unauthenticated, ErrInvalidUserId naming the user for InvalidArgument,
   * and ErrInternal wrapping the remote error for every other code.
   */
  function DecodeError(err: Option<Error>, userId: string, token: string): (dst: Option<Error>)
    ensures dst.None? <==> CodeOf(err) == OK
    ensures Is(dst, AuthInvalidToken) <==> CodeOf(err) == Unauthenticated
    ensures Is(dst, AuthInvalidToken) ==> dst.value.detail == ": user=" + userId + ", token=" + token
    ensures Is(dst, AuthInvalidUserId) <==> CodeOf(err) == InvalidArgument
    ensures Is(dst, AuthInvalidUserId) ==> dst.value.detail == ": " + userId
    ensures Is(dst, AuthInternal) <==> CodeOf(err) !in {OK, Unauthenticated, InvalidArgument}
    ensures Is(dst, AuthInternal) ==> dst == Some(Wrap(AuthInternal, err.value))
  {
    match CodeOf(err)
    case OK => None
    case Unauthenticated => Some(Wrapped(AuthInvalidToken, ": user=" + userId + ", token=" + token))
    case InvalidArgument => Some(Wrapped(AuthInvalidUserId, ": " + userId))
    case _ => Some(Wrap(AuthInternal, err.value))
  }

  /** `Authenticate` (service.go:30-44): the request carries the user id and token unchanged. */
  function Authenticate(c: Client, userId: string, token: string): (err: Option<Error>)
    ensures err.None? <==> CodeOf(c(AuthenticateRequest(userId, token))) == OK
    ensures err == DecodeError(c(AuthenticateRequest(userId, token)), userId, token)
  {
    DecodeError(c(AuthenticateRequest(userId, token)), userId, token)
  }

  /** Every non-nil result of `Authenticate` is exactly one of its three sentinels. */
  lemma AuthenticateErrorKinds(c: Client, userId: string, token: string)
    ensures var err := Authenticate(c, userId, token);
            err.Some? ==> (Is(err, AuthInvalidToken) || Is(err, AuthInvalidUserId) || Is(err, AuthInternal))
  {
  }
}
