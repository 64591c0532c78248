/**
 * The authorization middleware of the HTTP API (api/http/auth/auth.go): the
 * bearer token of section 2.1 of RFC 6750 is taken from the Authorization
 * header and checked by the authentication service; the outcome is either
 * the ids stored in the request context or an aborted request.
 */
module HttpAuth {
  import opened Wrappers
  import opened Grpc
  import opened Http
  import opened AuthMetadata
  import opened AuthService

  const BearerPrefix: string := "Bearer "

  /** `strings.TrimPrefix(s, prefix)`. */
  function TrimPrefix(s: string, prefix: string): (r: string)
    ensures prefix <= s ==> r == s[|prefix|..]
    ensures !(prefix <= s) ==> r == s
  {
    if prefix <= s then s[|prefix|..] else s
  }

  /** The handler's decision: the ids stored in the context, or the status and text of an aborted request. */
  datatype Outcome = Authorized(groupId: string, userId: string) | Rejected(status: nat, text: string)

  /** The outcome, with the user id and token passed to the service when it was called. */
  datatype Authorization = Authorization(outcome: Outcome, called: Option<(string, string)>)

  /**
   * `Authorize` (auth.go:19-47): `header` gives each request header, "" when
   * it is absent; `svc` is the authentication service.
   */
  function Authorize(keys: AuthKeys, header: string -> string, svc: (string, string) -> Option<Error>): (r: Authorization)
    ensures header("Authorization") == "" ==> r == Authorization(Rejected(StatusUnauthorized, "missing authorization header"), None)
    ensures header("Authorization") != "" && !(BearerPrefix <= header("Authorization")) ==>
              r == Authorization(Rejected(StatusUnauthorized, "missing authorization token"), None)
    ensures r.called.Some? <==> BearerPrefix <= header("Authorization")
    ensures r.called.Some? ==> r.called.value == (header(keys.userId), header("Authorization")[|BearerPrefix|..])
    ensures r.outcome.Authorized? <==> r.called.Some? && svc(r.called.value.0, r.called.value.1).None?
    ensures r.outcome.Authorized? ==> r.outcome == Authorized(header(keys.groupId), header(keys.userId))
  {
    var userId := header(keys.userId);
    var authHeader := header("Authorization");
    if authHeader == "" then Authorization(Rejected(StatusUnauthorized, "missing authorization header"), None)
    else
      var token := TrimPrefix(authHeader, BearerPrefix);
      if token == authHeader then Authorization(Rejected(StatusUnauthorized, "missing authorization token"), None)
      else
        var err := svc(userId, token);
        var outcome :=
          if err.None? then Authorized(header(keys.groupId), userId)
          else if Is(err, AuthInvalidToken) then Rejected(StatusUnauthorized, "invalid token")
          else if Is(err, AuthInvalidUserId) then Rejected(StatusBadRequest, "invalid user id: " + userId)
          else Rejected(StatusInternalServerError, Text(err.value));
        Authorization(outcome, Some((userId, token)))
  }

  /**
   * Over the authentication client, the status of a request that reached the
   * service follows the remote code: 401 for Unauthenticated, 400 for
   * InvalidArgument, 500 for any other failure, and no abort for OK.
   */
  lemma AuthorizeStatuses(keys: AuthKeys, header: string -> string, c: AuthService.Client, token: string)
    requires header("Authorization") == BearerPrefix + token
    ensures var r := Authorize(keys, header, (u, t) => Authenticate(c, u, t));
            var code := CodeOf(c(AuthenticateRequest(header(keys.userId), token)));
            r.called == Some((header(keys.userId), token)) &&
            (code == OK ==> r.outcome.Authorized?) &&
            (code == Unauthenticated ==> r.outcome == Rejected(StatusUnauthorized, "invalid token")) &&
            (code == InvalidArgument ==> r.outcome == Rejected(StatusBadRequest, "invalid user id: " + header(keys.userId))) &&
            (code !in {OK, Unauthenticated, InvalidArgument} ==> r.outcome.Rejected? && r.outcome.status == StatusInternalServerError)
  {
    assert BearerPrefix <= header("Authorization");
    assert header("Authorization")[|BearerPrefix|..] == token;
  }

  /** Only one leading "Bearer " is removed: a doubled prefix leaves the second one in the token. */
  lemma OnePrefixRemoved(keys: AuthKeys, header: string -> string, svc: (string, string) -> Option<Error>)
    requires header("Authorization") == "Bearer Bearer x"
    ensures Authorize(keys, header, svc).called == Some((header(keys.userId), "Bearer x"))
  {
    assert BearerPrefix <= header("Authorization");
    assert header("Authorization")[|BearerPrefix|..] == "Bearer x";
  }
}
