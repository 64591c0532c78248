/**
 * The client of the limits service (api/grpc/limits/service.go): `Get` over
 * an oracle of the remote call, and the decoding of its errors.
 */
module Limits {
  import opened Wrappers
  import opened Ints
  import opened Model
  import opened Grpc
  import opened SubjectCodec

  /** A limit query; the group and user ids travel as outgoing auth metadata. */
  datatype GetRequest = GetRequest(groupId: string, userId: string, subj: Wire)
  datatype GetResponse = GetResponse(count: int64, userId: string, expires: Option<Time>)

  /** The remote Get: a possibly nil response and a possibly nil error. */
  type Client = GetRequest -> (Option<GetResponse>, Option<Error>)

  /**
   * `decodeError` (service.go:55-71): the same six-way split as the permits
   * client, with the limits package's own sentinels.
   */
  function DecodeError(src: Option<Error>): (dst: Option<Error>)
    ensures dst == Some(Eof) <==> src == Some(Eof)
    ensures dst.None? <==> src != Some(Eof) && CodeOf(src) == OK
    ensures Is(dst, LimitsInvalid) <==> CodeOf(src) == InvalidArgument
    ensures Is(dst, LimitsNotFound) <==> CodeOf(src) == NotFound
    ensures Is(dst, LimitsForbidden) <==> CodeOf(src) == Unauthenticated
    ensures Is(dst, LimitsInternal) <==>
              src != Some(Eof) && CodeOf(src) !in {OK, InvalidArgument, NotFound, Unauthenticated}
    ensures dst.Some? && dst.value.Wrapped? ==> src.Some? && dst.value.detail == ": " + Text(src.value)
  {
    if src == Some(Eof) then src
    else if CodeOf(src) == OK then None
    else if CodeOf(src) == InvalidArgument then Some(Wrap(LimitsInvalid, src.value))
    else if CodeOf(src) == NotFound then Some(Wrap(LimitsNotFound, src.value))
    else if CodeOf(src) == Unauthenticated then Some(Wrap(LimitsForbidden, src.value))
    else Some(Wrap(LimitsInternal, src.value))
  }

  /**
   * The outcome of `Get`: the limit and the decoded error with the request
   * sent, if any, or a nil-pointer panic when the remote call returns neither
   * a response nor an error.
   */
  datatype Got = Got(limit: Limit, err: Option<Error>, sent: Option<GetRequest>) | Panicked

  /**
   * `Get` (service.go:36-53): no remote call when the subject does not encode;
   * the fields are copied only when the call succeeds, the expiry only when
   * the response carries one; on any error the limit stays zero.
   */
  function Get(c: Client, groupId: string, userId: string, subj: Subject): (r: Got)
    ensures Encode(subj).Failure? ==> r == Got(ZeroLimit, DecodeError(Some(Encode(subj).error)), None)
    ensures Encode(subj).Success? ==>
              var req := GetRequest(groupId, userId, Encode(subj).value);
              var (resp, e) := c(req);
              (e.Some? ==> r == Got(ZeroLimit, DecodeError(e), Some(req))) &&
              (e.None? && resp.None? ==> r.Panicked?) &&
              (e.None? && resp.Some? ==>
                 r.Got? && r.err.None? && r.sent == Some(req) &&
                 r.limit.count == resp.value.count && r.limit.userId == resp.value.userId &&
                 r.limit.expires == resp.value.expires.GetOr(ZeroTime))
  {
    match Encode(subj)
    case Failure(e) => Got(ZeroLimit, DecodeError(Some(e)), None)
    case Success(w) =>
      var req := GetRequest(groupId, userId, w);
      var (resp, e) := c(req);
      if e.Some? then Got(ZeroLimit, DecodeError(e), Some(req))
      else if resp.None? then Panicked
      else
        var expires := if resp.value.expires.Some? then resp.value.expires.value else ZeroTime;
        Got(Limit(resp.value.count, resp.value.userId, expires), None, Some(req))
  }

  /** Whatever the remote call does, a failed `Get` reports the zero limit. */
  lemma FailedGetIsZero(c: Client, groupId: string, userId: string, subj: Subject)
    requires Get(c, groupId, userId, subj).Got? && Get(c, groupId, userId, subj).err.Some?
    ensures Get(c, groupId, userId, subj).limit == ZeroLimit
  {
  }
}
