/**
 * The client of the permits (quota) service (api/grpc/permits/service.go):
 * the remote calls Allocate, Release and Get are an oracle, and the model
 * states which request each operation sends, which fields it copies from the
 * response and how the gRPC error is turned into a package error.
 */
module Permits {
  import opened Wrappers
  import opened Ints
  import opened Model
  import opened Grpc
  import opened SubjectCodec

  datatype AllocateRequest = AllocateRequest(groupId: string, userId: string, count: uint32, subj: Wire)
  datatype AllocateResponse = AllocateResponse(count: uint32, userId: string, justExhausted: bool)
  datatype ReleaseRequest = ReleaseRequest(groupId: string, userId: string, count: uint32, subj: Wire)

  /**
   * A usage query. The group and user ids travel as outgoing auth metadata;
   * `subj` is `None` when the subject did not encode and the request carries
   * the enum's zero value.
   */
  datatype GetRequest = GetRequest(groupId: string, userId: string, subj: Option<Wire>)
  datatype GetResponse = GetResponse(count: int64, countTotal: int64, since: Option<Time>)

  /** The remote service: each call yields a possibly nil response and a possibly nil error. */
  datatype Client = Client(
    get: GetRequest -> (Option<GetResponse>, Option<Error>),
    allocate: AllocateRequest -> (Option<AllocateResponse>, Option<Error>),
    release: ReleaseRequest -> Option<Error>)

  /**
   * `decodeError` (service.go:103-119): EOF is kept, a nil or OK error becomes
   * nil, three codes get a sentinel of their own and every other error is an
   * internal failure; each sentinel is wrapped with the text of the source error.
   */
  function DecodeError(src: Option<Error>): (dst: Option<Error>)
    ensures dst == Some(Eof) <==> src == Some(Eof)
    ensures dst.None? <==> src != Some(Eof) && CodeOf(src) == OK
    ensures Is(dst, PermitsInvalid) <==> CodeOf(src) == InvalidArgument
    ensures Is(dst, PermitsNotFound) <==> CodeOf(src) == NotFound
    ensures Is(dst, PermitsForbidden) <==> CodeOf(src) == Unauthenticated
    ensures Is(dst, PermitsInternal) <==>
              src != Some(Eof) && CodeOf(src) !in {OK, InvalidArgument, NotFound, Unauthenticated}
    ensures dst.Some? && dst.value.Wrapped? ==> src.Some? && dst.value.detail == ": " + Text(src.value)
  {
    if src == Some(Eof) then src
    else if CodeOf(src) == OK then None
    else if CodeOf(src) == InvalidArgument then Some(Wrap(PermitsInvalid, src.value))
    else if CodeOf(src) == NotFound then Some(Wrap(PermitsNotFound, src.value))
    else if CodeOf(src) == Unauthenticated then Some(Wrap(PermitsForbidden, src.value))
    else Some(Wrap(PermitsInternal, src.value))
  }

  /** A failure to encode the subject is not a status error, so it decodes to an internal failure. */
  lemma EncodeFailureIsInternal(s: Subject)
    requires Encode(s).Failure?
    ensures Is(DecodeError(Some(Encode(s).error)), PermitsInternal)
  {
  }

  /** What `Request` returns, and the Allocate request it sent, if any. */
  datatype Requested = Requested(permit: Permit, err: Option<Error>, sent: Option<AllocateRequest>)

  /**
   * `Request` (service.go:67-86): Allocate is called only when the subject
   * encodes; whenever a response exists its three fields are copied into the
   * permit, and the error is decoded.
   */
  function Request(c: Client, groupId: string, userId: string, subj: Subject, count: uint32): (r: Requested)
    ensures r.sent.Some? <==> Encode(subj).Success?
    ensures r.sent.Some? ==> r.sent.value == AllocateRequest(groupId, userId, count, Encode(subj).value)
    ensures r.sent.None? ==> r.permit == ZeroPermit && Is(r.err, PermitsInternal)
    ensures r.sent.Some? ==>
              var (resp, e) := c.allocate(r.sent.value);
              r.err == DecodeError(e) &&
              (resp.None? ==> r.permit == ZeroPermit) &&
              (resp.Some? ==> r.permit.count == resp.value.count && r.permit.userId == resp.value.userId
                              && r.permit.justExhausted == resp.value.justExhausted)
  {
    match Encode(subj)
    case Failure(e) => Requested(ZeroPermit, DecodeError(Some(e)), None)
    case Success(w) =>
      var req := AllocateRequest(groupId, userId, count, w);
      var (resp, e) := c.allocate(req);
      var p := if resp.Some? then Permit(resp.value.count, resp.value.userId, resp.value.justExhausted) else ZeroPermit;
      Requested(p, DecodeError(e), Some(req))
  }

  /** What `Release` returns, and the Release request it sent, if any. */
  datatype Released = Released(err: Option<Error>, sent: Option<ReleaseRequest>)

  /**
   * `Release` (service.go:88-101): the remote Release is called only when the
   * subject encodes, with the caller's ids and count unchanged.
   */
  function Release(c: Client, groupId: string, userId: string, subj: Subject, count: uint32): (r: Released)
    ensures r.sent.Some? <==> Encode(subj).Success?
    ensures r.sent.Some? ==>
              r.sent.value == ReleaseRequest(groupId, userId, count, Encode(subj).value) &&
              r.err == DecodeError(c.release(r.sent.value))
    ensures r.sent.None? ==> Is(r.err, PermitsInternal)
  {
    match Encode(subj)
    case Failure(e) => Released(DecodeError(Some(e)), None)
    case Success(w) =>
      var req := ReleaseRequest(groupId, userId, count, w);
      Released(DecodeError(c.release(req)), Some(req))
  }

  /**
   * The usage after a Get response: nothing changes without a response;
   * otherwise both counts are copied, and the start time only when the
   * response carries one.
   */
  function UsageAfter(prev: Usage, resp: Option<GetResponse>): (u: Usage)
    ensures resp.None? ==> u == prev
    ensures resp.Some? ==> u.count == resp.value.count && u.countTotal == resp.value.countTotal
    ensures resp.Some? && resp.value.since.Some? ==> u.since == resp.value.since.value
    ensures resp.Some? && resp.value.since.None? ==> u.since == prev.since
  {
    match resp
    case None => prev
    case Some(r) => Usage(r.count, r.countTotal, if r.since.Some? then r.since.value else prev.since)
  }

  /** The `*model.Usage` that `GetUsage` writes through. */
  class UsageCell {
    var usage: Usage

    constructor (u: Usage)
      ensures usage == u
    {
      usage := u;
    }
  }

  /**
   * `GetUsage` (service.go:48-65): the subject-encoding error is discarded and
   * Get is called in every case; the usage is updated from the response and
   * the Get error is decoded.
   */
  method GetUsage(c: Client, groupId: string, userId: string, subj: Subject, out: UsageCell)
    returns (err: Option<Error>, sent: GetRequest)
    modifies out
    ensures sent == GetRequest(groupId, userId, if Encode(subj).Success? then Some(Encode(subj).value) else None)
    ensures out.usage == UsageAfter(old(out.usage), c.get(sent).0)
    ensures err == DecodeError(c.get(sent).1)
  {
    var reqSubj: Option<Wire> := None;
    var enc := Encode(subj);
    if enc.Success? {
      reqSubj := Some(enc.value);
    }
    sent := GetRequest(groupId, userId, reqSubj);
    var (resp, e) := c.get(sent);
    if resp.Some? {
      var since := out.usage.since;
      if resp.value.since.Some? {
        since := resp.value.since.value;
      }
      out.usage := Usage(resp.value.count, resp.value.countTotal, since);
    }
    err := DecodeError(e);
  }
}
