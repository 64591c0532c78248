/**
 * The client of the events (topic) service (api/grpc/events/service.go):
 * `SetStream` and `Publish` over an oracle of the remote calls, the decoding
 * of their errors, and the client fake the service's tests run against.
 */
module Events {
  import opened Wrappers
  import opened Ints
  import opened Grpc
  import opened CloudEvents

  datatype SetStreamRequest = SetStreamRequest(topic: string, limit: uint32)
  datatype PublishRequest = PublishRequest(topic: string, evts: seq<CloudEvent>)
  datatype PublishResponse = PublishResponse(ackCount: uint32)

  /** The remote calls; a SetStream response carries nothing the client reads. */
  datatype Client = Client(
    setStream: SetStreamRequest -> Option<Error>,
    publishBatch: PublishRequest -> (Option<PublishResponse>, Option<Error>))

  /** `decodeError` (service.go:55-67): EOF kept, OK to nil, InvalidArgument to ErrInvalid, the rest to ErrInternal. */
  function DecodeError(src: Option<Error>): (dst: Option<Error>)
    ensures dst == Some(Eof) <==> src == Some(Eof)
    ensures dst.None? <==> src != Some(Eof) && CodeOf(src) == OK
    ensures Is(dst, EventsInvalid) <==> CodeOf(src) == InvalidArgument
    ensures Is(dst, EventsInternal) <==> src != Some(Eof) && CodeOf(src) !in {OK, InvalidArgument}
    ensures dst.Some? && dst.value.Wrapped? ==> src.Some? && dst.value.detail == ": " + Text(src.value)
  {
    if src == Some(Eof) then src
    else if CodeOf(src) == OK then None
    else if CodeOf(src) == InvalidArgument then Some(Wrap(EventsInvalid, src.value))
    else Some(Wrap(EventsInternal, src.value))
  }

  /** `SetStream` (service.go:33-40): the topic and limit are sent unchanged and only the error is kept. */
  function SetStream(c: Client, topic: string, limit: uint32): (err: Option<Error>)
    ensures var e := c.setStream(SetStreamRequest(topic, limit));
            (err.None? <==> e != Some(Eof) && CodeOf(e) == OK) &&
            (Is(err, EventsInvalid) <==> CodeOf(e) == InvalidArgument)
  {
    DecodeError(c.setStream(SetStreamRequest(topic, limit)))
  }

  /**
   * `Publish` (service.go:42-53): the acknowledged count is the response's
   * when there is a response and 0 otherwise.
   */
  function Publish(c: Client, topic: string, evts: seq<CloudEvent>): (r: (uint32, Option<Error>))
    ensures var (resp, e) := c.publishBatch(PublishRequest(topic, evts));
            r.1 == DecodeError(e) &&
            (resp.Some? ==> r.0 == resp.value.ackCount) && (resp.None? ==> r.0 == 0)
  {
    var (resp, e) := c.publishBatch(PublishRequest(topic, evts));
    (if resp.Some? then resp.value.ackCount else 0, DecodeError(e))
  }

  /** The client fake (client_mock.go:17-39): an empty topic is invalid, "fail" fails, any other topic acks 42. */
  function MockClient(): (c: Client)
    ensures forall req: PublishRequest :: req.topic == "fail" ==> c.publishBatch(req) == (None, Some(Status(Internal, "internal failure")))
  {
    Client(
      (req: SetStreamRequest) => if req.topic == "" then Some(Status(InvalidArgument, "empty topic"))
                                 else if req.topic == "fail" then Some(Status(Internal, "internal failure"))
                                 else None,
      (req: PublishRequest) => if req.topic == "fail" then (None, Some(Status(Internal, "internal failure")))
                               else (Some(PublishResponse(42)), None))
  }

  /** The cases of the service's tests (service_test.go:8-59). */
  lemma ServiceTestCases(evts: seq<CloudEvent>, limit: uint32)
    ensures SetStream(MockClient(), "ok", limit).None?
    ensures Is(SetStream(MockClient(), "", limit), EventsInvalid)
    ensures Is(SetStream(MockClient(), "fail", limit), EventsInternal)
    ensures Publish(MockClient(), "ok", evts) == (42, None)
    ensures Publish(MockClient(), "fail", evts).0 == 0 && Is(Publish(MockClient(), "fail", evts).1, EventsInternal)
  {
  }
}
