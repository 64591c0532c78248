/**
 * The quota admission path of the publishing gateway
 * (api/grpc/publisher/service.go).
 *
 * The permits service and the event stream are oracles: each answer is a
 * function of the calls made so far, which are recorded in a trace. The pure
 * `...Spec` functions say what one call of each operation does to the trace and
 * what it returns; the methods of `Backend` do it step by step and are proved
 * to agree with them; the lemmas state the promised properties about the spec
 * functions. A Go panic (a slice past the end, a nil response dereference)
 * ends a run with the `Panicked` outcome.
 */
module Publisher {
  import opened Wrappers
  import opened Ints
  import opened Model
  import opened Grpc
  import opened CloudEvents

  /** `events.PublishRequest`. */
  datatype PublishRequest = PublishRequest(topic: string, evts: seq<CloudEvent>)

  /**
   * The calls the gateway makes: to the permits service, on the event stream
   * it opens to the events service, and the replies on the client's stream.
   */
  datatype Call =
    | PermitRequest(groupId: string, userId: string, subject: Subject, count: uint32)
    | Send(req: PublishRequest)
    | Recv
    | PermitRelease(groupId: string, userId: string, subject: Subject, count: uint32)
    | Open
    | Respond(ackCount: uint32)

  /**
   * The answers of the services, as functions of the calls made before:
   * `permit` for `permits.Service.Request`, `send` and `recv` for the event
   * stream (`recv` gives the AckCount of the response, when there is one, and
   * the error), `open` for opening that stream and `reply` for sending a
   * response to the client. The result of `Release` is discarded by the code.
   */
  datatype Oracles = Oracles(
    permit: seq<Call> -> (Permit, Option<Error>),
    send: seq<Call> -> Option<Error>,
    recv: seq<Call> -> (Option<uint32>, Option<Error>),
    open: seq<Call> -> Option<Error>,
    reply: seq<Call> -> Option<Error>)

  /** The configured topic, the model key names, and the id the notice event gets (a fresh ksuid in the code). */
  datatype Config = Config(topic: string, names: Names, noticeId: string)

  /** What a call returns: the AckCount of the response, if any, and the error; or a panic. */
  datatype Outcome = Returned(resp: Option<uint32>, err: Option<Error>) | Panicked

  /** The trace after a call, and its outcome. */
  datatype Run = Run(trace: seq<Call>, out: Outcome)

  /** `txtLimitReached`. */
  const TxtLimitReached: string :=
    "\U{26A0} Publishing limit reached.\n\nIncrease your publishing limit or nominate own sources for the dedicated limit.\n\n"
    + "If you did not publish messages, <a href=\"https://awakari.com/pub.html?own=true\">check own publication sources</a> you added."

  /** `encodeError`. */
  function EncodeError(src: Option<Error>): (dst: Option<Error>)
    ensures src.None? <==> dst.None?
  {
    if src.None? then None
    else if Is(src, LimitsInternal) then Some(Status(Internal, "limits " + Text(src.value)))
    else if Is(src, PermitsInternal) then Some(Status(Internal, "permits " + Text(src.value)))
    else if CodeOf(src) != Unknown then src
    else Some(Status(Unknown, Text(src.value)))
  }

  /**
   * The mapping: nil stays nil; either internal-failure sentinel becomes an
   * Internal status; a status error other than Unknown passes unchanged;
   * every other error becomes an Unknown status carrying its text.
   */
  lemma EncodeErrorMapping(src: Option<Error>)
    ensures (Is(src, LimitsInternal) || Is(src, PermitsInternal)) ==> CodeOf(EncodeError(src)) == Internal
    ensures src.Some? && src.value.Status? && src.value.code != Unknown ==> EncodeError(src) == src
    ensures src.Some? && !src.value.Status? && !Is(src, LimitsInternal) && !Is(src, PermitsInternal) ==>
              EncodeError(src) == Some(Status(Unknown, Text(src.value)))
    ensures EncodeError(src).Some? ==> EncodeError(src).value.Status?
  {
  }

  /** The outcome of `applyPermit`: the request to forward, the error, or a slice past the end of the batch. */
  datatype Applied = Forward(req: PublishRequest) | Refused(err: Error) | SliceFault

  /** `applyPermit`: the `switch` on the granted count. */
  function ApplyPermit(msgs: seq<CloudEvent>, permit: Permit, topic: string): Applied {
    if permit.count == 0 then
      Refused(Status(ResourceExhausted, "user id " + permit.userId + ": usage limit reached/not set"))
    else if permit.count == ToU32(|msgs|) then Forward(PublishRequest(topic, msgs))
    else if permit.count <= |msgs| then Forward(PublishRequest(topic, msgs[..permit.count]))
    else SliceFault
  }

  /**
   * A zero grant is refused with ResourceExhausted; otherwise the forwarded
   * events are the first `count` of the batch in order (the whole batch when
   * the count equals its length), never more than granted; a grant beyond
   * the length slices past the end.
   */
  lemma ApplyPermitCases(msgs: seq<CloudEvent>, permit: Permit, topic: string)
    requires |msgs| < U32_LIMIT
    ensures permit.count == 0 <==> ApplyPermit(msgs, permit, topic).Refused?
    ensures permit.count == 0 ==> CodeOf(Some(ApplyPermit(msgs, permit, topic).err)) == ResourceExhausted
    ensures ApplyPermit(msgs, permit, topic).SliceFault? <==> permit.count > |msgs|
    ensures 0 < permit.count <= |msgs| ==>
              ApplyPermit(msgs, permit, topic) == Forward(PublishRequest(topic, msgs[..permit.count]))
    ensures permit.count == |msgs| > 0 ==> ApplyPermit(msgs, permit, topic) == Forward(PublishRequest(topic, msgs))
    ensures ApplyPermit(msgs, permit, topic).Forward? ==>
              var req := ApplyPermit(msgs, permit, topic).req;
              req.topic == topic && 0 < |req.evts| <= permit.count && req.evts == msgs[..|req.evts|]
  {
    if permit.count == |msgs| {
      assert msgs[..|msgs|] == msgs;
    }
  }

  /** The source of the first event, or "" for an empty batch. */
  function FirstSource(msgs: seq<CloudEvent>): string {
    if |msgs| > 0 then msgs[0].source else ""
  }

  /** The limit-reached notice addressed to the group and the user the permit was charged to. */
  function Notice(cfg: Config, groupId: string, userId: string, src: string): CloudEvent {
    CloudEvent(
      cfg.noticeId, src, "1.0", cfg.names.typeLimitReached,
      Some(map[cfg.names.toGroupId := CeString(groupId), cfg.names.toUserId := CeString(userId)]),
      Some(TxtLimitReached))
  }

  /** `SubmitInternalEvents`: send the batch unchecked, then receive the response if the send succeeded. */
  function InternalSpec(o: Oracles, t: seq<Call>, topic: string, msgs: seq<CloudEvent>): (r: Run) {
    var t1 := t + [Send(PublishRequest(topic, msgs))];
    var e := o.send(t);
    if e.Some? then Run(t1, Returned(None, e))
    else
      var (resp, e2) := o.recv(t1);
      Run(t1 + [Recv], Returned(resp, e2))
  }

  /** The internal path sends exactly the batch, once, and receives only after a successful send. */
  lemma InternalSendsBatch(o: Oracles, t: seq<Call>, topic: string, msgs: seq<CloudEvent>)
    ensures var r := InternalSpec(o, t, topic, msgs);
            r.out.Returned? &&
            r.trace[..|t|] == t && |r.trace| > |t| && r.trace[|t|] == Send(PublishRequest(topic, msgs)) &&
            (o.send(t).Some? <==> r == Run(t + [Send(PublishRequest(topic, msgs))], Returned(None, o.send(t)))) &&
            (o.send(t).None? ==> r.trace == t + [Send(PublishRequest(topic, msgs)), Recv])
  {
    var r := InternalSpec(o, t, topic, msgs);
    assert r.trace[..|t|] == t;
  }

  /** `notifyLimitReached`: nothing is sent when the limit has no owner or the owner is the batch's source. */
  function NotifySpec(o: Oracles, t: seq<Call>, cfg: Config, msgs: seq<CloudEvent>, groupId: string, userId: string): Run {
    var src := FirstSource(msgs);
    if userId == "" || userId == src then Run(t, Returned(None, None))
    else InternalSpec(o, t, cfg.topic, [Notice(cfg, groupId, userId, src)])
  }

  /** The notification step of `utilizePermit`: only a just-exhausted permit notifies. */
  function NoticeRun(o: Oracles, t: seq<Call>, cfg: Config, msgs: seq<CloudEvent>, permit: Permit, groupId: string): Run {
    if permit.justExhausted then NotifySpec(o, t, cfg, msgs, groupId, permit.userId) else Run(t, Returned(None, None))
  }

  /**
   * `utilizePermit`: the notification, then `applyPermit`, then the send and
   * the receive of the main batch, each only when no error occurred before.
   * A response received replaces the notification's; without one the
   * notification's response is kept.
   */
  function UtilizeSpec(o: Oracles, t: seq<Call>, cfg: Config, msgs: seq<CloudEvent>, permit: Permit, groupId: string): Run {
    var n := NoticeRun(o, t, cfg, msgs, permit, groupId);
    var t1, resp0, err0 := n.trace, n.out.resp, n.out.err;
    if err0.Some? then n
    else
      match ApplyPermit(msgs, permit, cfg.topic)
      case SliceFault => Run(t1, Panicked)
      case Refused(e) => Run(t1, Returned(resp0, Some(e)))
      case Forward(req) =>
        var t2 := t1 + [Send(req)];
        var e1 := o.send(t1);
        if e1.Some? then Run(t2, Returned(resp0, e1))
        else
          var (dst, e2) := o.recv(t2);
          Run(t2 + [Recv], Returned(if dst.Some? then dst else resp0, e2))
  }

  /**
   * When the permit is just exhausted and the limit has an owner other than
   * the batch's source, exactly one notice is sent first, addressed to the
   * group and to the permit's user, from the first event's source; otherwise
   * the notification step makes no call.
   */
  lemma NoticeIsSentFirst(o: Oracles, t: seq<Call>, cfg: Config, msgs: seq<CloudEvent>, permit: Permit, groupId: string)
    ensures var n := NoticeRun(o, t, cfg, msgs, permit, groupId);
            var notifies := permit.justExhausted && permit.userId != "" && permit.userId != FirstSource(msgs);
            n.out.Returned? &&
            (!notifies ==> n == Run(t, Returned(None, None))) &&
            (notifies ==> n.trace[..|t|] == t && |n.trace| > |t| &&
                          n.trace[|t|] == Send(PublishRequest(cfg.topic, [Notice(cfg, groupId, permit.userId, FirstSource(msgs))])) &&
                          forall i :: |t| < i < |n.trace| ==> n.trace[i] == Recv)
  {
    var notifies := permit.justExhausted && permit.userId != "" && permit.userId != FirstSource(msgs);
    if notifies {
      InternalSendsBatch(o, t, cfg.topic, [Notice(cfg, groupId, permit.userId, FirstSource(msgs))]);
    }
  }

  /** A permit whose notification is skipped behaves as one that is not just exhausted. */
  lemma NoticeSkipped(o: Oracles, t: seq<Call>, cfg: Config, msgs: seq<CloudEvent>, permit: Permit, groupId: string)
    requires permit.userId == "" || permit.userId == FirstSource(msgs)
    ensures UtilizeSpec(o, t, cfg, msgs, permit, groupId) == UtilizeSpec(o, t, cfg, msgs, permit.(justExhausted := false), groupId)
  {
  }

  /**
   * After the notification: its error is returned and nothing else happens;
   * otherwise a refusal is returned without a send, a forward sends exactly
   * the applied request next.
   */
  lemma UtilizeAfterNotice(o: Oracles, t: seq<Call>, cfg: Config, msgs: seq<CloudEvent>, permit: Permit, groupId: string)
    ensures var n := NoticeRun(o, t, cfg, msgs, permit, groupId);
            var r := UtilizeSpec(o, t, cfg, msgs, permit, groupId);
            var a := ApplyPermit(msgs, permit, cfg.topic);
            n.out.Returned? && r.trace[..|n.trace|] == n.trace &&
            (n.out.err.Some? ==> r == n) &&
            (n.out.err.None? && a.Refused? ==> r == Run(n.trace, Returned(n.out.resp, Some(a.err)))) &&
            (n.out.err.None? && a.SliceFault? ==> r == Run(n.trace, Panicked)) &&
            (n.out.err.None? && a.Forward? ==>
               |r.trace| > |n.trace| && r.trace[|n.trace|] == Send(a.req) &&
               (o.send(n.trace).Some? ==> r == Run(n.trace + [Send(a.req)], Returned(n.out.resp, o.send(n.trace)))))
  {
    NoticeIsSentFirst(o, t, cfg, msgs, permit, groupId);
    var n := NoticeRun(o, t, cfg, msgs, permit, groupId);
    var r := UtilizeSpec(o, t, cfg, msgs, permit, groupId);
    if n.out.err.None? && ApplyPermit(msgs, permit, cfg.topic).Forward? {
      var req := ApplyPermit(msgs, permit, cfg.topic).req;
      assert (n.trace + [Send(req)])[..|n.trace|] == n.trace;
      assert (n.trace + [Send(req)] + [Recv])[..|n.trace|] == n.trace;
    }
  }

  /** The count released back: what was granted minus what was used, in 32-bit unsigned arithmetic. */
  function Unused(permit: Permit, resp: Option<uint32>, err: Option<Error>): uint32
    requires err.None? ==> resp.Some?
  {
    SubU32(permit.count, if err.None? then resp.value else 0)
  }

  /**
   * `SubmitPermittedEvents`: request a permit for the whole batch, utilize it
   * when no error came back, then release the unused count. A success without
   * a response dereferences nil.
   */
  function SubmitSpec(o: Oracles, t: seq<Call>, cfg: Config, msgs: seq<CloudEvent>, groupId: string, userId: string): Run {
    var t1 := t + [PermitRequest(groupId, userId, SubjectPublishEvents, ToU32(|msgs|))];
    var (permit, e0) := o.permit(t);
    var err := EncodeError(e0);
    var u := if err.None? then UtilizeSpec(o, t1, cfg, msgs, permit, groupId) else Run(t1, Returned(None, err));
    match u.out
    case Panicked => u
    case Returned(resp, err2) =>
      if err2.None? && resp.None? then Run(u.trace, Panicked)
      else
        var unused := Unused(permit, resp, err2);
        var release := if unused > 0 then [PermitRelease(groupId, permit.userId, SubjectPublishEvents, unused)] else [];
        Run(u.trace + release, u.out)
  }

  /** The first call is the request of a permit for the whole batch under SubjectPublishEvents. */
  lemma SubmitRequestsWholeBatch(o: Oracles, t: seq<Call>, cfg: Config, msgs: seq<CloudEvent>, groupId: string, userId: string)
    ensures var r := SubmitSpec(o, t, cfg, msgs, groupId, userId);
            |r.trace| > |t| && r.trace[..|t|] == t &&
            r.trace[|t|] == PermitRequest(groupId, userId, SubjectPublishEvents, ToU32(|msgs|))
    ensures |msgs| < U32_LIMIT ==> ToU32(|msgs|) == |msgs|
  {
    var t1 := t + [PermitRequest(groupId, userId, SubjectPublishEvents, ToU32(|msgs|))];
    var (permit, e0) := o.permit(t);
    if EncodeError(e0).None? {
      UtilizeAfterNotice(o, t1, cfg, msgs, permit, groupId);
      NoticeIsSentFirst(o, t1, cfg, msgs, permit, groupId);
    }
    var r := SubmitSpec(o, t, cfg, msgs, groupId, userId);
    assert r.trace[..|t1|] == t1;
  }

  /**
   * The release: when the run returns, a release is the last call exactly
   * when the unused count is positive, for that count and the permit's user;
   * the used count is the ack on success and 0 on any error, so a failure
   * releases the whole grant.
   */
  lemma SubmitReleasesUnused(o: Oracles, t: seq<Call>, cfg: Config, msgs: seq<CloudEvent>, groupId: string, userId: string)
    ensures var r := SubmitSpec(o, t, cfg, msgs, groupId, userId);
            var permit := o.permit(t).0;
            r.out.Returned? ==>
              (r.out.err.None? ==> r.out.resp.Some?) &&
              var unused := Unused(permit, r.out.resp, r.out.err);
              (r.out.err.Some? ==> unused == permit.count) &&
              (r.out.err.None? && r.out.resp.value <= permit.count ==> unused == permit.count - r.out.resp.value) &&
              (r.trace[|r.trace| - 1].PermitRelease? <==> unused > 0) &&
              (unused > 0 ==> r.trace[|r.trace| - 1] == PermitRelease(groupId, permit.userId, SubjectPublishEvents, unused))
  {
    var t1 := t + [PermitRequest(groupId, userId, SubjectPublishEvents, ToU32(|msgs|))];
    var (permit, e0) := o.permit(t);
    if EncodeError(e0).None? {
      UtilizeCallKinds(o, t1, cfg, msgs, permit, groupId);
    }
  }

  /** A utilization run appends only sends and receives. */
  lemma UtilizeCallKinds(o: Oracles, t: seq<Call>, cfg: Config, msgs: seq<CloudEvent>, permit: Permit, groupId: string)
    ensures var r := UtilizeSpec(o, t, cfg, msgs, permit, groupId);
            r.trace[..|t|] == t && forall i :: |t| <= i < |r.trace| ==> r.trace[i].Send? || r.trace[i].Recv?
  {
    NoticeIsSentFirst(o, t, cfg, msgs, permit, groupId);
    UtilizeAfterNotice(o, t, cfg, msgs, permit, groupId);
    var n := NoticeRun(o, t, cfg, msgs, permit, groupId);
    var r := UtilizeSpec(o, t, cfg, msgs, permit, groupId);
    assert n.trace[..|t|] == t;
    assert forall i :: |t| <= i < |n.trace| ==> n.trace[i].Send? || n.trace[i].Recv?;
    if n.out.err.None? && ApplyPermit(msgs, permit, cfg.topic).Forward? {
      var req := ApplyPermit(msgs, permit, cfg.topic).req;
      assert r.trace == n.trace + [Send(req)] || r.trace == n.trace + [Send(req)] + [Recv];
    }
  }

  /**
   * A zero grant with no error forwards nothing: after the permit request
   * only the notification's calls are made, and the error is the
   * ResourceExhausted refusal unless the notification failed first.
   */
  lemma ZeroGrantForwardsNothing(o: Oracles, t: seq<Call>, cfg: Config, msgs: seq<CloudEvent>, groupId: string, userId: string)
    requires o.permit(t).1.None? && o.permit(t).0.count == 0
    ensures var t1 := t + [PermitRequest(groupId, userId, SubjectPublishEvents, ToU32(|msgs|))];
            var permit := o.permit(t).0;
            var n := NoticeRun(o, t1, cfg, msgs, permit, groupId);
            var r := SubmitSpec(o, t, cfg, msgs, groupId, userId);
            r.trace == n.trace && r.out.Returned? &&
            r.out.err == (if n.out.err.Some? then n.out.err else Some(ApplyPermit(msgs, permit, cfg.topic).err)) &&
            CodeOf(r.out.err) == (if n.out.err.Some? then CodeOf(n.out.err) else ResourceExhausted)
  {
    var t1 := t + [PermitRequest(groupId, userId, SubjectPublishEvents, ToU32(|msgs|))];
    var permit := o.permit(t).0;
    UtilizeAfterNotice(o, t1, cfg, msgs, permit, groupId);
  }

  /**
   * The loop of `SubmitMessages` from request `i` on: the client sends the
   * batches in `incoming` and then ends its stream with `closing` (io.EOF when
   * it closes normally). Batch `i` is stamped with the clock readings
   * `clock(i)`, submitted and acknowledged;
   * the first error ends the loop and is returned.
   */
  function StreamLoop(o: Oracles, t: seq<Call>, cfg: Config, incoming: seq<seq<CloudEvent>>, closing: Error,
                      groupId: string, userId: string, clock: nat -> nat -> Time, i: nat): (r: Run)
    decreases |incoming| - i
  {
    if i >= |incoming| then Run(t, Returned(None, Some(closing)))
    else
      var msgs := StampedAll(incoming[i], cfg.names, groupId, userId, clock(i));
      var s := SubmitSpec(o, t, cfg, msgs, groupId, userId);
      match s.out
      case Panicked => s
      case Returned(resp, err) =>
        if err.Some? then Run(s.trace, Returned(None, err))
        else
          var t2 := s.trace + [Respond(resp.value)];
          var e := o.reply(s.trace);
          if e.Some? then Run(t2, Returned(None, e))
          else StreamLoop(o, t2, cfg, incoming, closing, groupId, userId, clock, i + 1)
  }

  /**
   * `SubmitMessages`: read the caller's ids (`auth` is the result of
   * `GetIncomingAuthInfo`), open the event stream, then run the loop.
   */
  function StreamSpec(o: Oracles, t: seq<Call>, cfg: Config, auth: Result<(string, string), Error>,
                      incoming: seq<seq<CloudEvent>>, closing: Error, clock: nat -> nat -> Time): Run {
    if auth.Failure? then Run(t, Returned(None, Some(auth.error)))
    else
      var e := o.open(t);
      if e.Some? then Run(t + [Open], Returned(None, e))
      else StreamLoop(o, t + [Open], cfg, incoming, closing, auth.value.0, auth.value.1, clock, 0)
  }

  /**
   * A submission extends the trace, never replies to the client, and returns
   * a response whenever it returns no error.
   */
  lemma SubmitExtends(o: Oracles, t: seq<Call>, cfg: Config, msgs: seq<CloudEvent>, groupId: string, userId: string)
    ensures var s := SubmitSpec(o, t, cfg, msgs, groupId, userId);
            |s.trace| > |t| && s.trace[..|t|] == t && Replies(s.trace[|t|..]) == 0 &&
            (s.out.Returned? && s.out.err.None? ==> s.out.resp.Some?)
  {
    var s := SubmitSpec(o, t, cfg, msgs, groupId, userId);
    var t1 := t + [PermitRequest(groupId, userId, SubjectPublishEvents, ToU32(|msgs|))];
    var (permit, e0) := o.permit(t);
    SubmitRequestsWholeBatch(o, t, cfg, msgs, groupId, userId);
    assert forall i :: |t| <= i < |s.trace| ==> !s.trace[i].Respond? by {
      if EncodeError(e0).None? {
        UtilizeCallKinds(o, t1, cfg, msgs, permit, groupId);
      }
    }
    NoReplies(s.trace[|t|..]);
  }

  /** A trace with no `Respond` call has no replies. */
  lemma {:induction false} NoReplies(t: seq<Call>)
    requires forall i :: 0 <= i < |t| ==> !t[i].Respond?
    ensures Replies(t) == 0
    decreases |t|
  {
    if t != [] {
      NoReplies(t[..|t| - 1]);
    }
  }

  /** A run of the loop extends the trace. */
  lemma {:induction false} StreamLoopExtends(o: Oracles, t: seq<Call>, cfg: Config, incoming: seq<seq<CloudEvent>>, closing: Error,
                                             groupId: string, userId: string, clock: nat -> nat -> Time, i: nat)
    ensures var r := StreamLoop(o, t, cfg, incoming, closing, groupId, userId, clock, i);
            |r.trace| >= |t| && r.trace[..|t|] == t
    decreases |incoming| - i
  {
    if i < |incoming| {
      var msgs := StampedAll(incoming[i], cfg.names, groupId, userId, clock(i));
      var s := SubmitSpec(o, t, cfg, msgs, groupId, userId);
      SubmitExtends(o, t, cfg, msgs, groupId, userId);
      if s.out.Returned? && s.out.err.None? && o.reply(s.trace).None? {
        var t2 := s.trace + [Respond(s.out.resp.value)];
        StreamLoopExtends(o, t2, cfg, incoming, closing, groupId, userId, clock, i + 1);
        assert t2[..|t|] == t;
      }
    }
  }

  /**
   * The loop only ever returns an error: the closing one after the last
   * batch, or the first failure; it acknowledges each batch at most once.
   */
  lemma {:induction false} StreamLoopEnds(o: Oracles, t: seq<Call>, cfg: Config, incoming: seq<seq<CloudEvent>>, closing: Error,
                                          groupId: string, userId: string, clock: nat -> nat -> Time, i: nat)
    ensures var r := StreamLoop(o, t, cfg, incoming, closing, groupId, userId, clock, i);
            |r.trace| >= |t| &&
            (r.out.Returned? ==> r.out.resp.None? && r.out.err.Some?) &&
            Replies(r.trace[|t|..]) <= if i <= |incoming| then |incoming| - i else 0
    decreases |incoming| - i
  {
    StreamLoopExtends(o, t, cfg, incoming, closing, groupId, userId, clock, i);
    var r := StreamLoop(o, t, cfg, incoming, closing, groupId, userId, clock, i);
    if i < |incoming| {
      var msgs := StampedAll(incoming[i], cfg.names, groupId, userId, clock(i));
      var s := SubmitSpec(o, t, cfg, msgs, groupId, userId);
      SubmitExtends(o, t, cfg, msgs, groupId, userId);
      if s.out.Returned? && s.out.err.None? && o.reply(s.trace).None? {
        var t2 := s.trace + [Respond(s.out.resp.value)];
        StreamLoopEnds(o, t2, cfg, incoming, closing, groupId, userId, clock, i + 1);
        StreamLoopExtends(o, t2, cfg, incoming, closing, groupId, userId, clock, i + 1);
        ReplyStep(t, s.trace, t2, r.trace, s.out.resp.value);
      } else {
        assert r.trace == s.trace || r.trace == s.trace + [Respond(s.out.resp.value)];
        ReplyTail(t, s.trace, r.trace);
      }
    } else {
      assert r.trace[|t|..] == [];
    }
  }

  lemma ReplyStep(t: seq<Call>, st: seq<Call>, t2: seq<Call>, rt: seq<Call>, ack: uint32)
    requires |st| >= |t| && st[..|t|] == t && Replies(st[|t|..]) == 0
    requires t2 == st + [Respond(ack)] && |rt| >= |t2| && rt[..|t2|] == t2
    ensures Replies(rt[|t|..]) == 1 + Replies(rt[|t2|..])
  {
    assert rt[|t|..] == st[|t|..] + [Respond(ack)] + rt[|t2|..];
    RepliesConcat(st[|t|..] + [Respond(ack)], rt[|t2|..]);
    RepliesConcat(st[|t|..], [Respond(ack)]);
  }

  lemma ReplyTail(t: seq<Call>, st: seq<Call>, rt: seq<Call>)
    requires |st| >= |t| && st[..|t|] == t && Replies(st[|t|..]) == 0
    requires rt == st || (|rt| == |st| + 1 && rt[..|st|] == st)
    ensures Replies(rt[|t|..]) <= 1
  {
    if rt != st {
      assert rt[|t|..] == st[|t|..] + [rt[|st|]];
      RepliesConcat(st[|t|..], [rt[|st|]]);
    }
  }

  /** The number of replies in a trace. */
  function Replies(t: seq<Call>): nat {
    if t == [] then 0 else Replies(t[..|t| - 1]) + (if t[|t| - 1].Respond? then 1 else 0)
  }

  lemma {:induction false} RepliesConcat(a: seq<Call>, b: seq<Call>)
    ensures Replies(a + b) == Replies(a) + Replies(b)
    decreases |b|
  {
    if b != [] {
      assert (a + b)[..|a + b| - 1] == a + b[..|b| - 1];
      RepliesConcat(a, b[..|b| - 1]);
    } else {
      assert a + b == a;
    }
  }

  /**
   * The services seen by the gateway: the trace of the calls made so far and
   * the oracles answering them.
   */
  class Backend {
    var trace: seq<Call>
    const o: Oracles
    const cfg: Config

    constructor(o: Oracles, cfg: Config)
      ensures trace == [] && this.o == o && this.cfg == cfg
    {
      this.trace := [];
      this.o := o;
      this.cfg := cfg;
    }

    /** `permits.Service.Request`. */
    method RequestPermit(groupId: string, userId: string, subject: Subject, count: uint32) returns (p: Permit, err: Option<Error>)
      modifies this
      ensures trace == old(trace) + [PermitRequest(groupId, userId, subject, count)]
      ensures (p, err) == o.permit(old(trace))
    {
      p, err := o.permit(trace).0, o.permit(trace).1;
      trace := trace + [PermitRequest(groupId, userId, subject, count)];
    }

    /** `permits.Service.Release`; its error is discarded by every caller. */
    method ReleasePermit(groupId: string, userId: string, subject: Subject, count: uint32)
      modifies this
      ensures trace == old(trace) + [PermitRelease(groupId, userId, subject, count)]
    {
      trace := trace + [PermitRelease(groupId, userId, subject, count)];
    }

    /** `Service_PublishClient.Send`. */
    method StreamSend(req: PublishRequest) returns (err: Option<Error>)
      modifies this
      ensures trace == old(trace) + [Send(req)] && err == o.send(old(trace))
    {
      err := o.send(trace);
      trace := trace + [Send(req)];
    }

    /** `Service_PublishClient.Recv`. */
    method StreamRecv() returns (resp: Option<uint32>, err: Option<Error>)
      modifies this
      ensures trace == old(trace) + [Recv] && (resp, err) == o.recv(old(trace))
    {
      resp, err := o.recv(trace).0, o.recv(trace).1;
      trace := trace + [Recv];
    }

    /** `SubmitInternalEvents` (service.go:118-134). */
    method SubmitInternalEvents(msgs: seq<CloudEvent>) returns (resp: Option<uint32>, err: Option<Error>)
      modifies this
      ensures Run(trace, Returned(resp, err)) == InternalSpec(o, old(trace), cfg.topic, msgs)
    {
      resp := None;
      err := StreamSend(PublishRequest(cfg.topic, msgs));
      if err.None? {
        resp, err := StreamRecv();
      }
    }

    /** `notifyLimitReached` (service.go:162-206). */
    method NotifyLimitReached(msgs: seq<CloudEvent>, groupId: string, userId: string) returns (resp: Option<uint32>, err: Option<Error>)
      modifies this
      ensures Run(trace, Returned(resp, err)) == NotifySpec(o, old(trace), cfg, msgs, groupId, userId)
    {
      var src := "";
      if |msgs| > 0 {
        src := msgs[0].source;
      }
      if userId == "" || userId == src {
        return None, None;
      }
      var evt := Notice(cfg, groupId, userId, src);
      resp, err := SubmitInternalEvents([evt]);
    }

    /** `utilizePermit` (service.go:136-160). */
    method UtilizePermit(msgs: seq<CloudEvent>, permit: Permit, groupId: string) returns (out: Outcome)
      modifies this
      ensures Run(trace, out) == UtilizeSpec(o, old(trace), cfg, msgs, permit, groupId)
    {
      var resp: Option<uint32> := None;
      var err: Option<Error> := None;
      if permit.justExhausted {
        resp, err := NotifyLimitReached(msgs, groupId, permit.userId);
      }
      var dstReq: PublishRequest;
      if err.None? {
        var applied := ApplyPermit(msgs, permit, cfg.topic);
        if applied.SliceFault? {
          return Panicked;
        } else if applied.Refused? {
          err := Some(applied.err);
        } else {
          dstReq := applied.req;
        }
      }
      if err.None? {
        err := StreamSend(dstReq);
      }
      var dstResp: Option<uint32> := None;
      if err.None? {
        dstResp, err := StreamRecv();
      }
      if dstResp.Some? {
        resp := dstResp;
      }
      return Returned(resp, err);
    }

    /** `SubmitPermittedEvents` (service.go:97-116). */
    method SubmitPermittedEvents(msgs: seq<CloudEvent>, groupId: string, userId: string) returns (out: Outcome)
      modifies this
      ensures Run(trace, out) == SubmitSpec(o, old(trace), cfg, msgs, groupId, userId)
    {
      var permit, err := RequestPermit(groupId, userId, SubjectPublishEvents, ToU32(|msgs|));
      err := EncodeError(err);
      var resp: Option<uint32> := None;
      if err.None? {
        out := UtilizePermit(msgs, permit, groupId);
        if out.Panicked? {
          return;
        }
        resp, err := out.resp, out.err;
      }
      var usedCount: uint32 := 0;
      if err.None? {
        if resp.None? {
          return Panicked;
        }
        usedCount := resp.value;
      }
      var unusedCount := SubU32(permit.count, usedCount);
      if unusedCount > 0 {
        ReleasePermit(groupId, permit.userId, SubjectPublishEvents, unusedCount);
      }
      return Returned(resp, err);
    }

    /** `Service_SubmitMessagesServer.Send`. */
    method ReplyToClient(ackCount: uint32) returns (err: Option<Error>)
      modifies this
      ensures trace == old(trace) + [Respond(ackCount)] && err == o.reply(old(trace))
    {
      err := o.reply(trace);
      trace := trace + [Respond(ackCount)];
    }

    /** `events.Service.Publish`: opening the event stream. */
    method OpenStream() returns (err: Option<Error>)
      modifies this
      ensures trace == old(trace) + [Open] && err == o.open(old(trace))
    {
      err := o.open(trace);
      trace := trace + [Open];
    }

    /** One pass of the loop of `SubmitMessages`: stamp the batch in place, then submit it. */
    method StampAndSubmit(msgs: seq<CloudEvent>, groupId: string, userId: string, now: nat -> Time)
      returns (out: Outcome)
      modifies this
      ensures Run(trace, out) == SubmitSpec(o, old(trace), cfg, StampedAll(msgs, cfg.names, groupId, userId, now), groupId, userId)
    {
      var evts := new CloudEvent[|msgs|](j requires 0 <= j < |msgs| => msgs[j]);
      assert evts[..] == msgs;
      StampAll(evts, cfg.names, groupId, userId, now);
      out := SubmitPermittedEvents(evts[..], groupId, userId);
    }

    /**
     * One iteration of the loop of `SubmitMessages` on request `i`: stamp and
     * submit the batch, then reply with the ack; `more` tells whether the loop
     * goes on.
     */
    method ForwardRequest(incoming: seq<seq<CloudEvent>>, closing: Error, groupId: string, userId: string,
                          clock: nat -> nat -> Time, i: nat) returns (out: Outcome, more: bool)
      requires i < |incoming|
      modifies this
      ensures StreamLoop(o, old(trace), cfg, incoming, closing, groupId, userId, clock, i)
           == if more then StreamLoop(o, trace, cfg, incoming, closing, groupId, userId, clock, i + 1) else Run(trace, out)
    {
      out := StampAndSubmit(incoming[i], groupId, userId, clock(i));
      if out.Panicked? {
        return out, false;
      }
      if out.err.Some? {
        return Returned(None, out.err), false;
      }
      var err := ReplyToClient(out.resp.value);
      if err.Some? {
        return Returned(None, err), false;
      }
      return out, true;
    }

    /** `SubmitMessages` (service.go:47-95). */
    method SubmitMessages(auth: Result<(string, string), Error>, incoming: seq<seq<CloudEvent>>, closing: Error,
                          clock: nat -> nat -> Time) returns (out: Outcome)
      modifies this
      ensures Run(trace, out) == StreamSpec(o, old(trace), cfg, auth, incoming, closing, clock)
    {
      if auth.Failure? {
        return Returned(None, Some(auth.error));
      }
      var groupId, userId := auth.value.0, auth.value.1;
      var err := OpenStream();
      if err.Some? {
        return Returned(None, err);
      }
      var i := 0;
      while i < |incoming|
        invariant 0 <= i <= |incoming|
        invariant StreamSpec(o, old(trace), cfg, auth, incoming, closing, clock)
               == StreamLoop(o, trace, cfg, incoming, closing, groupId, userId, clock, i)
        decreases |incoming| - i
      {
        var more;
        out, more := ForwardRequest(incoming, closing, groupId, userId, clock, i);
        if !more {
          return;
        }
        i := i + 1;
      }
      return Returned(None, Some(closing));
    }
  }
}
