/**
 * The decisions of the source-management HTTP handler
 * (api/http/pub/src/handler.go): creating a source of one of the supported
 * types, reading a source together with its owner's usage, deleting a
 * source and listing sources. The source, limits and permits services are
 * oracles; each handler yields the replies it writes.
 */
module SourceHandler {
  import opened Wrappers
  import opened Ints
  import opened Model
  import opened Grpc
  import opened Http
  import opened Decimal
  import opened Escape
  import opened SourceCreate
  import AuthMetadata
  import TgBot

  /** A day, in nanoseconds (`time.Duration`). */
  const Day: int := 86_400_000_000_000

  const PageLimitDefault: nat := 10
  const KeySrcAddr: string := "X-Awakari-Src-Addr"

  /**
   * The polling period of a feed polled `freq` times a day: `day / freq` as a
   * `time.Duration`, truncated to whole nanoseconds. The caller has validated
   * the payload, so `freq` is not zero.
   */
  function UpdatePeriod(freq: uint32): (d: int)
    requires freq > 0
    ensures d * freq <= Day < (d + 1) * freq
    ensures 0 < d <= Day
  {
    Day / freq
  }

  /** A validated feed is polled at most every five minutes and at least once a day. */
  lemma ValidatedFeedPeriod(cp: CreatePayload)
    requires Validate(cp).None? && cp.srcType == TypeFeed
    ensures cp.freq > 0
    ensures 300_000_000_000 <= UpdatePeriod(cp.freq) <= Day
  {
    var q, d := 300_000_000_000, UpdatePeriod(cp.freq);
    if d < q {
      MulLe(d + 1, q, cp.freq);
    }
  }

  lemma MulLe(x: int, y: int, z: nat)
    requires x <= y
    ensures x * z <= y * z
  {
    assert y * z - x * z == (y - x) * z;
  }

  // ---- records exchanged with the source services ----

  datatype Feed = Feed(url: string, groupId: string, userId: string, updatePeriod: int, nextUpdate: Time)

  datatype FeedRecord = FeedRecord(
    groupId: string, userId: string, itemLast: Option<Time>, updatePeriod: Option<int>, nextUpdate: Option<Time>,
    push: bool, counts: map<uint32, int64>, created: Option<Time>, terms: string, title: string)

  datatype ApubSource = ApubSource(
    groupId: string, userId: string, name: string, accepted: bool, last: Option<Time>, created: Option<Time>,
    term: string)

  datatype Site = Site(groupId: string, userId: string, lastUpdate: Option<Time>)

  datatype TgChannel = TgChannel(
    groupId: string, userId: string, link: string, name: string, created: Option<Time>, last: Option<Time>,
    terms: string)

  /** A list filter; a type whose filter lacks a field sends "" in its place. */
  datatype SourceFilter = SourceFilter(pattern: string, subId: string, groupId: string, userId: string)

  /**
   * The services the handler calls. A read yields a possibly nil record and a
   * possibly nil error; `list` is the list call of the service for the given
   * type.
   */
  datatype Services = Services(
    apubCreate: (string, string, string) -> (string, Option<Error>),
    feedCreate: Feed -> (string, Option<Error>),
    tgCreate: TgChannel -> Option<Error>,
    apubRead: string -> (Option<ApubSource>, Option<Error>),
    feedRead: string -> (Option<FeedRecord>, Option<Error>),
    siteRead: string -> (Option<Site>, Option<Error>),
    tgRead: string -> (Option<TgChannel>, Option<Error>),
    tgbotRead: string -> (Option<TgBot.Channel>, Option<Error>),
    apubDelete: (string, string, string) -> Option<Error>,
    feedDelete: (string, string, string) -> Option<Error>,
    siteDelete: (string, string, string) -> Option<Error>,
    tgDelete: string -> Option<Error>,
    list: (string, SourceFilter, uint32, string, Order) -> (seq<string>, Option<Error>),
    limitsGet: (string, string, Subject) -> (Limit, Option<Error>),
    getUsage: (string, string, Subject) -> (Usage, Option<Error>))

  // ---- Create ----

  /** The request body: unreadable, not a JSON payload, or the parsed payload. */
  datatype CreateBody = BodyUnreadable(err: Error) | BodyMalformed(err: Error) | BodyParsed(payload: CreatePayload)

  /** The creation call made, if any. */
  datatype CreateCall = ApubCreate(addr: string, groupId: string, userId: string) | FeedCreate(feed: Feed) | TgCreate(ch: TgChannel)

  datatype Created = Created(writes: seq<Reply<()>>, call: Option<CreateCall>)

  /** The status of the creation reply (handler.go:109-120). */
  function CreateStatus(err: Option<Error>): (s: nat)
    ensures s == 201 <==> err.None?
    ensures s == StatusBadRequest <==> CodeOf(err) == InvalidArgument
    ensures s == StatusConflict <==> CodeOf(err) == AlreadyExists
    ensures s == StatusForbidden <==> CodeOf(err) == PermissionDenied
    ensures s == StatusInternalServerError <==> err.Some? && CodeOf(err) !in {InvalidArgument, AlreadyExists, PermissionDenied}
  {
    if err.None? then 201
    else if CodeOf(err) == InvalidArgument then StatusBadRequest
    else if CodeOf(err) == AlreadyExists then StatusConflict
    else if CodeOf(err) == PermissionDenied then StatusForbidden
    else StatusInternalServerError
  }

  /** The last reply of a creation: the service's message on success, the error text otherwise. */
  function CreateReply(msg: string, err: Option<Error>): Reply<()> {
    Reply(CreateStatus(err), PlainText(if err.None? then msg else Text(err.value)))
  }

  /**
   * `Create` (handler.go:68-122): the type comes from the path; a valid
   * payload creates an ActivityPub source, a feed polled `UpdatePeriod(freq)`
   * apart from `now` on, or a Telegram channel. A valid site payload has no
   * creation branch: it is answered 400 and then, its error being nil, 201.
   */
  function Create(svcs: Services, groupId: string, userId: string, body: CreateBody, typ: string, now: Time): (r: Created)
    ensures body.BodyUnreadable? ==> r.writes == [Reply(StatusInternalServerError, PlainText(Text(body.err)))] && r.call.None?
    ensures body.BodyMalformed? ==> r.writes == [Reply(StatusBadRequest, PlainText(Text(body.err)))] && r.call.None?
    ensures body.BodyParsed? && Validate(body.payload.(srcType := typ)).Some? ==>
              r.writes == [Reply(StatusBadRequest, PlainText(Text(Validate(body.payload.(srcType := typ)).value)))] &&
              r.call.None?
    ensures r.call.Some? <==> body.BodyParsed? && Validate(body.payload.(srcType := typ)).None? && typ != TypeSite
    ensures body.BodyParsed? && Validate(body.payload.(srcType := typ)).None? && typ == TypeFeed ==>
              var feed := Feed(body.payload.addr, groupId, userId, UpdatePeriod(body.payload.freq), now);
              r.call == Some(FeedCreate(feed)) &&
              r.writes == [CreateReply(svcs.feedCreate(feed).0, svcs.feedCreate(feed).1)]
    ensures body.BodyParsed? && Validate(body.payload.(srcType := typ)).None? && typ == TypeApub ==>
              var (addr, answer) := (body.payload.addr, svcs.apubCreate(body.payload.addr, groupId, userId));
              r.call == Some(ApubCreate(addr, groupId, userId)) && r.writes == [CreateReply(answer.0, answer.1)]
    ensures body.BodyParsed? && Validate(body.payload.(srcType := typ)).None? && typ == TypeTgCh ==>
              var ch := TgChannel(groupId, userId, body.payload.addr, "", None, None, "");
              r.call == Some(TgCreate(ch)) && r.writes == [CreateReply("", svcs.tgCreate(ch))]
    ensures |r.writes| == 2 <==> body.BodyParsed? && Validate(body.payload.(srcType := typ)).None? && typ == TypeSite
    ensures 1 <= |r.writes| <= 2
  {
    match body
    case BodyUnreadable(e) => Created([Reply(StatusInternalServerError, PlainText(Text(e)))], None)
    case BodyMalformed(e) => Created([Reply(StatusBadRequest, PlainText(Text(e)))], None)
    case BodyParsed(p) =>
      var payload := p.(srcType := typ);
      var err := Validate(payload);
      if err.Some? then Created([Reply(StatusBadRequest, PlainText(Text(err.value)))], None)
      else if typ == TypeApub then
        var (msg, e) := svcs.apubCreate(payload.addr, groupId, userId);
        Created([CreateReply(msg, e)], Some(ApubCreate(payload.addr, groupId, userId)))
      else if typ == TypeFeed then
        var feed := Feed(payload.addr, groupId, userId, UpdatePeriod(payload.freq), now);
        var (msg, e) := svcs.feedCreate(feed);
        Created([CreateReply(msg, e)], Some(FeedCreate(feed)))
      else if typ == TypeTgCh then
        var ch := TgChannel(groupId, userId, payload.addr, "", None, None, "");
        var e := svcs.tgCreate(ch);
        Created([CreateReply("", e)], Some(TgCreate(ch)))
      else
        Created([Reply(StatusBadRequest, PlainText("unsupported source type: " + typ)), CreateReply("", None)], None)
  }

  /** A valid site payload is answered twice, 400 and then 201, and nothing is created. */
  lemma CreateSiteAnswersTwice(svcs: Services, groupId: string, userId: string, addr: string, freq: uint32, now: Time)
    requires addr != ""
    ensures var r := Create(svcs, groupId, userId, BodyParsed(CreatePayload(freq, addr, "")), TypeSite, now);
            r.writes == [Reply(StatusBadRequest, PlainText("unsupported source type: site")), Reply(201, PlainText(""))] &&
            r.call.None?
  {
    assert "unsupported source type: " + TypeSite == "unsupported source type: site";
  }

  // ---- Read ----

  datatype UsagePayload = UsagePayload(usageType: UsageType, count: int64, total: int64, limit: int64)

  datatype ReadPayload = ReadPayload(
    addr: string, groupId: string, userId: string, lastUpdate: Time, nextUpdate: Time, updatePeriod: int,
    usage: UsagePayload, push: bool, counts: map<uint32, int64>, name: string, accepted: bool, created: Time,
    query: string)

  /** The payload before any field is filled: Go's zero values and an empty count map. */
  const EmptyPayload: ReadPayload :=
    ReadPayload("", "", "", ZeroTime, ZeroTime, 0, UsagePayload(UsageTypeUndefined, 0, 0, 0), false, map[], "", false,
                ZeroTime, "")

  /** The source lookup: the payload and error it leaves, an unknown type, or a nil-record panic. */
  datatype Fetched = Fetched(result: ReadPayload, err: Option<Error>) | UnknownType | FetchPanicked

  /**
   * The type switch of `Read` (handler.go:138-230): each service's record is
   * copied into the payload when the read succeeds; on an error the payload
   * stays empty.
   */
  function FetchSource(svcs: Services, typ: string, addr: string): (f: Fetched)
    ensures f.UnknownType? <==> typ !in {TypeApub, TypeFeed, TypeSite, TypeTgCh, TypeTgbc}
    ensures f.Fetched? && f.err.Some? ==> f.result == EmptyPayload
    ensures f.Fetched? && f.err.None? ==> f.result.addr == addr
    ensures f.Fetched? && f.err.None? && typ != TypeApub ==> f.result.accepted
    ensures f.Fetched? && f.err.None? && typ in {TypeApub, TypeTgCh, TypeTgbc} ==> f.result.push
    ensures f.Fetched? && f.err.None? && typ == TypeTgbc ==> f.result.groupId == "" && f.result.userId == ""
    ensures f.Fetched? && f.err.None? && typ == TypeFeed ==>
              svcs.feedRead(addr).0.Some? && f.result.counts == svcs.feedRead(addr).0.value.counts
    ensures f.Fetched? && f.err.None? && typ == TypeApub ==>
              svcs.apubRead(addr).0.Some? &&
              var s := svcs.apubRead(addr).0.value;
              f.result.groupId == s.groupId && f.result.userId == s.userId && f.result.name == s.name &&
              f.result.accepted == s.accepted && f.result.query == s.term &&
              f.result.created == s.created.GetOr(ZeroTime) && f.result.lastUpdate == s.last.GetOr(ZeroTime)
    ensures f.Fetched? && f.err.None? && typ == TypeFeed ==>
              f.result == FeedPayload(svcs.feedRead(addr).0.value, addr)
    ensures f.Fetched? && f.err.None? && typ == TypeSite ==>
              svcs.siteRead(addr).0.Some? &&
              var s := svcs.siteRead(addr).0.value;
              f.result.groupId == s.groupId && f.result.userId == s.userId &&
              f.result.lastUpdate == s.lastUpdate.GetOr(ZeroTime)
    ensures f.Fetched? && f.err.None? && typ == TypeTgCh ==>
              svcs.tgRead(addr).0.Some? &&
              var s := svcs.tgRead(addr).0.value;
              f.result.groupId == s.groupId && f.result.userId == s.userId && f.result.name == s.name &&
              f.result.query == s.terms && f.result.created == s.created.GetOr(ZeroTime) &&
              f.result.lastUpdate == s.last.GetOr(ZeroTime)
    ensures f.Fetched? && f.err.None? && typ == TypeTgbc ==>
              svcs.tgbotRead(addr).0.Some? &&
              f.result.lastUpdate == svcs.tgbotRead(addr).0.value.lastUpdate.GetOr(ZeroTime)
    ensures f.Fetched? && f.err.None? ==> f.result.usage == EmptyPayload.usage
  {
    if typ == TypeApub then
      var (src, err) := svcs.apubRead(addr);
      if err.Some? then Fetched(EmptyPayload, err)
      else if src.None? then FetchPanicked
      else
        var s := src.value;
        Fetched(EmptyPayload.(addr := addr, groupId := s.groupId, userId := s.userId, push := true, name := s.name,
                              accepted := s.accepted, lastUpdate := s.last.GetOr(ZeroTime),
                              created := s.created.GetOr(ZeroTime), query := s.term), None)
    else if typ == TypeFeed then
      var (feed, err) := svcs.feedRead(addr);
      if err.Some? then Fetched(EmptyPayload, err)
      else if feed.None? then FetchPanicked
      else
        Fetched(FeedPayload(feed.value, addr), None)
    else if typ == TypeSite then
      var (site, err) := svcs.siteRead(addr);
      if err.Some? then Fetched(EmptyPayload, err)
      else if site.None? then FetchPanicked
      else
        var s := site.value;
        Fetched(EmptyPayload.(addr := addr, groupId := s.groupId, userId := s.userId,
                              lastUpdate := s.lastUpdate.GetOr(ZeroTime), accepted := true), None)
    else if typ == TypeTgCh then
      var (ch, err) := svcs.tgRead(addr);
      if err.Some? then Fetched(EmptyPayload, err)
      else if ch.None? then FetchPanicked
      else
        var s := ch.value;
        Fetched(EmptyPayload.(addr := addr, groupId := s.groupId, userId := s.userId, push := true, name := s.name,
                              accepted := true, created := s.created.GetOr(ZeroTime),
                              lastUpdate := s.last.GetOr(ZeroTime), query := s.terms), None)
    else if typ == TypeTgbc then
      var (ch, err) := svcs.tgbotRead(addr);
      if err.Some? then Fetched(EmptyPayload, err)
      else if ch.None? then FetchPanicked
      else
        Fetched(EmptyPayload.(addr := addr, lastUpdate := ch.value.lastUpdate.GetOr(ZeroTime), push := true,
                              accepted := true), None)
    else UnknownType
  }

  /** The payload of a feed (handler.go:162-185): its fields, an absent time or period left zero, and always accepted. */
  function FeedPayload(s: FeedRecord, addr: string): (p: ReadPayload)
    ensures p.addr == addr && p.groupId == s.groupId && p.userId == s.userId && p.accepted
    ensures p.counts == s.counts && p.push == s.push && p.name == s.title && p.query == s.terms
    ensures s.updatePeriod.Some? ==> p.updatePeriod == s.updatePeriod.value
    ensures s.updatePeriod.None? ==> p.updatePeriod == 0
    ensures p.usage == EmptyPayload.usage
  {
    EmptyPayload.(addr := addr, groupId := s.groupId, userId := s.userId, lastUpdate := s.itemLast.GetOr(ZeroTime),
                  updatePeriod := s.updatePeriod.GetOr(0), nextUpdate := s.nextUpdate.GetOr(ZeroTime),
                  push := s.push, counts := s.counts, accepted := true, created := s.created.GetOr(ZeroTime),
                  query := s.terms, name := s.title)
  }

  /**
   * The feed branch of `Read` (handler.go:159-185), field by field; the
   * counts are copied entry by entry in the map's iteration order `order`.
   */
  method FillFeedPayload(s: FeedRecord, addr: string, order: seq<uint32>) returns (result: ReadPayload)
    requires forall k :: k in s.counts <==> k in order
    ensures result == FeedPayload(s, addr)
  {
    result := EmptyPayload;
    result := result.(addr := addr, groupId := s.groupId, userId := s.userId);
    if s.itemLast.Some? {
      result := result.(lastUpdate := s.itemLast.value);
    }
    if s.updatePeriod.Some? {
      result := result.(updatePeriod := s.updatePeriod.value);
    }
    if s.nextUpdate.Some? {
      result := result.(nextUpdate := s.nextUpdate.value);
    }
    result := result.(push := s.push);
    var counts := CopyCounts(s.counts, order);
    result := result.(counts := counts, accepted := true);
    if s.created.Some? {
      result := result.(created := s.created.value);
    }
    result := result.(query := s.terms, name := s.title);
  }

  /** A Telegram-bot channel the lookup did not find makes `Read` dereference nil. */
  lemma MissingBotChannelPanics(svcs: Services, addr: string)
    requires svcs.tgbotRead(addr) == (None, None)
    ensures FetchSource(svcs, TypeTgbc, addr).FetchPanicked?
  {
  }

  /** Whose limit a source is charged to: its user, or its address when it has none. */
  function Owner(result: ReadPayload): (o: string)
    ensures result.userId != "" ==> o == result.userId
    ensures result.userId == "" ==> o == result.addr
  {
    if result.userId == "" then result.addr else result.userId
  }

  /**
   * The enrichment of `Read` (handler.go:232-261): the owner's limit, then
   * the usage of the principal the limit belongs to, then the usage type,
   * hiding the owner of someone else's source. `caller` is the user id
   * header of the request.
   */
  function Enrich(svcs: Services, groupId: string, caller: string, result: ReadPayload): (r: (ReadPayload, Option<Error>))
    ensures var (limit, e1) := svcs.limitsGet(groupId, Owner(result), SubjectPublishEvents);
            var (usage, e2) := svcs.getUsage(groupId, limit.userId, SubjectPublishEvents);
            (e1.Some? ==> r == (result, e1)) &&
            (e1.None? && e2.Some? ==> r == (result.(usage := result.usage.(limit := limit.count)), e2)) &&
            (e1.None? && e2.None? ==>
               r.1.None? && r.0.usage.limit == limit.count && r.0.usage.count == usage.count &&
               r.0.usage.total == usage.countTotal)
    ensures r.1.None? ==>
              (result.userId == "" ==> r.0.usage.usageType == UsageTypeShared && r.0.userId == "") &&
              (result.userId != "" && result.userId == caller ==>
                 r.0.usage.usageType == UsageTypePrivate && r.0.userId == result.userId) &&
              (result.userId != "" && result.userId != caller ==>
                 r.0.usage.usageType == UsageTypePrivate && r.0.userId == "")
    ensures r.0.(userId := result.userId, usage := result.usage) == result
  {
    var (limit, e1) := svcs.limitsGet(groupId, Owner(result), SubjectPublishEvents);
    if e1.Some? then (result, e1)
    else
      var withLimit := result.(usage := result.usage.(limit := limit.count));
      var (usage, e2) := svcs.getUsage(groupId, limit.userId, SubjectPublishEvents);
      if e2.Some? then (withLimit, e2)
      else
        var counted := withLimit.(usage := withLimit.usage.(count := usage.count, total := usage.countTotal));
        if result.userId == "" then (counted.(usage := counted.usage.(usageType := UsageTypeShared)), None)
        else if result.userId == caller then (counted.(usage := counted.usage.(usageType := UsageTypePrivate)), None)
        else (counted.(userId := "", usage := counted.usage.(usageType := UsageTypePrivate)), None)
  }

  /** The reply to a failed lookup or call: 404 for NotFound, 500 for any other error, with the error's text. */
  function ErrorReply<T>(err: Error): Reply<T> {
    Reply(if CodeOf(Some(err)) == NotFound then StatusNotFound else StatusInternalServerError, PlainText(Text(err)))
  }

  /** The final reply of `Read` and `Delete`: `ok` on success, 404 for NotFound, 500 for any other error. */
  function ResultReply<T>(ok: Reply<T>, err: Option<Error>): (r: Reply<T>)
    ensures err.None? ==> r == ok
    ensures err.Some? ==> r == Reply(if CodeOf(err) == NotFound then StatusNotFound else StatusInternalServerError,
                                     PlainText(Text(err.value)))
  {
    if err.None? then ok else ErrorReply(err.value)
  }

  /** The address of the request: the header, URL-unescaped by `unescape` and with non-ASCII characters escaped. */
  datatype Addressed = Addressed(addr: string) | AddressRejected(text: string)

  function Address(header: string -> string, unescape: string -> Option<string>, invalidText: string): (a: Addressed)
    ensures header(KeySrcAddr) == "" ==>
              a == AddressRejected("missing header: " + KeySrcAddr)
    ensures header(KeySrcAddr) != "" && unescape(header(KeySrcAddr)).None? ==>
              a == AddressRejected(invalidText + header(KeySrcAddr))
    ensures header(KeySrcAddr) != "" && unescape(header(KeySrcAddr)).Some? ==>
              a == Addressed(Escaped(unescape(header(KeySrcAddr)).value)) && IsAscii(a.addr)
  {
    var addrEnc := header(KeySrcAddr);
    if addrEnc == "" then AddressRejected("missing header: " + KeySrcAddr)
    else match unescape(addrEnc)
      case None => AddressRejected(invalidText + addrEnc)
      case Some(addr) =>
        EscapedIsAscii(addr);
        Addressed(Escaped(addr))
  }

  /**
   * `Read` (handler.go:124-274) as written: the error of the source lookup is
   * overwritten by the limits call, so a failed lookup is enriched and
   * answered like a found source.
   */
  function ReadAsWritten(svcs: Services, keys: AuthMetadata.AuthKeys, header: string -> string,
                         unescape: string -> Option<string>, typ: string): (r: Reply<ReadPayload>)
    ensures var a := Address(header, unescape, "invalid url encoded source address: ");
            (a.AddressRejected? ==> r == Reply(StatusBadRequest, PlainText(a.text))) &&
            (a.Addressed? && FetchSource(svcs, typ, a.addr).UnknownType? ==>
               r == Reply(StatusBadRequest, PlainText("invalid source type: " + typ))) &&
            (a.Addressed? && FetchSource(svcs, typ, a.addr).FetchPanicked? ==> r == Crashed) &&
            (a.Addressed? && FetchSource(svcs, typ, a.addr).Fetched? ==>
               var e := Enrich(svcs, header(keys.groupId), header(keys.userId), FetchSource(svcs, typ, a.addr).result);
               r == ResultReply(Reply(StatusOK, Json(e.0)), e.1))
  {
    match Address(header, unescape, "invalid url encoded source address: ")
    case AddressRejected(text) => Reply(StatusBadRequest, PlainText(text))
    case Addressed(addr) =>
      match FetchSource(svcs, typ, addr)
      case UnknownType => Reply(StatusBadRequest, PlainText("invalid source type: " + typ))
      case FetchPanicked => Crashed
      case Fetched(result, _) =>
        var (enriched, err) := Enrich(svcs, header(keys.groupId), header(keys.userId), result);
        ResultReply(Reply(StatusOK, Json(enriched)), err)
  }

  /** Services under which a feed is not found while the limits and usage calls succeed. */
  function LostLookupServices(base: Services): Services {
    base.(feedRead := _ => (None, Some(Status(NotFound, "feed not found"))),
          limitsGet := (_, _, _) => (ZeroLimit, None),
          getUsage := (_, _, _) => (ZeroUsage, None))
  }

  /** As written, a feed that is not found is answered 200 with an empty, shared payload instead of 404. */
  lemma ReadAsWrittenLosesLookupError(base: Services, keys: AuthMetadata.AuthKeys, header: string -> string,
                                      unescape: string -> Option<string>)
    requires header(KeySrcAddr) != "" && unescape(header(KeySrcAddr)).Some?
    ensures var svcs := LostLookupServices(base);
            svcs.feedRead(Escaped(unescape(header(KeySrcAddr)).value)).1 == Some(Status(NotFound, "feed not found")) &&
            ReadAsWritten(svcs, keys, header, unescape, TypeFeed).Reply? &&
            ReadAsWritten(svcs, keys, header, unescape, TypeFeed).status == StatusOK
  {
  }

  /** `Read` as evidently intended: a failed lookup is answered from its own error, without enrichment. */
  function Read(svcs: Services, keys: AuthMetadata.AuthKeys, header: string -> string,
                unescape: string -> Option<string>, typ: string): (r: Reply<ReadPayload>)
    ensures var a := Address(header, unescape, "invalid url encoded source address: ");
            (a.AddressRejected? ==> r == Reply(StatusBadRequest, PlainText(a.text))) &&
            (a.Addressed? && FetchSource(svcs, typ, a.addr).UnknownType? ==>
               r == Reply(StatusBadRequest, PlainText("invalid source type: " + typ))) &&
            (a.Addressed? && FetchSource(svcs, typ, a.addr).FetchPanicked? ==> r == Crashed) &&
            (a.Addressed? && FetchSource(svcs, typ, a.addr).Fetched? && FetchSource(svcs, typ, a.addr).err.Some? ==>
               r == ErrorReply(FetchSource(svcs, typ, a.addr).err.value)) &&
            (a.Addressed? && FetchSource(svcs, typ, a.addr).Fetched? && FetchSource(svcs, typ, a.addr).err.None? ==>
               var e := Enrich(svcs, header(keys.groupId), header(keys.userId), FetchSource(svcs, typ, a.addr).result);
               r == ResultReply(Reply(StatusOK, Json(e.0)), e.1))
  {
    match Address(header, unescape, "invalid url encoded source address: ")
    case AddressRejected(text) => Reply(StatusBadRequest, PlainText(text))
    case Addressed(addr) =>
      match FetchSource(svcs, typ, addr)
      case UnknownType => Reply(StatusBadRequest, PlainText("invalid source type: " + typ))
      case FetchPanicked => Crashed
      case Fetched(result, lookupErr) =>
        if lookupErr.Some? then ErrorReply(lookupErr.value)
        else
          var (enriched, err) := Enrich(svcs, header(keys.groupId), header(keys.userId), result);
          ResultReply(Reply(StatusOK, Json(enriched)), err)
  }

  /**
   * A failed lookup is answered 404 when the source is not found and 500
   * otherwise; a successful one is answered exactly as written.
   */
  lemma ReadReportsLookupError(svcs: Services, keys: AuthMetadata.AuthKeys, header: string -> string,
                               unescape: string -> Option<string>, typ: string)
    requires header(KeySrcAddr) != "" && unescape(header(KeySrcAddr)).Some?
    ensures var addr := Escaped(unescape(header(KeySrcAddr)).value);
            var f := FetchSource(svcs, typ, addr);
            (f.Fetched? && f.err.Some? ==>
               Read(svcs, keys, header, unescape, typ)
               == Reply(if CodeOf(f.err) == NotFound then StatusNotFound else StatusInternalServerError,
                        PlainText(Text(f.err.value)))) &&
            (!(f.Fetched? && f.err.Some?) ==>
               Read(svcs, keys, header, unescape, typ) == ReadAsWritten(svcs, keys, header, unescape, typ))
  {
  }

  /**
   * A found ActivityPub source whose limit and usage are read is answered 200
   * with its record: the ids, name and acceptance are the record's, the usage
   * is the owner's, and the user id is shown only to that user.
   */
  lemma ReadFoundActivityPub(svcs: Services, keys: AuthMetadata.AuthKeys, header: string -> string,
                             unescape: string -> Option<string>)
    requires header(KeySrcAddr) != "" && unescape(header(KeySrcAddr)).Some?
    requires var addr := Escaped(unescape(header(KeySrcAddr)).value);
             svcs.apubRead(addr).1.None? && svcs.apubRead(addr).0.Some? &&
             var owner := if svcs.apubRead(addr).0.value.userId == "" then addr else svcs.apubRead(addr).0.value.userId;
             var (limit, e1) := svcs.limitsGet(header(keys.groupId), owner, SubjectPublishEvents);
             e1.None? && svcs.getUsage(header(keys.groupId), limit.userId, SubjectPublishEvents).1.None?
    ensures var addr := Escaped(unescape(header(KeySrcAddr)).value);
            var s := svcs.apubRead(addr).0.value;
            var owner := if s.userId == "" then addr else s.userId;
            var limit := svcs.limitsGet(header(keys.groupId), owner, SubjectPublishEvents).0;
            var usage := svcs.getUsage(header(keys.groupId), limit.userId, SubjectPublishEvents).0;
            var r := Read(svcs, keys, header, unescape, TypeApub);
            r.Reply? && r.status == StatusOK && r.body.Json? &&
            r.body.value.addr == addr && r.body.value.groupId == s.groupId && r.body.value.name == s.name &&
            r.body.value.accepted == s.accepted && r.body.value.query == s.term &&
            r.body.value.usage.limit == limit.count && r.body.value.usage.count == usage.count &&
            r.body.value.usage.total == usage.countTotal &&
            r.body.value.userId == (if s.userId == header(keys.userId) then s.userId else "") &&
            r.body.value.usage.usageType == (if s.userId == "" then UsageTypeShared else UsageTypePrivate) &&
            r == ReadAsWritten(svcs, keys, header, unescape, TypeApub)
  {
    var addr := Escaped(unescape(header(KeySrcAddr)).value);
    var f := FetchSource(svcs, TypeApub, addr);
    assert Owner(f.result) == (if svcs.apubRead(addr).0.value.userId == "" then addr else svcs.apubRead(addr).0.value.userId);
  }

  /** The counts of a feed: every entry of `src`, visited in the map's iteration order `order` (handler.go:176-178). */
  method CopyCounts(src: map<uint32, int64>, order: seq<uint32>) returns (dst: map<uint32, int64>)
    requires forall k :: k in src <==> k in order
    ensures dst == src
  {
    dst := map[];
    var i := 0;
    while i < |order|
      invariant 0 <= i <= |order|
      invariant dst.Keys == (set j | 0 <= j < i :: order[j])
      invariant forall k :: k in dst ==> k in src && dst[k] == src[k]
    {
      assert order[i] in src;
      dst := dst[order[i] := src[order[i]]];
      i := i + 1;
    }
    assert forall k :: k in src ==> k in dst by {
      forall k | k in src ensures k in dst {
        var j :| 0 <= j < |order| && order[j] == k;
      }
    }
  }

  // ---- Delete ----

  datatype Deleted = Deleted(reply: Reply<()>, deleteCalled: bool)

  /**
   * `Delete` (handler.go:276-323): the ActivityPub, feed and site services
   * check ownership themselves; a Telegram channel is read first and deleted
   * only when both the group and the user of the caller own it, and answered
   * 403 otherwise.
   */
  function Delete(svcs: Services, groupId: string, userId: string, header: string -> string,
                  unescape: string -> Option<string>, typ: string): (r: Deleted)
    ensures r.deleteCalled ==> Address(header, unescape, "invalid encoded source address: ").Addressed? &&
                               typ in {TypeApub, TypeFeed, TypeSite, TypeTgCh}
    ensures var a := Address(header, unescape, "invalid encoded source address: ");
            a.AddressRejected? ==> r == Deleted(Reply(StatusBadRequest, PlainText(a.text)), false)
    ensures var a := Address(header, unescape, "invalid encoded source address: ");
            a.Addressed? && typ in {TypeApub, TypeFeed, TypeSite} ==>
              var e := if typ == TypeApub then svcs.apubDelete(a.addr, groupId, userId)
                       else if typ == TypeFeed then svcs.feedDelete(a.addr, groupId, userId)
                       else svcs.siteDelete(a.addr, groupId, userId);
              r == Deleted(ResultReply(Reply(StatusOK, PlainText("")), e), true)
    ensures var a := Address(header, unescape, "invalid encoded source address: ");
            a.Addressed? && typ !in {TypeApub, TypeFeed, TypeSite, TypeTgCh} ==>
              r == Deleted(Reply(StatusBadRequest, PlainText("invalid source type: " + typ)), false)
    ensures var a := Address(header, unescape, "invalid encoded source address: ");
            a.Addressed? && typ == TypeTgCh ==>
              var (ch, e) := svcs.tgRead(a.addr);
              (e.Some? ==> !r.deleteCalled && r.reply == ResultReply(Reply(StatusOK, PlainText("")), e)) &&
              (e.None? && ch.Some? ==>
                 (r.deleteCalled <==> ch.value.groupId == groupId && ch.value.userId == userId) &&
                 (!r.deleteCalled ==> r.reply == Reply(StatusForbidden, PlainText(""))) &&
                 (r.deleteCalled ==> r.reply == ResultReply(Reply(StatusOK, PlainText("")), svcs.tgDelete(a.addr)))) &&
              (e.None? && ch.None? ==> r == Deleted(Crashed, false))
  {
    match Address(header, unescape, "invalid encoded source address: ")
    case AddressRejected(text) => Deleted(Reply(StatusBadRequest, PlainText(text)), false)
    case Addressed(addr) =>
      var ok := Reply(StatusOK, PlainText(""));
      if typ == TypeApub then Deleted(ResultReply(ok, svcs.apubDelete(addr, groupId, userId)), true)
      else if typ == TypeFeed then Deleted(ResultReply(ok, svcs.feedDelete(addr, groupId, userId)), true)
      else if typ == TypeSite then Deleted(ResultReply(ok, svcs.siteDelete(addr, groupId, userId)), true)
      else if typ == TypeTgCh then
        var (ch, e) := svcs.tgRead(addr);
        if e.Some? then Deleted(ResultReply(ok, e), false)
        else if ch.None? then Deleted(Crashed, false)
        else if ch.value.groupId == groupId && ch.value.userId == userId then
          Deleted(ResultReply(ok, svcs.tgDelete(addr)), true)
        else Deleted(Reply(StatusForbidden, PlainText("")), false)
      else Deleted(Reply(StatusBadRequest, PlainText("invalid source type: " + typ)), false)
  }

  // ---- List ----

  /** `ctx.DefaultQuery`: the query parameter when present, even empty, and the default otherwise. */
  function DefaultQuery(query: map<string, string>, key: string, default: string): string {
    if key in query then query[key] else default
  }

  /** The list call made. */
  datatype ListCall = ListCall(typ: string, filter: SourceFilter, limit: uint32, cursor: string, order: Order)

  datatype Listing = Listing(reply: Reply<seq<string>>, call: Option<ListCall>)

  /** The list order named by a query value, if any. */
  function OrderOf(s: string): (o: Option<Order>)
    ensures o == Some(OrderAsc) <==> s == "ASC"
    ensures o == Some(OrderDesc) <==> s == "DESC"
  {
    if s == "ASC" then Some(OrderAsc) else if s == "DESC" then Some(OrderDesc) else None
  }

  /** The filter of a list call: only ActivityPub, feeds and Telegram channels filter on a subscription, and the Telegram-bot filter has the pattern alone. */
  function FilterOf(typ: string, pattern: string, subId: string, own: bool, groupId: string, userId: string): (f: SourceFilter)
    ensures f.pattern == pattern
    ensures f.subId == (if typ in {TypeApub, TypeFeed, TypeTgCh} then subId else "")
    ensures own && typ != TypeTgbc ==> f.groupId == groupId && f.userId == userId
    ensures !own || typ == TypeTgbc ==> f.groupId == "" && f.userId == ""
  {
    var sub := if typ in {TypeApub, TypeFeed, TypeTgCh} then subId else "";
    if own && typ != TypeTgbc then SourceFilter(pattern, sub, groupId, userId) else SourceFilter(pattern, sub, "", "")
  }

  /**
   * `List` (handler.go:325-411): the limit (default 10) must be a positive
   * 32-bit decimal, `own` a boolean (default false) and the order ASC or
   * DESC (default ASC); each failure is answered 400 before any call. The
   * cursor is the source-address header.
   */
  function List(svcs: Services, groupId: string, userId: string, query: map<string, string>, header: string -> string,
                typ: string): (r: Listing)
    ensures var limitStr := DefaultQuery(query, "limit", Itoa(PageLimitDefault));
            var lim := ParseUint(limitStr, 32);
            (lim.None? || lim.value == 0) ==>
              r == Listing(Reply(StatusBadRequest, PlainText("invalid limit query param: " + limitStr)), None)
    ensures var lim := ParseUint(DefaultQuery(query, "limit", Itoa(PageLimitDefault)), 32);
            var ownStr := DefaultQuery(query, "own", "false");
            var orderStr := DefaultQuery(query, "order", "ASC");
            lim.Some? && lim.value > 0 ==>
              (ParseBool(ownStr).None? ==>
                 r == Listing(Reply(StatusBadRequest, PlainText("invalid own query param: " + ownStr)), None)) &&
              (ParseBool(ownStr).Some? && OrderOf(orderStr).None? ==>
                 r == Listing(Reply(StatusBadRequest, PlainText("unrecognized order: " + orderStr)), None)) &&
              (ParseBool(ownStr).Some? && OrderOf(orderStr).Some? &&
               typ !in {TypeApub, TypeFeed, TypeSite, TypeTgCh, TypeTgbc} ==>
                 r == Listing(Reply(StatusBadRequest, PlainText("invalid source type: " + typ)), None))
    ensures var lim := ParseUint(DefaultQuery(query, "limit", Itoa(PageLimitDefault)), 32);
            (lim.Some? && lim.value > 0 && ParseBool(DefaultQuery(query, "own", "false")).Some? &&
             OrderOf(DefaultQuery(query, "order", "ASC")).Some? &&
             typ in {TypeApub, TypeFeed, TypeSite, TypeTgCh, TypeTgbc}) ==> r.call.Some?
    ensures r.call.Some? ==>
              var lim := ParseUint(DefaultQuery(query, "limit", Itoa(PageLimitDefault)), 32);
              var own := ParseBool(DefaultQuery(query, "own", "false"));
              var order := OrderOf(DefaultQuery(query, "order", "ASC"));
              lim.Some? && 0 < lim.value < U32_LIMIT && own.Some? && order.Some? &&
              typ in {TypeApub, TypeFeed, TypeSite, TypeTgCh, TypeTgbc} &&
              r.call.value == ListCall(typ, FilterOf(typ, DefaultQuery(query, "filter", ""),
                                                     DefaultQuery(query, "subId", ""), own.value, groupId, userId),
                                       lim.value, header(KeySrcAddr), order.value)
    ensures r.call.Some? ==>
              var (page, e) := svcs.list(r.call.value.typ, r.call.value.filter, r.call.value.limit,
                                         r.call.value.cursor, r.call.value.order);
              r.reply == (if e.None? then Reply(StatusOK, Json(page)) else Reply(StatusInternalServerError, PlainText(Text(e.value))))
  {
    var limitStr := DefaultQuery(query, "limit", Itoa(PageLimitDefault));
    var lim := ParseUint(limitStr, 32);
    if lim.None? || lim.value == 0 then
      Listing(Reply(StatusBadRequest, PlainText("invalid limit query param: " + limitStr)), None)
    else
      Pow2Is32();
      var ownStr := DefaultQuery(query, "own", "false");
      match ParseBool(ownStr)
      case None => Listing(Reply(StatusBadRequest, PlainText("invalid own query param: " + ownStr)), None)
      case Some(own) =>
        var orderStr := DefaultQuery(query, "order", "ASC");
        match OrderOf(orderStr)
        case None => Listing(Reply(StatusBadRequest, PlainText("unrecognized order: " + orderStr)), None)
        case Some(order) =>
          if typ !in {TypeApub, TypeFeed, TypeSite, TypeTgCh, TypeTgbc} then
            Listing(Reply(StatusBadRequest, PlainText("invalid source type: " + typ)), None)
          else
            var filter := FilterOf(typ, DefaultQuery(query, "filter", ""), DefaultQuery(query, "subId", ""), own,
                                   groupId, userId);
            var call := ListCall(typ, filter, lim.value, header(KeySrcAddr), order);
            var (page, e) := svcs.list(typ, filter, lim.value, header(KeySrcAddr), order);
            var reply := if e.None? then Reply(StatusOK, Json(page)) else Reply(StatusInternalServerError, PlainText(Text(e.value)));
            Listing(reply, Some(call))
  }

  /** With no query parameters a valid type is listed 10 at a time, ascending, unfiltered and not restricted to the caller. */
  lemma ListDefaults(svcs: Services, groupId: string, userId: string, header: string -> string, typ: string)
    requires typ in {TypeApub, TypeFeed, TypeSite, TypeTgCh, TypeTgbc}
    ensures List(svcs, groupId, userId, map[], header, typ).call
            == Some(ListCall(typ, SourceFilter("", "", "", ""), 10, header(KeySrcAddr), OrderAsc))
  {
    ParseItoa(10, 32);
    Pow2Is32();
  }
}
