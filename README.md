# A Dafny model of the awakari publishing gateway

The gateway accepts CloudEvents from clients over HTTP, as one JSON event or a
batch, and over a gRPC stream. It screens each event against a deny list of
key prefixes. It charges the batch to the sender's daily quota through the
permits service, forwards what the quota allows to the events service, and
gives back what was not used. It also manages the sources that feed events
into the system: ActivityPub actors, feeds, sites, Telegram channels and
Telegram-bot channels.

What this project models:

- **Admission.** `Publisher` (api/grpc/publisher/service.go) holds the quota
  path. A `Backend` class records every call to the permits service and the
  event stream in a trace. Each method is proved equal to a specification
  function. Lemmas about those functions state what is requested, forwarded,
  notified and released.
- **Screening.** `PubHandler` (api/http/pub/handler.go) holds the deny-list
  screening, the stamping of attributes, the submission and the reply.
  `Prefixes` (model/prefixes.go) is the longest-prefix matcher.
  `BlacklistLoad` (main.go:164-181) is the start-up loop that pages the store
  into the matcher.
- **JSON decoding.** `EventJson` (api/http/pub/event.go) converts parsed JSON
  into CloudEvent records. `Base64` is the standard base64 decoder
  (section 4 of RFC 4648) that the bytes attributes go through.
  `CloudEvents` holds the record and the stamping.
- **Service clients.** `Permits`, `Limits`, `Events`, `SubjectCodec`, `TgBot`
  and `AuthService` decode the errors of the remote services and copy their
  fields.
- **Authentication.** `AuthMetadata` carries the ids in gRPC metadata.
  `HttpAuth` checks the bearer token of an HTTP request (section 2.1 of
  RFC 6750).
- **HTTP replies.** `Http` maps gRPC codes to HTTP statuses (section 15 of
  RFC 9110).
- **Sources.** `SourceCreate` validates the payload that creates a source.
  `SourceHandler` holds the create, read, delete and list decisions of the
  source API. `Escape` percent-encodes non-ASCII characters of a source
  address (section 2.1 of RFC 3986, over the UTF-8 bytes of section 3 of
  RFC 3629). `Decimal` holds the number and boolean parsing the list
  parameters go through.
- **Shared pieces.** `Wrappers`, `Ints`, `Model` and `Grpc` hold the values
  the rest share:
  - Go errors are `Option<Error>`, and nil is `None`.
  - A gRPC status has a code and a message.
  - `fmt.Errorf("%w: %s", sentinel, src)` is `Wrap(sentinel, src)`. Its
    `status.Code` is Unknown.

Remote services, the JSON parser, `url.QueryUnescape`, the clock and the
deny-list store are function-valued parameters (oracles). A Go map's
iteration order is an explicit sequence parameter, since Go leaves it
unspecified. A nil-pointer dereference or an out-of-range slice is a
distinct panic outcome (`Panicked`, `Crashed`, `SliceFault`, `ReadPanicked`,
`ListPanicked`, `FetchPanicked`).

Three behaviours of the code are unexpected. The model keeps each as written:

- **Failed notice.** The limit-reached notice is a side message about the
  quota (api/grpc/publisher/service.go:137-140). Still, when it fails, the
  main batch is not forwarded.
- **The "type:" key.** The deny-list key "type:" is built from the event's
  source (api/http/pub/handler.go:106). On a hit, the code logs the attribute
  as `type` with the event's type (handler.go:130-132), which suggests the key
  was meant to carry the type.
- **Truncation.** A hit after the first event truncates the batch
  (handler.go:142, whose comment says so). However, a later hit
  re-slices the original array and re-extends a batch that an earlier hit
  truncated.

Each of these is stated by a lemma below.

## Model

| member | source | states |
|---|---|---|
| Model.SubjectName | model/subject.go:11-17 | The name of each of the three subjects. |
| Model.UsageTypeName | api/http/pub/src/read.go:36-42 | The name of each of the three usage types. |
| SubjectCodec.Encode | api/grpc/subject/subject.go:22-32 | Interests and PublishEvents map to their wire values. Any other subject, the undefined one included, is a plain (non-status) error. |
| SubjectCodec.Decode | api/grpc/subject/subject.go:10-20 | The two wire values map back. An unknown wire value is an InvalidArgument status. |
| SubjectCodec.DecodeEncode | api/grpc/subject/subject.go:10-32 | Encoding succeeds exactly for Interests and PublishEvents, and decoding the encoding gives the subject back. |
| SubjectCodec.EncodeDecode | api/grpc/subject/subject.go:10-32 | A wire value that decodes is encoded back to itself. |
| Http.StatusOf | api/http/grpc/grpc.go:21-41 | The whole table, each entry as an if-and-only-if: OK 200, NotFound 404, AlreadyExists 409, Unauthenticated 401, DeadlineExceeded 408, InvalidArgument 400, ResourceExhausted 429, Unavailable 503. Every status is one of these or 500. |
| Http.StatusOfInjective | api/http/grpc/grpc.go:21-41 | Two codes with the same status other than 500 are the same code. Exactly the codes other than OK, NotFound, AlreadyExists, Unauthenticated, DeadlineExceeded, InvalidArgument, ResourceExhausted and Unavailable get 500. |
| Http.RespondJson | api/http/grpc/grpc.go:20-42 | An OK error, nil included, sends the response as JSON with 200. Any other error sends its text with the status of its code. |
| CloudEvents.Stamped | api/http/pub/handler.go:149-168 | A stamped event has an attribute map holding the group id, user id and publication-time keys. |
| CloudEvents.StampedContents | api/http/pub/handler.go:149-168 | Stamping creates a nil map and sets the three keys, overwriting what the sender put there. Every other attribute and field is kept. |
| CloudEvents.StampedIdempotent | api/grpc/publisher/service.go:62-81 | Stamping twice with the same values is stamping once. |
| CloudEvents.StampedAllContents | api/grpc/publisher/service.go:62-81 | Each event of a stamped batch is its own event stamped with its own clock reading, in order. |
| CloudEvents.StampAll | api/grpc/publisher/service.go:62-81 | The loop stamps the array in place. Afterwards the array is the stamped batch. |
| Prefixes.LongestUpTo | model/prefixes.go:28-36 | The longest registered prefix of the input no longer than `k`, or none when no prefix up to `k` is registered. |
| Prefixes.FindLongest | model/prefixes.go:28-36 | The lookup never fails, and its result is a prefix of the input. When some prefix is registered, the result is registered and has its value, and no registered prefix of the input is longer. Otherwise it is "" with the zero value. |
| Prefixes.FoundIsLongestRegisteredPrefix | model/prefixes.go:28-36 | A non-empty result is exactly the longest entry that is a prefix of the input. |
| Prefixes.Prefixes.constructor | model/prefixes.go:17-21 | A new matcher is empty. |
| Prefixes.Prefixes.Put | model/prefixes.go:23-26 | The entry is set or replaced, every other entry is kept, and no error is returned. |
| Prefixes.Prefixes.FindOnePrefix | model/prefixes.go:28-36 | The lookup on the current entries. |
| Prefixes.TestCases | model/prefixes_test.go:10-45 | With "foo" and "bar" registered: "foo" gives "foo" with false, and "bar42" gives "bar" with true. "", "fog123" and "ba" give no match. |
| Prefixes.LongestWins | model/prefixes.go:28-36 | With "foo" and "foobar" registered, the longer match wins, and the shorter one is still found for "foob". |
| BlacklistLoad.GetPage | storage/blacklist.go:106-113 | A page holds at most `limit` entries with prefixes above the cursor, in store order, unless the query fails at that cursor. |
| BlacklistLoad.PageStep | storage/blacklist.go:106-113 | On an ascending store, a page taken at the cursor is the next run of entries. An empty page means the store is exhausted. |
| BlacklistLoad.LoadBlacklist | main.go:164-181 | The loop starts with the empty cursor and asks for pages of 100. After each non-empty page the cursor is that page's last prefix. The loop stops at the first empty page, or at the first error, which the code panics with. The matcher ends with every entry fetched put in order, later duplicates winning. Without an error, that is every entry of the store. |
| BlacklistLoad.FetchedAt | main.go:167-175 | Every page of the load was the store's answer at its cursor. Each cursor after the first is the last prefix of the non-empty page before it. |
| BlacklistLoad.PutPage | main.go:176-178 | Putting a page into the matcher, entry by entry, leaves the entries of everything loaded so far followed by that page. |
| Base64.DecodeEncode | api/http/pub/event.go:107-122 | Standard base64 decoding undoes encoding for every byte string. Stated of `Base64.DecodeString`. |
| Base64.EncodeShape | api/http/pub/event.go:107-122 | An encoding consists of alphabet characters and padding. |
| Base64.IncompleteQuantum | api/http/pub/event.go:107-122 | Input that is not whole 4-character quanta is corrupt. |
| Base64.PaddingOnlyAtEnd | api/http/pub/event.go:107-122 | Anything after a padded quantum is corrupt. |
| Base64.PaddingTooLong | api/http/pub/event.go:107-122 | A quantum needs at least two alphabet characters before any padding. |
| Base64.NewlineSkipped | api/http/pub/event.go:107-122 | A line break anywhere in the input is skipped. |
| Base64.DecodeByQuanta | api/http/pub/event.go:107-122 | Whole quanta decode to the concatenation of the bytes of each. Stated of `Base64.DecodeQuanta`, which `Base64.DecodeString` applies once line breaks are skipped. |
| Base64.QuantumFull | api/http/pub/event.go:107-122 | Three bytes encode to a full quantum that decodes to those bytes. |
| Base64.QuantumPadOne | api/http/pub/event.go:107-122 | Two bytes encode to a quantum with one padding character, and it decodes to the two bytes as the last quantum. |
| Base64.QuantumPadTwo | api/http/pub/event.go:107-122 | One byte encodes to a quantum with two padding characters, and it decodes to that byte as the last quantum. |
| Base64.StripConcat | api/http/pub/event.go:107-122 | Skipping line breaks works piece by piece. |
| Base64.SampleBytes | api/http/pub/event_test.go:27-52 | The bytes attribute of the decoding test decodes to "Many hands make light work.". |
| EventJson.AttrConvertRawOf | api/http/pub/event.go:98-162 | Every attribute value written as JSON, in either spelling, converts back to itself. Stated of `EventJson.AttrConvert`, the conversion of one attribute. |
| EventJson.AttrConvertFirstMember | api/http/pub/event.go:98-165 | The first present member wins, in the order boolean, bytes, integer, string, timestamp, uri, uri-ref, camelCase before snake_case. An object with no member is an error, and a bytes member fails only when it is not base64. Stated of `EventJson.AttrConvert`, the conversion of one attribute. |
| EventJson.FirstFailure | api/http/pub/event.go:94-171 | The attributes before the returned position convert, and the one at it fails. |
| EventJson.InsertedContents | api/http/pub/event.go:94-171 | The map built holds exactly the attributes visited, each converted. |
| EventJson.ConvertSucceeds | api/http/pub/event.go:93-174 | Conversion succeeds exactly when every attribute converts. The attribute map then has exactly the raw attribute names, each converted. |
| EventJson.ConvertHeader | api/http/pub/event.go:71-91 | On every outcome, id, source and type are copied. The snake_case spec version and text data win over the camelCase ones. The destination keeps its own only when neither is present. |
| EventJson.ConvertFails | api/http/pub/event.go:163-170 | On failure the error is the failing attribute's, that attribute is not inserted, and the ones inserted before it are converted. |
| EventJson.ConvertOrderIndependent | api/http/pub/event.go:94 | A successful conversion does not depend on the map's iteration order. |
| EventJson.InsertAttributes | api/http/pub/event.go:93-171 | The attribute loop inserts in iteration order until the first failure. |
| EventJson.Convert | api/http/pub/event.go:69-174 | `convert` on a record equals the conversion specification. |
| EventJson.Unmarshal | api/http/pub/event.go:44-51 | A parse error is returned as it is and the record is left alone. Otherwise the event is converted. |
| EventJson.FirstBadEvent | api/http/pub/event.go:57-64 | The events before the returned position convert, and the one at it fails. |
| EventJson.UnmarshalBatch | api/http/pub/event.go:53-67 | A parse error gives no events. Otherwise the events converted are returned in order up to the first failure, together with its error. |
| EventJson.SampleAttributes | api/http/pub/event_test.go:17-55 | Each attribute of the decoding test converts to the asserted value. |
| EventJson.SampleHeader | api/http/pub/event_test.go:12-50 | The header of the decoding test converts to the asserted id, type, source, spec version and text. |
| Permits.DecodeError | api/grpc/permits/service.go:103-119 | EOF is kept. A nil or OK error becomes nil. InvalidArgument becomes ErrInvalid, NotFound ErrNotFound, Unauthenticated ErrForbidden, and every other error ErrInternal, each carrying the source error's text. |
| Permits.EncodeFailureIsInternal | api/grpc/permits/service.go:70-78 | A subject that does not encode surfaces as ErrInternal. |
| Permits.Request | api/grpc/permits/service.go:67-86 | Allocate is called only when the subject encodes, with the ids and count. A response's count, user id and just-exhausted flag are copied. The error is decoded. |
| Permits.Release | api/grpc/permits/service.go:88-101 | Release is called only when the subject encodes, with the ids and count. The error is decoded. |
| Permits.UsageAfter | api/grpc/permits/service.go:56-62 | A response sets the count and the total, and the start time only when it carries one. Without a response the usage is unchanged. |
| Permits.UsageCell.constructor | api/grpc/permits/service.go:48 | The usage out-parameter holds the given usage. |
| Permits.GetUsage | api/grpc/permits/service.go:48-65 | The encoding error is discarded and the remote call is made anyway. The out-parameter is updated from the response, and the error is decoded. |
| Limits.DecodeError | api/grpc/limits/service.go:55-71 | The same six-way mapping as the permits client, onto the limits sentinels. |
| Limits.Get | api/grpc/limits/service.go:36-53 | No remote call is made when the subject does not encode. Fields are copied only on success, the expiry only when present. A nil response with no error is a panic. |
| Limits.FailedGetIsZero | api/grpc/limits/service.go:44-50 | A failed get returns the zero limit. |
| Events.DecodeError | api/grpc/events/service.go:55-67 | EOF is kept, OK becomes nil, InvalidArgument becomes ErrInvalid, and every other error ErrInternal, carrying the source's text. |
| Events.SetStream | api/grpc/events/service.go:33-40 | The topic and limit are sent unchanged. The call succeeds exactly when the remote one does. |
| Events.Publish | api/grpc/events/service.go:42-53 | The ack is the response's when there is one and 0 otherwise. The error is decoded. |
| Events.MockClient | api/grpc/events/client_mock.go:29-39 | The fake fails publishing to "fail" with an Internal status. |
| Events.ServiceTestCases | api/grpc/events/service_test.go:11-61 | SetStream "ok" succeeds, "" is invalid and "fail" is internal. Publish "ok" acks 42, and "fail" acks 0 with an internal error. |
| AuthMetadata.Lower | api/grpc/auth/auth.go:57 | ASCII lower-casing, the key normalisation of `md.Get`. |
| AuthMetadata.MetadataValue | api/grpc/auth/auth.go:55-61 | The first value under the key, or "". |
| AuthMetadata.SetIncomingAuthInfo | api/grpc/auth/auth.go:17-28 | The metadata holds exactly the two keys, with one value each. |
| AuthMetadata.IncomingAuthInfo | api/grpc/auth/auth.go:35-53 | The ids are looked up in the copy of the stored metadata under lower-cased keys. Missing metadata is Unauthenticated. An empty group id is Unauthenticated without reading the user id. An empty user id is Unauthenticated only when required. |
| AuthMetadata.GetIncomingAuthInfo | api/grpc/auth/auth.go:30-33 | Success gives two non-empty ids. Any error is Unauthenticated. |
| AuthMetadata.LowerKeys | api/grpc/auth/auth.go:36 | `metadata.FromIncomingContext`: the copy has exactly the lower-cased stored keys. |
| AuthMetadata.LowerKeysAt | api/grpc/auth/auth.go:36 | When no two stored keys lower to the same key, each stored key is found lower-cased with its own values, in any iteration order. |
| AuthMetadata.SetGetRoundTrip | api/grpc/auth/auth.go:17-33 | Reading back the metadata that was set gives the same non-empty ids, in any iteration order, for keys that differ once lower-cased. |
| AuthMetadata.UpperCaseKeyIsFound | api/grpc/auth/auth.go:17-61 | A key set with an upper-case letter is still found, since both the incoming copy and the lookup lower it. |
| AuthService.DecodeError | api/grpc/auth/service.go:34-43 | OK becomes nil, Unauthenticated ErrInvalidToken with the user and token, InvalidArgument ErrInvalidUserId with the user, and every other code ErrInternal. |
| AuthService.Authenticate | api/grpc/auth/service.go:29-45 | The request carries the user id and token unchanged, and the error is decoded. |
| AuthService.AuthenticateErrorKinds | api/grpc/auth/service.go:34-43 | Every failure is exactly one of the three sentinels. |
| HttpAuth.TrimPrefix | api/http/auth/auth.go:25 | `strings.TrimPrefix`: the prefix is removed once when present, and the input is kept otherwise. |
| HttpAuth.Authorize | api/http/auth/auth.go:17-50 | An empty header is 401 without a call. A header without "Bearer " is 401 without a call. Otherwise the service is called with the user-id header and the token. Success stores the group and user ids. ErrInvalidToken is 401, ErrInvalidUserId 400, and any other error 500. |
| HttpAuth.AuthorizeStatuses | api/http/auth/auth.go:31-48 | Through the auth client the statuses follow the remote code: Unauthenticated 401, InvalidArgument 400, others 500. |
| HttpAuth.OnePrefixRemoved | api/http/auth/auth.go:25 | "Bearer Bearer x" passes the token "Bearer x": only one prefix is removed. |
| Publisher.EncodeError | api/grpc/publisher/service.go:226-239 | The result is nil exactly for nil. |
| Publisher.EncodeErrorMapping | api/grpc/publisher/service.go:226-239 | Either internal sentinel becomes Internal. A status other than Unknown passes unchanged. Anything else becomes Unknown with its text. |
| Publisher.ApplyPermitCases | api/grpc/publisher/service.go:208-224 | A zero grant is refused with ResourceExhausted. A grant equal to the batch length forwards the batch. A smaller one forwards exactly its first `count` events in order. A larger one slices past the end. The topic is the configured one. Stated of `Publisher.ApplyPermit`. |
| Publisher.InternalSendsBatch | api/grpc/publisher/service.go:118-134 | The internal path sends exactly the batch once, and receives only after a successful send. |
| Publisher.NoticeIsSentFirst | api/grpc/publisher/service.go:162-206 | With a just-exhausted permit and an owner other than the first event's source (or "" for an empty batch), exactly one notice is sent first. It is addressed to the group and the permit's user and has type limit-reached. Otherwise no call is made. |
| Publisher.NoticeSkipped | api/grpc/publisher/service.go:170-176 | A permit whose notice is skipped behaves as one that is not just exhausted. |
| Publisher.UtilizeAfterNotice | api/grpc/publisher/service.go:138-159 | A notice error is returned and nothing else happens. Otherwise a refusal is returned without a send, and a forward sends exactly the applied request. |
| Publisher.SubmitRequestsWholeBatch | api/grpc/publisher/service.go:100 | The first call requests a permit for the batch length under SubjectPublishEvents. |
| Publisher.SubmitReleasesUnused | api/grpc/publisher/service.go:106-114 | A release is the last call exactly when the granted count minus the used count is positive (uint32). It is for that amount and the permit's user. The used count is the ack on success and 0 on any error. |
| Publisher.UtilizeCallKinds | api/grpc/publisher/service.go:136-160 | Utilization appends only sends and receives. |
| Publisher.ZeroGrantForwardsNothing | api/grpc/publisher/service.go:208-224 | After a zero grant only the notice's calls follow the request. The error is the ResourceExhausted refusal unless the notice failed first. |
| Publisher.SubmitExtends | api/grpc/publisher/service.go:97-116 | A submission extends the trace, never replies to the client, and returns a response whenever it returns no error. |
| Publisher.StreamLoopExtends | api/grpc/publisher/service.go:59-92 | The stream loop extends the trace. |
| Publisher.StreamLoopEnds | api/grpc/publisher/service.go:59-92 | The loop returns only an error: the closing one after the last batch, or the first failure. Each batch is acknowledged at most once. |
| Publisher.Backend.constructor | api/grpc/publisher/service.go:35-45 | A new backend has an empty trace. |
| Publisher.Backend.RequestPermit | api/grpc/permits/service.go:67 | Records the request and returns the oracle's permit. |
| Publisher.Backend.ReleasePermit | api/grpc/publisher/service.go:113 | Records the release. |
| Publisher.Backend.StreamSend | api/grpc/publisher/service.go:120 | Records the send and returns the oracle's error. |
| Publisher.Backend.StreamRecv | api/grpc/publisher/service.go:126 | Records the receive and returns the oracle's answer. |
| Publisher.Backend.SubmitInternalEvents | api/grpc/publisher/service.go:118-134 | The method's trace and result equal the internal-path specification. |
| Publisher.Backend.NotifyLimitReached | api/grpc/publisher/service.go:162-206 | The method's trace and result equal the notice specification. |
| Publisher.Backend.UtilizePermit | api/grpc/publisher/service.go:136-160 | The method's trace and outcome equal the utilization specification. |
| Publisher.Backend.SubmitPermittedEvents | api/grpc/publisher/service.go:97-116 | The method's trace and outcome equal the admission specification. |
| Publisher.Backend.ReplyToClient | api/grpc/publisher/service.go:86 | Records the reply and returns the oracle's error. |
| Publisher.Backend.OpenStream | api/grpc/publisher/service.go:54 | Records the opening and returns the oracle's error. |
| Publisher.Backend.StampAndSubmit | api/grpc/publisher/service.go:62-82 | Stamps the batch, then submits the stamped batch. |
| Publisher.Backend.ForwardRequest | api/grpc/publisher/service.go:60-91 | One loop iteration equals one step of the loop specification. |
| Publisher.Backend.SubmitMessages | api/grpc/publisher/service.go:47-95 | The method's trace and outcome equal the stream specification: authentication, the opening, then the loop. |
| PubHandler.ScanFromFirstHit | api/http/pub/handler.go:113-129 | The attribute scan hits exactly when some attribute hits, and it reports the first such prefix. |
| PubHandler.CarriedValueLookedUp | api/http/pub/handler.go:100-123 | The value is not reset between attributes. An integer attribute after a string one is looked up with the string's value. |
| PubHandler.EventTypeIgnored | api/http/pub/handler.go:103-106 | The event type plays no part in the screening. |
| PubHandler.SourceHitFirst | api/http/pub/handler.go:103-110 | A hit on "source:" decides, whatever the attributes. |
| PubHandler.HitPrefixes | api/http/pub/handler.go:98-133 | The denying prefix of each event, in batch order. |
| PubHandler.KeptStep | api/http/pub/handler.go:141-142 | A hit at a position `i > 0` re-slices the batch to `i` events of the original array. |
| PubHandler.KeptIsLastHit | api/http/pub/handler.go:98-142 | The kept length is the position of the last hit after the first event, or the whole batch when there is none. |
| PubHandler.ScreenOutcome | api/http/pub/handler.go:98-145 | The batch is denied exactly when event 0 hits, with its prefix. Otherwise the forwarded events are the original batch up to, not including, the last hit after event 0. The whole batch is forwarded only when no event after the first hits. |
| PubHandler.EarlierHitForwarded | api/http/pub/handler.go:98-142 | An earlier hit followed by a later one is forwarded. |
| PubHandler.AckReply | api/http/pub/handler.go:180-207 | Ack 0 is 503 "retry later". A positive ack is 200 with the ack. An error sends its text with the status of its code. A nil response with no error is a panic. |
| PubHandler.WriteSubmitsAdmitted | api/http/pub/handler.go:135-177 | A denied batch makes no call. An admitted one starts with a permit request for exactly the admitted events. |
| PubHandler.Marked | api/http/pub/handler.go:85-89 | The marker attribute is set to the configured integer, and everything else is kept. |
| PubHandler.ConvertedScanOrders | api/http/pub/handler.go:69-72 | A converted batch keeps its attribute names, so the iteration orders still enumerate them. |
| PubHandler.Handler.constructor | api/http/pub/handler.go:36-49 | The handler holds its backend, deny list and marker. |
| PubHandler.Handler.DenyLookupAgrees | api/http/pub/handler.go:103 | The matcher's lookup is the deny lookup of the screening. |
| PubHandler.Handler.ScanAttributes | api/http/pub/handler.go:113-129 | The attribute loop equals the scan specification. |
| PubHandler.Handler.EventPrefix | api/http/pub/handler.go:100-133 | The lookups for one event equal the event specification. |
| PubHandler.Handler.Screen | api/http/pub/handler.go:98-145 | The screening loop equals the screening specification. |
| PubHandler.Handler.Write | api/http/pub/handler.go:94-208 | `write` equals the write specification: internal batches unscreened, others screened, then stamped, submitted and answered. |
| PubHandler.Handler.WriteOne | api/http/pub/handler.go:51-62 | A body that does not unmarshal gets no reply and no call. Otherwise the converted event is written. |
| PubHandler.Handler.WriteBatch | api/http/pub/handler.go:64-74 | A batch with a parse error or a bad event gets no reply and no call. Otherwise every converted event is written. |
| PubHandler.Handler.WriteInternal | api/http/pub/handler.go:76-92 | The marked event is written without screening, on the internal path. |
| TgBot.LastMatchIsLast | api/grpc/tgbot/service.go:31-39 | The lookup finds a channel exactly when one has the link. The one found has it, and no later channel does. |
| TgBot.ReadChannel | api/grpc/tgbot/service.go:23-40 | The query has the link as pattern and limit 1000. The result is the last channel with exactly that link, or nil. A remote error is returned as it is. A nil response with no error is a panic. |
| TgBot.ReadChannelMatches | api/grpc/tgbot/service.go:33-37 | A channel found has exactly the link asked for and is on the page. |
| TgBot.WireOrderOf | api/grpc/tgbot/service.go:48-53 | Descending maps to DESC, and anything else to ASC. |
| TgBot.ListChannels | api/grpc/tgbot/service.go:42-62 | Filter, limit and cursor are sent unchanged. The result is one link per channel, in page order. |
| Escape.Utf8 | api/http/pub/src/util.go:7-8 | UTF-8 encoding takes one to four bytes, one exactly for ASCII. The bytes of a non-ASCII character are a lead byte and continuation bytes. |
| Escape.Utf8RoundTrip | api/http/pub/src/util.go:7-8 | Decoding the bytes of a character gives the character. |
| Escape.PercentRoundTrip | api/http/pub/src/util.go:8 | Percent-decoding undoes the percent-encoding of bytes. |
| Escape.EscapedChar | api/http/pub/src/util.go:6-11 | A character up to 127 is kept. Any other becomes the percent-encoding of its UTF-8 bytes, 6 to 12 characters. |
| Escape.EscapeNonAsciiChars | api/http/pub/src/util.go:5-13 | The loop builds the escape of the input, character by character in order. |
| Escape.EscapedIsAscii | api/http/pub/src/util.go:5-13 | The output is ASCII. |
| Escape.AsciiUnchanged | api/http/pub/src/util.go:6-11 | ASCII input, '%' included, is returned unchanged. |
| Escape.EscapeIdempotent | api/http/pub/src/util.go:5-13 | Escaping twice is escaping once. |
| Escape.EscapedConcat | api/http/pub/src/util.go:6-11 | Escaping is character by character: the escape of a concatenation is the concatenation of the escapes. |
| Escape.EscapeExamples | api/http/pub/src/util.go:7-8 | "é" becomes "%C3%A9" and "€" becomes "%E2%82%AC". |
| Decimal.Itoa | api/http/pub/src/handler.go:327 | `strconv.Itoa`: non-empty digits with no leading zero. |
| Decimal.ParseUint | api/http/pub/src/handler.go:328 | `strconv.ParseUint(s, 10, bits)` accepts exactly non-empty digit strings whose value fits, and returns that value. |
| Decimal.ParseItoa | api/http/pub/src/handler.go:327-328 | Parsing the decimal text of a number that fits gives the number. |
| Decimal.ParseBool | api/http/pub/src/handler.go:334 | `strconv.ParseBool`: the six spellings of true and of false, and an error otherwise. |
| SourceCreate.Validate | api/http/pub/src/create.go:33-52 | Valid exactly when the address is non-empty, the type is feed, site, tgch or apub, and a feed's frequency is in 1..288. An empty address is reported first, with its own message. Every error wraps errInvalidPayload. |
| SourceCreate.FreqOnlyForFeeds | api/http/pub/src/create.go:40-46 | The frequency does not matter for types other than feed. |
| SourceHandler.UpdatePeriod | api/http/pub/src/handler.go:97 | A day divided by the frequency, truncated: the largest period that fits `freq` times into a day. |
| SourceHandler.ValidatedFeedPeriod | api/http/pub/src/handler.go:83-97 | After validation a feed's frequency is not zero, and its period lies between five minutes and a day. |
| SourceHandler.CreateStatus | api/http/pub/src/handler.go:109-120 | nil 201, InvalidArgument 400, AlreadyExists 409, PermissionDenied 403, and everything else 500. |
| SourceHandler.Create | api/http/pub/src/handler.go:68-122 | An unreadable body is 500 and a malformed one 400. The type comes from the path, and an invalid payload is 400, all without a call. A valid ActivityPub source is created from the address and the caller's ids. A feed also gets its period and the current time. A Telegram channel is created from the caller's ids and the address as its link. Each of these gets one reply from the service's answer, through the status mapping of the creation reply. A valid site gets two replies and no call. |
| SourceHandler.CreateSiteAnswersTwice | api/http/pub/src/handler.go:106-111 | A valid site payload is answered 400 "unsupported source type: site" and then 201. |
| SourceHandler.FetchSource | api/http/pub/src/handler.go:138-230 | An unknown type is reported, and a failed read leaves the empty payload. A successful one has the address and the empty usage. ActivityPub copies the record's group id, user id, name, acceptance, term as query, creation time and last time. A feed's payload is its `FeedPayload`. A site copies the group id, user id and last update, and a Telegram channel the group id, user id, name, terms, creation time and last time. A Telegram-bot channel copies its last update with blank ids. Every type other than ActivityPub is accepted, and ActivityPub and both Telegram types are push. |
| SourceHandler.FeedPayload | api/http/pub/src/handler.go:162-185 | A feed's ids, counts, push flag, title and terms are copied. An absent period stays zero. Feeds are accepted. |
| SourceHandler.FillFeedPayload | api/http/pub/src/handler.go:159-185 | The field-by-field fill equals the feed payload. |
| SourceHandler.CopyCounts | api/http/pub/src/handler.go:176-178 | Copying entry by entry in iteration order yields the same map. |
| SourceHandler.MissingBotChannelPanics | api/http/pub/src/handler.go:218-222 | A Telegram-bot channel that is not found makes the read dereference nil. |
| SourceHandler.Owner | api/http/pub/src/handler.go:234-237 | The limit owner is the source's user, or its address when it has none. |
| SourceHandler.Enrich | api/http/pub/src/handler.go:232-261 | The owner's limit is read, then the usage of the limit's user. An empty user is Shared and stays empty. The caller's own source is Private and keeps the user. Anyone else's is Private with the user blanked. Nothing else changes. |
| SourceHandler.ResultReply | api/http/pub/src/handler.go:263-272 | nil gives the success reply, NotFound 404, and others 500, with the error text. |
| SourceHandler.Address | api/http/pub/src/handler.go:125-135 | A missing header is 400. An address that does not unescape is 400 with the encoded one. Otherwise the unescaped address is escaped, and it is ASCII. |
| SourceHandler.ReadAsWritten | api/http/pub/src/handler.go:124-274 | The read as the code is written. A rejected address is 400 with its text, an unknown type is 400 "invalid source type: ", and a nil record panics. Any other lookup, failed or not, is enriched, and the answer is 200 with the enriched payload as JSON, or the enrichment's error as 404/500. The lookup's own error plays no part, which is the subject of the finding below. |
| SourceHandler.Read | api/http/pub/src/handler.go:124-274 | The corrected read, with the same rejections as the read as written. A failed lookup is answered from its own error, 404 for NotFound and 500 otherwise. A found source is enriched and answered 200 with the enriched payload as JSON, or with the enrichment's error as 404/500. |
| SourceHandler.ReadAsWrittenLosesLookupError | api/http/pub/src/handler.go:232-240 | With a feed that is not found and limits and usage that succeed, the read answers 200. |
| SourceHandler.ReadReportsLookupError | api/http/pub/src/handler.go:238-272 | The corrected read answers a failed lookup 404 for NotFound and 500 otherwise, and agrees with the code in every other case. |
| SourceHandler.ReadFoundActivityPub | api/http/pub/src/handler.go:138-272 | A found ActivityPub source, with its limit and usage read, is answered 200. The payload carries the record's group id, name, acceptance and term and the owner's limit and usage. The owner's user id is shown only to that user, and the usage is Shared exactly when the source has no user. The code as written gives the same answer. |
| SourceHandler.Delete | api/http/pub/src/handler.go:276-323 | A rejected address is 400 with its text, and an unknown type 400, both without a call. An ActivityPub source, feed or site is deleted by its service with the caller's ids, and the reply follows the result: 200, 404 for NotFound, 500 otherwise. A Telegram channel is read first. A read error is answered without a delete, and a nil channel panics. The channel is deleted exactly when both the group and the user own it, and is 403 otherwise. |
| SourceHandler.OrderOf | api/http/pub/src/handler.go:339-349 | "ASC" is ascending and "DESC" descending. Anything else is none. |
| SourceHandler.FilterOf | api/http/pub/src/handler.go:355-399 | The filter has the pattern, and the subscription only for ActivityPub, feeds and Telegram channels. With own it has the caller's ids, except for Telegram-bot channels. Otherwise they are empty. |
| SourceHandler.List | api/http/pub/src/handler.go:325-411 | The query is checked in order, each failure answered 400 with its text and no call. A limit that is not a positive 32-bit decimal (default 10) comes first. Then an `own` that is not a boolean (default false), then an order other than ASC or DESC (default ASC), then an unknown type. The call happens exactly when all four are valid, and it carries them with the cursor header. The page is 200, and an error 500. |
| SourceHandler.ListDefaults | api/http/pub/src/handler.go:325-352 | With no parameters a valid type is listed 10 at a time, ascending, unfiltered and not restricted to the caller. |

## Left out

- Transport is modelled only as values: gin, gRPC, connection pools and router setup. Headers are a function, and replies and aborts are returned values.
- `Base64` decodes against an abstract byte string, not Go's streaming decoder. The byte offset of a `CorruptInputError` is not modelled.
- JSON parsing by sonic and protobuf marshalling are oracles. Only a parse error or the parsed structure is seen, and only text data is modelled.
- `ksuid` ids, `time.Now` and the rate limiter of `WriteInternal` are parameters or left out. The notice's id is a configuration value, and each event's clock reading is a function.
- Logging and `fmt.Printf` are not modelled.
- The key-name constants of the model package are not part of this model. They are a `Names` record assumed pairwise distinct. The two metadata keys are assumed to differ once lower-cased.
- Error texts are simplified. A wrapped error keeps its sentinel and the source's text. `%+v` dumps of attribute objects and slice formatting are not reproduced.
- `AuthMetadata.Lower` lowers ASCII letters only. Unicode case folding is not modelled.
- AuthMetadata.LowerKeys: when two stored keys lower to the same key, the one visited last wins. That depends on Go's iteration order, so the round trip is stated only for keys that do not collide.
- The subject's wire enum is a datatype. A request built without a subject carries `None`, the enum's zero value.
- `url.QueryUnescape` is an oracle. `SetOutgoingAuthInfo` is not modelled: the ids travel in the request records.
- The per-type source services (feeds, sites, ActivityPub, Telegram) are oracles, and so are the limits and usage calls of the source handler.
- The mocks of the permits and limits services are not modelled.
- Concurrency is not modelled. Each call runs alone.
- Publisher.ApplyPermitCases: the count in the permit request is uint32. A batch of 2^32 events or more wraps, and the lemma states the cases only for smaller batches.
- Publisher.Backend.ReleasePermit: the result of `Release` is discarded by the code, so the method returns nothing.
- Publisher.SubmitMessages: the client stream is a finite list of batches followed by a closing error. An endless stream is not modelled.
- Publisher.SubmitPermittedEvents: a grant larger than the batch is modelled as a slice fault (`SliceFault`). Go would panic only past the slice's capacity.
- Prefixes.FindLongest: the trie library's longest-match behaviour is an assumption, consistent with model/prefixes_test.go.
- Escape.EscapeNonAsciiChars: strings are sequences of Unicode characters, whereas Go strings are bytes. An address that unescapes to invalid UTF-8 (the header "%FF" gives the byte 0xFF) is not represented. Go ranges over it as U+FFFD and writes "%EF%BF%BD". Likewise, Prefixes.FindLongest compares prefixes by character, where the trie works on bytes.
- BlacklistLoad.LoadBlacklist: the store's ascending order is an assumption, since the query requests no sort. The store's contents during the load are fixed.
- SourceHandler.FetchSource: a nil record with no error panics, as the code dereferences it.
- SourceHandler.Create: the feed's next-update time is a parameter standing for `time.Now()`.
- HttpAuth.Authorize: the "Bearer " prefix is matched case-sensitively, unlike the case-insensitive scheme of section 2.1 of RFC 6750. A header of exactly "Bearer " passes an empty token to the service.

## Findings

| source | as written | input that shows it | evidently intended | confidence | as-written member | corrected member |
|---|---|---|---|---|---|---|
| api/http/pub/src/handler.go:238 | The read's error is overwritten by the limits call, so a failed source lookup is enriched and answered like a found one. | A feed read that returns a NotFound status, while the limits and usage calls succeed: the reply is 200 with an empty, shared payload. | A failed lookup is answered from its own error: 404 for NotFound, 500 otherwise. | not executed | SourceHandler.ReadAsWritten | SourceHandler.Read |
