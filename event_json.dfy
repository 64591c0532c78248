/**
 * The JSON form of a CloudEvent accepted by the HTTP write path and its
 * conversion into the protobuf record (api/http/pub/event.go).
 *
 * The JSON parser itself is not modelled: its outcome, a decoded `RawEvent`
 * or a parse error, is the input of `Unmarshal`. Every optional JSON member
 * is an `Option`; each member is accepted under its camelCase and its
 * snake_case name. Go ranges over the attribute map in an unspecified order,
 * so the order in which the attributes are visited is an explicit parameter.
 */
module EventJson {
  import opened Wrappers
  import opened Ints
  import opened Model
  import opened Grpc
  import opened CloudEvents
  import Base64

  /** The JSON attribute object: at most one of these members is expected; the first present one wins. */
  datatype RawAttribute = RawAttribute(
    ceBoolean1: Option<bool>, ceBoolean2: Option<bool>,
    ceBytes1: Option<string>, ceBytes2: Option<string>,
    ceInteger1: Option<int32>, ceInteger2: Option<int32>,
    ceString1: Option<string>, ceString2: Option<string>,
    ceTimestamp1: Option<Time>, ceTimestamp2: Option<Time>,
    ceUri1: Option<string>, ceUri2: Option<string>,
    ceUriRef1: Option<string>, ceUriRef2: Option<string>)

  const NoAttribute: RawAttribute :=
    RawAttribute(None, None, None, None, None, None, None, None, None, None, None, None, None, None)

  /** The JSON event object; the `...2` members are the snake_case spellings. */
  datatype RawEvent = RawEvent(
    id: string, specVersion1: Option<string>, specVersion2: Option<string>,
    source: string, eventType: string, attributes: map<string, RawAttribute>,
    textData1: Option<string>, textData2: Option<string>)

  /** The error of an attribute with no recognised member (its formatted dump is not modelled). */
  function UnknownAttributeType(id: string): Error {
    Plain("failed to convert event " + id + ", unknown attribute type")
  }

  /** The error of a `ceBytes` member that is not standard base64 (the byte offset is not modelled). */
  const IllegalBase64: Error := Plain("illegal base64 data")

  function DecodeBytes(s: string): Result<AttrValue, Error> {
    match Base64.DecodeString(s)
    case Some(b) => Success(CeBytes(b))
    case None => Failure(IllegalBase64)
  }

  /** The `switch` of event.go:98-165 for one attribute object. */
  function AttrConvert(id: string, a: RawAttribute): Result<AttrValue, Error> {
    if a.ceBoolean1.Some? then Success(CeBoolean(a.ceBoolean1.value))
    else if a.ceBoolean2.Some? then Success(CeBoolean(a.ceBoolean2.value))
    else if a.ceBytes1.Some? then DecodeBytes(a.ceBytes1.value)
    else if a.ceBytes2.Some? then DecodeBytes(a.ceBytes2.value)
    else if a.ceInteger1.Some? then Success(CeInteger(a.ceInteger1.value))
    else if a.ceInteger2.Some? then Success(CeInteger(a.ceInteger2.value))
    else if a.ceString1.Some? then Success(CeString(a.ceString1.value))
    else if a.ceString2.Some? then Success(CeString(a.ceString2.value))
    else if a.ceTimestamp1.Some? then Success(CeTimestamp(a.ceTimestamp1.value))
    else if a.ceTimestamp2.Some? then Success(CeTimestamp(a.ceTimestamp2.value))
    else if a.ceUri1.Some? then Success(CeUri(a.ceUri1.value))
    else if a.ceUri2.Some? then Success(CeUri(a.ceUri2.value))
    else if a.ceUriRef1.Some? then Success(CeUriRef(a.ceUriRef1.value))
    else if a.ceUriRef2.Some? then Success(CeUriRef(a.ceUriRef2.value))
    else Failure(UnknownAttributeType(id))
  }

  /** The JSON object a client writes for an attribute value, in camelCase (`snake` picks the other spelling). */
  function RawOf(v: AttrValue, snake: bool): (a: RawAttribute) {
    match v
    case CeBoolean(b) =>
      if snake then NoAttribute.(ceBoolean2 := Some(b)) else NoAttribute.(ceBoolean1 := Some(b))
    case CeBytes(b) =>
      if snake then NoAttribute.(ceBytes2 := Some(Base64.Encode(b))) else NoAttribute.(ceBytes1 := Some(Base64.Encode(b)))
    case CeInteger(i) =>
      if snake then NoAttribute.(ceInteger2 := Some(i)) else NoAttribute.(ceInteger1 := Some(i))
    case CeString(s) =>
      if snake then NoAttribute.(ceString2 := Some(s)) else NoAttribute.(ceString1 := Some(s))
    case CeTimestamp(t) =>
      if snake then NoAttribute.(ceTimestamp2 := Some(t)) else NoAttribute.(ceTimestamp1 := Some(t))
    case CeUri(u) =>
      if snake then NoAttribute.(ceUri2 := Some(u)) else NoAttribute.(ceUri1 := Some(u))
    case CeUriRef(u) =>
      if snake then NoAttribute.(ceUriRef2 := Some(u)) else NoAttribute.(ceUriRef1 := Some(u))
  }

  /** Every attribute value survives being written as JSON in either spelling and converted back. */
  lemma AttrConvertRawOf(id: string, v: AttrValue, snake: bool)
    ensures AttrConvert(id, RawOf(v, snake)) == Success(v)
  {
    if v.CeBytes? {
      Base64.DecodeEncode(v.bytes);
    }
  }

  /** The members of an attribute object, in the order the conversion tries them. */
  datatype Member = MBoolean(b: bool) | MBytes(text: string) | MInteger(i: int32) | MString(s: string)
                  | MTimestamp(t: Time) | MUri(uri: string) | MUriRef(uriRef: string)

  function Opt<T, U>(o: Option<T>, f: T -> U): seq<U> {
    if o.Some? then [f(o.value)] else []
  }

  /** The present members of an attribute object, camelCase before snake_case, types in declaration order. */
  function Members(a: RawAttribute): seq<Member> {
    Opt(a.ceBoolean1, b => MBoolean(b)) + Opt(a.ceBoolean2, b => MBoolean(b))
    + Opt(a.ceBytes1, s => MBytes(s)) + Opt(a.ceBytes2, s => MBytes(s))
    + Opt(a.ceInteger1, i => MInteger(i)) + Opt(a.ceInteger2, i => MInteger(i))
    + Opt(a.ceString1, s => MString(s)) + Opt(a.ceString2, s => MString(s))
    + Opt(a.ceTimestamp1, t => MTimestamp(t)) + Opt(a.ceTimestamp2, t => MTimestamp(t))
    + Opt(a.ceUri1, s => MUri(s)) + Opt(a.ceUri2, s => MUri(s))
    + Opt(a.ceUriRef1, s => MUriRef(s)) + Opt(a.ceUriRef2, s => MUriRef(s))
  }

  function MemberValue(m: Member): Result<AttrValue, Error> {
    match m
    case MBoolean(b) => Success(CeBoolean(b))
    case MBytes(s) => DecodeBytes(s)
    case MInteger(i) => Success(CeInteger(i))
    case MString(s) => Success(CeString(s))
    case MTimestamp(t) => Success(CeTimestamp(t))
    case MUri(u) => Success(CeUri(u))
    case MUriRef(u) => Success(CeUriRef(u))
  }

  /**
   * The conversion reads the first present member and ignores the rest; an
   * object with no member is an error. Only a `ceBytes` member that is not
   * base64 makes a present member fail.
   */
  lemma AttrConvertFirstMember(id: string, a: RawAttribute)
    ensures Members(a) == [] ==> AttrConvert(id, a) == Failure(UnknownAttributeType(id))
    ensures Members(a) != [] ==> AttrConvert(id, a) == MemberValue(Members(a)[0])
    ensures AttrConvert(id, a).Failure? <==>
              Members(a) == [] || (Members(a)[0].MBytes? && Base64.DecodeString(Members(a)[0].text).None?)
  {
  }

  /** The attributes of `order` in turn are present and convert. */
  predicate AllConvert(id: string, attrs: map<string, RawAttribute>, order: seq<string>) {
    forall j :: 0 <= j < |order| ==> order[j] in attrs && AttrConvert(id, attrs[order[j]]).Success?
  }

  /** The position of the first attribute of `order` that fails to convert, or `|order|` when none does. */
  function FirstFailure(id: string, attrs: map<string, RawAttribute>, order: seq<string>): (n: nat)
    requires forall j :: 0 <= j < |order| ==> order[j] in attrs
    ensures n <= |order|
    ensures AllConvert(id, attrs, order[..n])
    ensures n < |order| ==> AttrConvert(id, attrs[order[n]]).Failure?
  {
    if order == [] then 0
    else if AttrConvert(id, attrs[order[0]]).Failure? then 0
    else
      var n := 1 + FirstFailure(id, attrs, order[1..]);
      assert forall j :: 1 <= j < n ==> order[..n][j] == order[1..][..n - 1][j - 1];
      n
  }

  /** The first failure is where the attributes stop converting. */
  lemma FirstFailureIs(id: string, attrs: map<string, RawAttribute>, order: seq<string>, i: nat)
    requires forall j :: 0 <= j < |order| ==> order[j] in attrs
    requires i <= |order| && AllConvert(id, attrs, order[..i])
    requires i < |order| ==> AttrConvert(id, attrs[order[i]]).Failure?
    ensures FirstFailure(id, attrs, order) == i
  {
    var n := FirstFailure(id, attrs, order);
    assert forall j :: 0 <= j < i ==> order[..i][j] == order[j];
    assert forall j :: 0 <= j < n ==> order[..n][j] == order[j];
  }

  /** The attribute map built by inserting the attributes of `order` one after another. */
  function Inserted(id: string, attrs: map<string, RawAttribute>, order: seq<string>): (m: map<string, AttrValue>)
    requires AllConvert(id, attrs, order)
  {
    if order == [] then map[]
    else
      var last := order[|order| - 1];
      assert AllConvert(id, attrs, order[..|order| - 1]);
      Inserted(id, attrs, order[..|order| - 1])[last := AttrConvert(id, attrs[last]).value]
  }

  lemma InsertedSnoc(id: string, attrs: map<string, RawAttribute>, order: seq<string>, i: nat)
    requires i < |order| && AllConvert(id, attrs, order[..i + 1])
    ensures AllConvert(id, attrs, order[..i])
    ensures Inserted(id, attrs, order[..i + 1]) == Inserted(id, attrs, order[..i])[order[i] := AttrConvert(id, attrs[order[i]]).value]
  {
    assert order[..i + 1][..i] == order[..i];
  }

  /** The map built holds exactly the attributes visited, each converted. */
  lemma {:induction false} InsertedContents(id: string, attrs: map<string, RawAttribute>, order: seq<string>)
    requires AllConvert(id, attrs, order)
    ensures forall k :: k in Inserted(id, attrs, order) <==> k in order
    ensures forall k :: k in Inserted(id, attrs, order) ==> k in attrs && Success(Inserted(id, attrs, order)[k]) == AttrConvert(id, attrs[k])
  {
    if order != [] {
      var init := order[..|order| - 1];
      assert AllConvert(id, attrs, init);
      InsertedContents(id, attrs, init);
      assert order == init + [order[|order| - 1]];
    }
  }

  /** The outcome of converting one event: the new destination record and the error. */
  datatype Outcome = Outcome(event: CloudEvent, err: Option<Error>)

  /**
   * The fields `convert` sets besides the attributes (event.go:71-91): the
   * identity fields are copied; a spec version or text data member, when
   * present, overwrites the destination's, the snake_case one last.
   */
  function Header(raw: RawEvent, dst: CloudEvent): CloudEvent {
    var specVersion :=
      if raw.specVersion2.Some? then raw.specVersion2.value
      else if raw.specVersion1.Some? then raw.specVersion1.value
      else dst.specVersion;
    var textData :=
      if raw.textData2.Some? then raw.textData2
      else if raw.textData1.Some? then raw.textData1
      else dst.textData;
    dst.(id := raw.id, source := raw.source, eventType := raw.eventType, specVersion := specVersion, textData := textData)
  }

  /** The attributes are inserted in iteration order until one fails; the failing one is not inserted. */
  function InsertUntilFailure(id: string, attrs: map<string, RawAttribute>, order: seq<string>)
    : (map<string, AttrValue>, Option<Error>)
    requires forall j :: 0 <= j < |order| ==> order[j] in attrs
  {
    var n := FirstFailure(id, attrs, order);
    (Inserted(id, attrs, order[..n]), if n < |order| then Some(AttrConvert(id, attrs[order[n]]).error) else None)
  }

  /** `convert` (event.go:69-174): the header fields, then a fresh attribute map. */
  function ConvertSpec(raw: RawEvent, dst: CloudEvent, order: seq<string>): Outcome
    requires Enumerates(order, raw.attributes)
  {
    var (m, err) := InsertUntilFailure(raw.id, raw.attributes, order);
    Outcome(Header(raw, dst).(attributes := Some(m)), err)
  }

  /**
   * Whatever the attributes, the converted event carries the raw identity
   * fields; the snake_case spec version and text data win over the camelCase
   * ones, and the destination's values are kept only when neither is present.
   */
  lemma ConvertHeader(raw: RawEvent, dst: CloudEvent, order: seq<string>)
    requires Enumerates(order, raw.attributes)
    ensures var e := ConvertSpec(raw, dst, order).event;
            e.id == raw.id && e.source == raw.source && e.eventType == raw.eventType &&
            (raw.specVersion2.Some? ==> e.specVersion == raw.specVersion2.value) &&
            (raw.specVersion2.None? && raw.specVersion1.Some? ==> e.specVersion == raw.specVersion1.value) &&
            (raw.specVersion2.None? && raw.specVersion1.None? ==> e.specVersion == dst.specVersion) &&
            (raw.textData2.Some? ==> e.textData == raw.textData2) &&
            (raw.textData2.None? && raw.textData1.Some? ==> e.textData == raw.textData1) &&
            (raw.textData2.None? && raw.textData1.None? ==> e.textData == dst.textData)
  {
  }

  /** The conversion succeeds exactly when every attribute converts, and then holds every attribute converted. */
  lemma ConvertSucceeds(raw: RawEvent, dst: CloudEvent, order: seq<string>)
    requires Enumerates(order, raw.attributes)
    ensures ConvertSpec(raw, dst, order).err.None? <==>
              forall k :: k in raw.attributes ==> AttrConvert(raw.id, raw.attributes[k]).Success?
    ensures ConvertSpec(raw, dst, order).err.None? ==>
              var m := ConvertSpec(raw, dst, order).event.attributes.value;
              m.Keys == raw.attributes.Keys &&
              forall k :: k in m ==> Success(m[k]) == AttrConvert(raw.id, raw.attributes[k])
  {
    var n := FirstFailure(raw.id, raw.attributes, order);
    InsertedContents(raw.id, raw.attributes, order[..n]);
    if n == |order| {
      assert order[..n] == order;
      forall k | k in raw.attributes ensures AttrConvert(raw.id, raw.attributes[k]).Success? {
        var j :| 0 <= j < |order| && order[j] == k;
      }
    }
  }

  /**
   * On failure the error is the failing attribute's, that attribute is not
   * inserted, and what was inserted before it is converted correctly.
   */
  lemma ConvertFails(raw: RawEvent, dst: CloudEvent, order: seq<string>)
    requires Enumerates(order, raw.attributes)
    ensures var r := ConvertSpec(raw, dst, order);
            r.err.Some? ==>
              exists k :: k in raw.attributes && k !in r.event.attributes.value &&
                          AttrConvert(raw.id, raw.attributes[k]) == Failure(r.err.value)
    ensures var m := ConvertSpec(raw, dst, order).event.attributes.value;
            forall k :: k in m ==> k in raw.attributes && Success(m[k]) == AttrConvert(raw.id, raw.attributes[k])
  {
    var n := FirstFailure(raw.id, raw.attributes, order);
    InsertedContents(raw.id, raw.attributes, order[..n]);
    if n < |order| {
      var k := order[n];
      assert k !in order[..n];
      assert k !in ConvertSpec(raw, dst, order).event.attributes.value;
    }
  }

  /** A successful conversion does not depend on the order in which the Go map is iterated. */
  lemma ConvertOrderIndependent(raw: RawEvent, dst: CloudEvent, order1: seq<string>, order2: seq<string>)
    requires Enumerates(order1, raw.attributes) && Enumerates(order2, raw.attributes)
    requires ConvertSpec(raw, dst, order1).err.None?
    ensures ConvertSpec(raw, dst, order2) == ConvertSpec(raw, dst, order1)
  {
    ConvertSucceeds(raw, dst, order1);
    ConvertSucceeds(raw, dst, order2);
    var m1 := ConvertSpec(raw, dst, order1).event.attributes.value;
    var m2 := ConvertSpec(raw, dst, order2).event.attributes.value;
    assert forall k :: k in m1 ==> m1[k] == AttrConvert(raw.id, raw.attributes[k]).value == m2[k];
    assert m1 == m2;
  }

  /** The attribute loop of event.go:93-171, visiting the attributes in the order `order`. */
  method InsertAttributes(id: string, attrs: map<string, RawAttribute>, order: seq<string>)
    returns (m: map<string, AttrValue>, err: Option<Error>)
    requires forall j :: 0 <= j < |order| ==> order[j] in attrs
    ensures (m, err) == InsertUntilFailure(id, attrs, order)
  {
    m := map[];
    err := None;
    var i := 0;
    while i < |order|
      invariant 0 <= i <= |order|
      invariant AllConvert(id, attrs, order[..i])
      invariant m == Inserted(id, attrs, order[..i])
    {
      var name := order[i];
      var converted := AttrConvert(id, attrs[name]);
      if converted.Failure? {
        err := Some(converted.error);
        break;
      }
      InsertedSnoc(id, attrs, order, i);
      m := m[name := converted.value];
      i := i + 1;
    }
    FirstFailureIs(id, attrs, order, i);
  }

  /** `convert` (event.go:69-174) on a destination record. */
  method Convert(raw: RawEvent, dst: CloudEvent, order: seq<string>) returns (out: CloudEvent, err: Option<Error>)
    requires Enumerates(order, raw.attributes)
    ensures Outcome(out, err) == ConvertSpec(raw, dst, order)
  {
    out := dst.(id := raw.id, source := raw.source, eventType := raw.eventType);
    if raw.specVersion1.Some? {
      out := out.(specVersion := raw.specVersion1.value);
    }
    if raw.specVersion2.Some? {
      out := out.(specVersion := raw.specVersion2.value);
    }
    if raw.textData1.Some? {
      out := out.(textData := raw.textData1);
    }
    if raw.textData2.Some? {
      out := out.(textData := raw.textData2);
    }
    assert out == Header(raw, dst);
    var m;
    m, err := InsertAttributes(raw.id, raw.attributes, order);
    out := out.(attributes := Some(m));
  }

  /**
   * `Unmarshal` (event.go:44-51): a parse error is returned as it is and the
   * destination is left alone; otherwise the parsed event is converted.
   */
  method Unmarshal(parsed: Result<RawEvent, Error>, dst: CloudEvent, order: seq<string>)
    returns (out: CloudEvent, err: Option<Error>)
    requires parsed.Success? ==> Enumerates(order, parsed.value.attributes)
    ensures parsed.Failure? ==> out == dst && err == Some(parsed.error)
    ensures parsed.Success? ==> Outcome(out, err) == ConvertSpec(parsed.value, dst, order)
  {
    if parsed.Failure? {
      return dst, Some(parsed.error);
    }
    out, err := Convert(parsed.value, dst, order);
  }

  /** Each parsed event with an iteration order for its attributes. */
  predicate BatchOrders(raws: seq<RawEvent>, orders: seq<seq<string>>) {
    |orders| == |raws| && forall i :: 0 <= i < |raws| ==> Enumerates(orders[i], raws[i].attributes)
  }

  /** The position of the first event of the batch that fails to convert, or the batch length. */
  function FirstBadEvent(raws: seq<RawEvent>, orders: seq<seq<string>>): (n: nat)
    requires BatchOrders(raws, orders)
    ensures n <= |raws|
    ensures forall i :: 0 <= i < n ==> ConvertSpec(raws[i], EmptyEvent, orders[i]).err.None?
    ensures n < |raws| ==> ConvertSpec(raws[n], EmptyEvent, orders[n]).err.Some?
  {
    if raws == [] then 0
    else if ConvertSpec(raws[0], EmptyEvent, orders[0]).err.Some? then 0
    else 1 + FirstBadEvent(raws[1..], orders[1..])
  }

  /** The first bad event is where the events stop converting. */
  lemma FirstBadEventIs(raws: seq<RawEvent>, orders: seq<seq<string>>, i: nat)
    requires BatchOrders(raws, orders) && i <= |raws|
    requires forall j :: 0 <= j < i ==> ConvertSpec(raws[j], EmptyEvent, orders[j]).err.None?
    requires i < |raws| ==> ConvertSpec(raws[i], EmptyEvent, orders[i]).err.Some?
    ensures FirstBadEvent(raws, orders) == i
  {
  }

  /**
   * `UnmarshalBatch` (event.go:53-67): each event is converted into a fresh
   * record and appended; the first conversion error stops the loop and is
   * returned together with the events converted before it.
   */
  method UnmarshalBatch(parsed: Result<seq<RawEvent>, Error>, orders: seq<seq<string>>)
    returns (batch: seq<CloudEvent>, err: Option<Error>)
    requires parsed.Success? ==> BatchOrders(parsed.value, orders)
    ensures parsed.Failure? ==> batch == [] && err == Some(parsed.error)
    ensures parsed.Success? ==>
              var raws := parsed.value;
              var n := FirstBadEvent(raws, orders);
              |batch| == n &&
              (forall i :: 0 <= i < n ==> batch[i] == ConvertSpec(raws[i], EmptyEvent, orders[i]).event) &&
              err == (if n < |raws| then ConvertSpec(raws[n], EmptyEvent, orders[n]).err else None)
  {
    batch := [];
    if parsed.Failure? {
      return batch, Some(parsed.error);
    }
    var raws := parsed.value;
    err := None;
    var i := 0;
    while i < |raws|
      invariant 0 <= i <= |raws| && |batch| == i
      invariant forall j :: 0 <= j < i ==> ConvertSpec(raws[j], EmptyEvent, orders[j]) == Outcome(batch[j], None)
      invariant err.None?
    {
      var dst, e := Convert(raws[i], EmptyEvent, orders[i]);
      if e.Some? {
        err := e;
        break;
      }
      batch := batch + [dst];
      i := i + 1;
    }
    FirstBadEventIs(raws, orders, i);
  }

  /**
   * The attributes of the decoding test, each written with its snake_case
   * member: the bytes are the ASCII codes of "Many hands make light work.";
   * 2024-12-19T17:52:59.216Z is given as seconds and nanoseconds since the epoch.
   */
  lemma SampleAttributes(id: string)
    ensures AttrConvert(id, NoAttribute.(ceBytes2 := Some(Base64.Concat(Base64.SampleQuanta()))))
         == Success(CeBytes(Base64.Concat(Base64.SampleChunks())))
    ensures AttrConvert(id, NoAttribute.(ceTimestamp2 := Some(Time(1734630779, 216000000))))
         == Success(CeTimestamp(Time(1734630779, 216000000)))
    ensures AttrConvert(id, NoAttribute.(ceString2 := Some("v1"))) == Success(CeString("v1"))
    ensures AttrConvert(id, NoAttribute.(ceBoolean2 := Some(true))) == Success(CeBoolean(true))
    ensures AttrConvert(id, NoAttribute.(ceInteger2 := Some(-42))) == Success(CeInteger(-42))
    ensures AttrConvert(id, NoAttribute.(ceUriRef2 := Some("https://awakari.com/pub-msg.html")))
         == Success(CeUriRef("https://awakari.com/pub-msg.html"))
  {
    Base64.SampleBytes();
  }

  /** The header of the decoding test: camelCase spec version, snake_case text data. */
  lemma SampleHeader()
    ensures ConvertSpec(
              RawEvent("2qRgPkuvdypNEnrA7HdsWpASaco", Some("1.0"), None, "https://awakari.com/pub-msg.html",
                       "com_awakari_webapp", map[], None, Some("test")),
              EmptyEvent, [])
         == Outcome(CloudEvent("2qRgPkuvdypNEnrA7HdsWpASaco", "https://awakari.com/pub-msg.html", "1.0",
                               "com_awakari_webapp", Some(map[]), Some("test")), None)
  {
    assert Inserted("2qRgPkuvdypNEnrA7HdsWpASaco", map[], []) == map[];
  }
}
