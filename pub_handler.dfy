/**
 * The HTTP publish handler (api/http/pub/handler.go): the deny-list screening
 * of a batch, the stamping of the forwarded events, the submission through
 * the admission path and the reply.
 *
 * The screening is stated for any lookup `find` from a key to the prefix
 * that denies it, "" for none; the handler's lookup is the matcher's
 * `FindOnePrefix` on the deny list, the longest registered prefix of the key.
 * The iteration order of each event's attribute map is a parameter, as it is
 * unspecified in Go.
 */
module PubHandler {
  import opened Wrappers
  import opened Ints
  import opened Model
  import opened Grpc
  import opened CloudEvents
  import opened Prefixes
  import opened Publisher
  import EventJson
  import opened Http

  /** The lookup of the handler: the prefix `FindOnePrefix` reports for a key, "" for none. */
  function DenyLookup(bl: map<string, BlacklistValue>, zero: BlacklistValue): string -> string {
    key => FindLongest(bl, key, zero).prefix
  }

  /** The value the attribute scan carries past an attribute: its text for a string, URI or URI-ref one, else the carried one. */
  function TextOr(v: AttrValue, carried: string): string {
    match v
    case CeString(s) => s
    case CeUri(u) => u
    case CeUriRef(u) => u
    case _ => carried
  }

  /** The value held by `attrValue` after the first `i` attributes of `order` (handler.go:113-121). */
  function Carried(attrs: map<string, AttrValue>, order: seq<string>, i: nat): string
    requires i <= |order| && forall j :: 0 <= j < |order| ==> order[j] in attrs
  {
    if i == 0 then "" else TextOr(attrs[order[i - 1]], Carried(attrs, order, i - 1))
  }

  /** The key looked up at attribute `i` of the scan. */
  function ScanKey(attrs: map<string, AttrValue>, order: seq<string>, i: nat): string
    requires i < |order| && forall j :: 0 <= j < |order| ==> order[j] in attrs
  {
    order[i] + ":" + Carried(attrs, order, i + 1)
  }

  /** Attribute `i` of the scan is looked up (its carried value is not empty) and hits. */
  predicate ScanHit(find: string -> string, attrs: map<string, AttrValue>, order: seq<string>, i: nat)
    requires i < |order| && forall j :: 0 <= j < |order| ==> order[j] in attrs
  {
    Carried(attrs, order, i + 1) != "" && find(ScanKey(attrs, order, i)) != ""
  }

  /** The attribute scan from attribute `i` on: the prefix of the first hit, or "". */
  function ScanFrom(find: string -> string, attrs: map<string, AttrValue>, order: seq<string>, i: nat): string
    requires i <= |order| && forall j :: 0 <= j < |order| ==> order[j] in attrs
    decreases |order| - i
  {
    if i == |order| then ""
    else if ScanHit(find, attrs, order, i) then find(ScanKey(attrs, order, i))
    else ScanFrom(find, attrs, order, i + 1)
  }

  /**
   * The scan from `i` on hits exactly when some attribute from `i` on hits,
   * and then reports the prefix of the first such one.
   */
  lemma {:induction false} ScanFromFirstHit(find: string -> string, attrs: map<string, AttrValue>, order: seq<string>, i: nat)
    requires i <= |order| && forall j :: 0 <= j < |order| ==> order[j] in attrs
    ensures ScanFrom(find, attrs, order, i) != "" <==> exists j :: i <= j < |order| && ScanHit(find, attrs, order, j)
    ensures forall j :: i <= j < |order| && ScanHit(find, attrs, order, j) && (forall l :: i <= l < j ==> !ScanHit(find, attrs, order, l)) ==>
              ScanFrom(find, attrs, order, i) == find(ScanKey(attrs, order, j))
    decreases |order| - i
  {
    if i < |order| {
      ScanFromFirstHit(find, attrs, order, i + 1);
    }
  }

  /**
   * The value of `attrValue` is not reset between attributes: an attribute
   * that is not text is looked up under its own name with the value carried
   * from the text attribute before it.
   */
  lemma CarriedValueLookedUp(find: string -> string, attrs: map<string, AttrValue>, k1: string, k2: string,
                             v: string, n: int32)
    requires k1 != k2 && attrs.Keys == {k1, k2} && attrs[k1] == CeString(v) && attrs[k2] == CeInteger(n)
    requires v != "" && find(k1 + ":" + v) == "" && find(k2 + ":" + v) != ""
    ensures ScanFrom(find, attrs, [k1, k2], 0) == find(k2 + ":" + v)
  {
    var order := [k1, k2];
    assert Carried(attrs, order, 1) == v;
    assert Carried(attrs, order, 2) == v;
    assert !ScanHit(find, attrs, order, 0);
  }

  /**
   * The prefix that denies one event, "" when none does: its source under
   * "source:", its source again under "type:" (the event type is never
   * consulted), then the attribute scan.
   */
  function EventHit(find: string -> string, e: CloudEvent, order: seq<string>): string
    requires Enumerates(order, Attrs(e))
  {
    var p := find("source:" + e.source);
    if p != "" then p
    else
      var q := find("type:" + e.source);
      if q != "" then q else ScanFrom(find, Attrs(e), order, 0)
  }

  /** The event type plays no part in the screening. */
  lemma EventTypeIgnored(find: string -> string, e: CloudEvent, order: seq<string>, eventType: string)
    requires Enumerates(order, Attrs(e))
    ensures EventHit(find, e.(eventType := eventType), order) == EventHit(find, e, order)
  {
  }

  /** An event whose source key hits is denied by that prefix, whatever its attributes. */
  lemma SourceHitFirst(find: string -> string, e: CloudEvent, order: seq<string>)
    requires Enumerates(order, Attrs(e)) && find("source:" + e.source) != ""
    ensures EventHit(find, e, order) == find("source:" + e.source)
  {
  }

  /** An iteration order for the attribute map of each event of a batch. */
  predicate ScanOrders(evts: seq<CloudEvent>, orders: seq<seq<string>>) {
    |orders| == |evts| && forall i :: 0 <= i < |evts| ==> Enumerates(orders[i], Attrs(evts[i]))
  }

  /** The outcome of the screening: the batch denied by a prefix, or the events to forward. */
  datatype Screened = Denied(prefix: string) | Admitted(evts: seq<CloudEvent>)

  /** The prefix that denies each event of a batch, "" for the ones that pass. */
  function HitPrefixes(find: string -> string, evts: seq<CloudEvent>, orders: seq<seq<string>>): (ps: seq<string>)
    requires ScanOrders(evts, orders)
    ensures |ps| == |evts| && forall i :: 0 <= i < |evts| ==> ps[i] == EventHit(find, evts[i], orders[i])
  {
    seq(|evts|, i requires 0 <= i < |evts| => EventHit(find, evts[i], orders[i]))
  }

  /**
   * The length of the batch after the screening loop has visited the first
   * `i` events, `ps` giving their prefixes: each hit at a position `j > 0`
   * re-slices the batch to the first `j` events of the original array, so
   * the last such hit decides.
   */
  function Kept(ps: seq<string>, i: nat): (n: nat)
    requires i <= |ps|
    ensures n <= |ps|
  {
    if i == 0 then |ps|
    else if i - 1 > 0 && ps[i - 1] != "" then i - 1
    else Kept(ps, i - 1)
  }

  /** One step of the screening loop. */
  lemma KeptStep(ps: seq<string>, i: nat)
    requires i < |ps|
    ensures Kept(ps, i + 1) == if i > 0 && ps[i] != "" then i else Kept(ps, i)
  {
  }

  /** The screening of a batch whose events have the prefixes `ps`. */
  function ScreenOf(evts: seq<CloudEvent>, ps: seq<string>): Screened
    requires |ps| == |evts|
  {
    if |evts| > 0 && ps[0] != "" then Denied(ps[0]) else Admitted(evts[..Kept(ps, |evts|)])
  }

  /** The deny-list loop of `write` (handler.go:98-145). */
  function ScreenSpec(find: string -> string, evts: seq<CloudEvent>, orders: seq<seq<string>>): Screened
    requires ScanOrders(evts, orders)
  {
    ScreenOf(evts, HitPrefixes(find, evts, orders))
  }

  /** Where the last hit after the first event lies among the first `i` events, if any. */
  lemma {:induction false} KeptIsLastHit(ps: seq<string>, i: nat)
    requires i <= |ps|
    ensures var n := Kept(ps, i);
            (n == |ps| && forall j :: 0 < j < i ==> ps[j] == "") ||
            (0 < n < i && ps[n] != "" && forall j :: n < j < i ==> ps[j] == "")
  {
    if i > 0 {
      KeptIsLastHit(ps, i - 1);
    }
  }

  /**
   * The batch is denied exactly when its first event hits, with that event's
   * prefix. Otherwise the forwarded events are the original batch up to, not
   * including, the last event that hits; the whole batch when none does.
   */
  lemma ScreenOutcome(evts: seq<CloudEvent>, ps: seq<string>)
    requires |ps| == |evts|
    ensures ScreenOf(evts, ps).Denied? <==> |evts| > 0 && ps[0] != ""
    ensures ScreenOf(evts, ps).Denied? ==> ScreenOf(evts, ps).prefix == ps[0]
    ensures (forall j :: 0 <= j < |evts| ==> ps[j] == "") ==> ScreenOf(evts, ps) == Admitted(evts)
    ensures ScreenOf(evts, ps).Admitted? ==>
              var fwd := ScreenOf(evts, ps).evts;
              var n := |fwd|;
              fwd == evts[..n] && (n == |evts| || (0 < n && ps[n] != "")) && forall j :: n < j < |evts| ==> ps[j] == ""
    ensures ScreenOf(evts, ps).Admitted? && |ScreenOf(evts, ps).evts| == |evts| ==>
              forall j :: 0 < j < |evts| ==> ps[j] == ""
  {
    KeptIsLastHit(ps, |evts|);
    assert evts[..|evts|] == evts;
  }

  /**
   * A hit that is followed by a later hit does not truncate: with hits at
   * positions `j < k` after a first event that passes, event `j` is
   * forwarded.
   */
  lemma EarlierHitForwarded(evts: seq<CloudEvent>, ps: seq<string>, j: nat, k: nat)
    requires |ps| == |evts| && 0 < j < k < |evts|
    requires ps[0] == "" && ps[j] != "" && ps[k] != ""
    ensures ScreenOf(evts, ps).Admitted?
    ensures j < |ScreenOf(evts, ps).evts| && ScreenOf(evts, ps).evts[j] == evts[j]
  {
    ScreenOutcome(evts, ps);
  }

  /** `write` after the screening: the stamped batch submitted on the internal or the permitted path. */
  function SubmitRun(o: Oracles, t: seq<Call>, cfg: Config, fwd: seq<CloudEvent>, internal: bool,
                     groupId: string, userId: string, now: nat -> Time): Run {
    var msgs := StampedAll(fwd, cfg.names, groupId, userId, now);
    if internal then InternalSpec(o, t, cfg.topic, msgs) else SubmitSpec(o, t, cfg, msgs, groupId, userId)
  }

  /**
   * The reply to a submission (handler.go:180-207): a nil response with no
   * error is dereferenced; an ack of 0 asks to retry later; an OK result
   * sends the ack as JSON; any other error sends its text with the status of
   * its code.
   */
  function AckReply(out: Outcome): (r: Reply<uint32>)
    ensures out.Returned? && out.err.None? && out.resp.Some? ==>
              r == (if out.resp.value == 0 then Reply(StatusServiceUnavailable, PlainText("was unable to submit, retry later"))
                    else Reply(StatusOK, Json(out.resp.value)))
    ensures out.Returned? && CodeOf(out.err) != OK ==> r == Reply(StatusOf(CodeOf(out.err)), PlainText(Text(out.err.value)))
    ensures out.Panicked? || (out.Returned? && out.err.None? && out.resp.None?) ==> r == Crashed
  {
    match out
    case Panicked => Crashed
    case Returned(resp, err) =>
      if err.None? && resp.None? then Crashed
      else if err.None? && resp.value == 0 then Reply(StatusServiceUnavailable, PlainText("was unable to submit, retry later"))
      else if CodeOf(err) == OK then (if resp.None? then Crashed else Reply(StatusOK, Json(resp.value)))
      else Reply(StatusOf(CodeOf(err)), PlainText(Text(err.value)))
  }

  /** The calls made and the reply written by a handler. */
  datatype Written = Written(trace: seq<Call>, reply: Reply<uint32>)

  /**
   * The answer to a screened batch: a denied batch is answered with 403 and
   * nothing is submitted; otherwise the admitted events are stamped and
   * submitted, and the reply reports the outcome.
   */
  function Answer(o: Oracles, t: seq<Call>, cfg: Config, s: Screened, internal: bool, groupId: string, userId: string,
                  now: nat -> Time): Written
  {
    if s.Denied? then Written(t, Reply(StatusForbidden, PlainText("forbidden by prefix: " + s.prefix)))
    else
      var r := SubmitRun(o, t, cfg, s.evts, internal, groupId, userId, now);
      Written(r.trace, AckReply(r.out))
  }

  /** `write`: an internal batch skips the screening; any other batch is screened and answered. */
  function WriteSpec(o: Oracles, t: seq<Call>, cfg: Config, find: string -> string, evts: seq<CloudEvent>,
                     orders: seq<seq<string>>, internal: bool, groupId: string, userId: string, now: nat -> Time): Written
    requires internal || ScanOrders(evts, orders)
  {
    var s := if internal then Admitted(evts) else ScreenSpec(find, evts, orders);
    Answer(o, t, cfg, s, internal, groupId, userId, now)
  }

  /**
   * A denied batch makes no call; an admitted one is submitted, by the
   * permitted path with a permit request for exactly the admitted events.
   */
  lemma WriteSubmitsAdmitted(o: Oracles, t: seq<Call>, cfg: Config, find: string -> string, evts: seq<CloudEvent>,
                             orders: seq<seq<string>>, groupId: string, userId: string, now: nat -> Time)
    requires ScanOrders(evts, orders)
    ensures var w := WriteSpec(o, t, cfg, find, evts, orders, false, groupId, userId, now);
            var s := ScreenSpec(find, evts, orders);
            (s.Denied? ==> w.trace == t && w.reply.Reply? && w.reply.status == StatusForbidden) &&
            (s.Admitted? ==> |w.trace| > |t| && w.trace[..|t|] == t &&
                             w.trace[|t|] == PermitRequest(groupId, userId, SubjectPublishEvents, ToU32(|s.evts|)))
  {
    var s := ScreenSpec(find, evts, orders);
    if s.Admitted? {
      SubmitRequestsWholeBatch(o, t, cfg, StampedAll(s.evts, cfg.names, groupId, userId, now), groupId, userId);
    }
  }

  /** The marker setting of `WriteInternal`: the configured attribute name and its integer value. */
  datatype InternalConfig = InternalConfig(name: string, value: int32)

  /** `WriteInternal` (handler.go:85-89): the marker attribute is set on the unmarshalled event. */
  function Marked(e: CloudEvent, ic: InternalConfig): (r: CloudEvent)
    ensures r.attributes.Some? && ic.name in r.attributes.value && r.attributes.value[ic.name] == CeInteger(ic.value)
    ensures forall k :: k in Attrs(e) && k != ic.name ==> k in r.attributes.value && r.attributes.value[k] == Attrs(e)[k]
    ensures r.(attributes := e.attributes) == e
  {
    e.(attributes := Some(Attrs(e)[ic.name := CeInteger(ic.value)]))
  }

  /** The events of a batch that converts. */
  function Converted(raws: seq<EventJson.RawEvent>, orders: seq<seq<string>>): (evts: seq<CloudEvent>)
    requires EventJson.BatchOrders(raws, orders)
    ensures |evts| == |raws|
  {
    seq(|raws|, i requires 0 <= i < |raws| => EventJson.ConvertSpec(raws[i], EmptyEvent, orders[i]).event)
  }

  /** The events of a converted batch keep their attribute names, so the scan orders still enumerate them. */
  lemma ConvertedScanOrders(raws: seq<EventJson.RawEvent>, convOrders: seq<seq<string>>, scanOrders: seq<seq<string>>)
    requires EventJson.BatchOrders(raws, convOrders) && EventJson.BatchOrders(raws, scanOrders)
    requires EventJson.FirstBadEvent(raws, convOrders) == |raws|
    ensures ScanOrders(Converted(raws, convOrders), scanOrders)
  {
    var evts := Converted(raws, convOrders);
    forall i | 0 <= i < |evts|
      ensures Enumerates(scanOrders[i], Attrs(evts[i]))
    {
      EventJson.ConvertSucceeds(raws[i], EmptyEvent, convOrders[i]);
      EnumeratesSameKeys(scanOrders[i], raws[i].attributes, Attrs(evts[i]));
    }
  }

  /** An order that enumerates one map enumerates every map with the same keys. */
  lemma EnumeratesSameKeys<V, W>(order: seq<string>, m1: map<string, V>, m2: map<string, W>)
    requires Enumerates(order, m1) && m1.Keys == m2.Keys
    ensures Enumerates(order, m2)
  {
  }

  /** The handler: the publishing backend, the deny list, and the `WriteInternal` marker. */
  class Handler {
    const backend: Backend
    const blacklist: Prefixes<BlacklistValue>
    const internalCfg: InternalConfig

    constructor(backend: Backend, blacklist: Prefixes<BlacklistValue>, internalCfg: InternalConfig)
      ensures this.backend == backend && this.blacklist == blacklist && this.internalCfg == internalCfg
    {
      this.backend := backend;
      this.blacklist := blacklist;
      this.internalCfg := internalCfg;
    }

    /**
     * `find` is the lookup of the current deny list: it reports for each key
     * the prefix that `FindOnePrefix` reports.
     */
    ghost predicate Agrees(find: string -> string)
      reads blacklist
    {
      forall key {:trigger blacklist.FindOnePrefix(key)} :: find(key) == blacklist.FindOnePrefix(key).prefix
    }

    /** The longest-prefix lookup of the current deny list is such a lookup. */
    lemma DenyLookupAgrees()
      ensures Agrees(DenyLookup(blacklist.entries, blacklist.zero))
    {
    }

    /** The attribute scan of one event (handler.go:113-129). */
    method ScanAttributes(ghost find: string -> string, attrs: map<string, AttrValue>, order: seq<string>)
      returns (prefix: string)
      requires Agrees(find)
      requires Enumerates(order, attrs)
      ensures prefix == ScanFrom(find, attrs, order, 0)
    {
      var attrValue := "";
      prefix := "";
      var i := 0;
      while i < |order|
        invariant 0 <= i <= |order|
        invariant attrValue == Carried(attrs, order, i)
        invariant ScanFrom(find, attrs, order, 0) == ScanFrom(find, attrs, order, i)
      {
        var k := order[i];
        attrValue := TextOr(attrs[k], attrValue);
        assert attrValue == Carried(attrs, order, i + 1);
        if attrValue != "" {
          prefix := blacklist.FindOnePrefix(k + ":" + attrValue).prefix;
          assert prefix == find(ScanKey(attrs, order, i));
          if prefix != "" {
            return;
          }
        }
        assert !ScanHit(find, attrs, order, i);
        i := i + 1;
      }
      prefix := "";
    }

    /** The lookups for one event (handler.go:100-133). */
    method EventPrefix(ghost find: string -> string, e: CloudEvent, order: seq<string>) returns (prefix: string)
      requires Agrees(find)
      requires Enumerates(order, Attrs(e))
      ensures prefix == EventHit(find, e, order)
    {
      prefix := blacklist.FindOnePrefix("source:" + e.source).prefix;
      assert prefix == find("source:" + e.source);
      if prefix == "" {
        prefix := blacklist.FindOnePrefix("type:" + e.source).prefix;
        assert prefix == find("type:" + e.source);
      }
      if prefix == "" {
        prefix := ScanAttributes(find, Attrs(e), order);
      }
    }

    /** The deny-list loop of `write` (handler.go:98-145): `n` is the length of the re-sliced batch. */
    method Screen(ghost find: string -> string, evts: seq<CloudEvent>, orders: seq<seq<string>>) returns (s: Screened)
      requires Agrees(find)
      requires ScanOrders(evts, orders)
      ensures s == ScreenSpec(find, evts, orders)
    {
      ghost var ps := HitPrefixes(find, evts, orders);
      var n := |evts|;
      var i := 0;
      while i < |evts|
        invariant 0 <= i <= |evts|
        invariant n == Kept(ps, i)
        invariant i > 0 ==> ps[0] == ""
      {
        var prefix := EventPrefix(find, evts[i], orders[i]);
        assert prefix == ps[i];
        KeptStep(ps, i);
        if prefix != "" {
          if i == 0 {
            return Denied(prefix);
          }
          n := i;
        }
        i := i + 1;
      }
      return Admitted(evts[..n]);
    }

    /** `write` (handler.go:94-208). */
    method Write(ghost find: string -> string, evts: seq<CloudEvent>, orders: seq<seq<string>>, internal: bool,
                 groupId: string, userId: string, now: nat -> Time) returns (reply: Reply<uint32>)
      requires !internal ==> Agrees(find)
      requires internal || ScanOrders(evts, orders)
      modifies backend
      ensures Written(backend.trace, reply)
           == WriteSpec(backend.o, old(backend.trace), backend.cfg, find, evts, orders, internal, groupId, userId, now)
    {
      var s := Admitted(evts);
      if !internal {
        s := Screen(find, evts, orders);
        if s.Denied? {
          return Reply(StatusForbidden, PlainText("forbidden by prefix: " + s.prefix));
        }
      }
      var fwd := new CloudEvent[|s.evts|](j requires 0 <= j < |s.evts| => s.evts[j]);
      assert fwd[..] == s.evts;
      StampAll(fwd, backend.cfg.names, groupId, userId, now);
      var out;
      if internal {
        var resp, err := backend.SubmitInternalEvents(fwd[..]);
        out := Returned(resp, err);
      } else {
        out := backend.SubmitPermittedEvents(fwd[..], groupId, userId);
      }
      reply := AckReply(out);
    }

    /**
     * `Write` (handler.go:51-62): one event; `parsed` is the body as parsed
     * JSON, or the error of reading or parsing it. An event that does not
     * unmarshal gets no reply.
     */
    method WriteOne(ghost find: string -> string, parsed: Result<EventJson.RawEvent, Error>, convOrder: seq<string>,
                    scanOrder: seq<string>,
                    groupId: string, userId: string, now: nat -> Time) returns (reply: Reply<uint32>)
      requires Agrees(find)
      requires parsed.Success? ==> Enumerates(convOrder, parsed.value.attributes) && Enumerates(scanOrder, parsed.value.attributes)
      modifies backend
      ensures parsed.Failure? ==> reply == Unanswered && backend.trace == old(backend.trace)
      ensures parsed.Success? ==>
                var c := EventJson.ConvertSpec(parsed.value, EmptyEvent, convOrder);
                (c.err.Some? ==> reply == Unanswered && backend.trace == old(backend.trace)) &&
                (c.err.None? ==> ScanOrders([c.event], [scanOrder]))
      ensures parsed.Success? && EventJson.ConvertSpec(parsed.value, EmptyEvent, convOrder).err.None? ==>
                var c := EventJson.ConvertSpec(parsed.value, EmptyEvent, convOrder);
                Written(backend.trace, reply)
                == WriteSpec(backend.o, old(backend.trace), backend.cfg, find, [c.event], [scanOrder], false, groupId, userId, now)
    {
      var evt, err := EventJson.Unmarshal(parsed, EmptyEvent, convOrder);
      if err.Some? {
        return Unanswered;
      }
      EventJson.ConvertSucceeds(parsed.value, EmptyEvent, convOrder);
      EnumeratesSameKeys(scanOrder, parsed.value.attributes, Attrs(evt));
      reply := Write(find, [evt], [scanOrder], false, groupId, userId, now);
    }

    /** `WriteBatch` (handler.go:64-74): a batch that does not unmarshal gets no reply. */
    method WriteBatch(ghost find: string -> string, parsed: Result<seq<EventJson.RawEvent>, Error>,
                      convOrders: seq<seq<string>>, scanOrders: seq<seq<string>>,
                      groupId: string, userId: string, now: nat -> Time) returns (reply: Reply<uint32>)
      requires Agrees(find)
      requires parsed.Success? ==> EventJson.BatchOrders(parsed.value, convOrders) && EventJson.BatchOrders(parsed.value, scanOrders)
      modifies backend
      ensures parsed.Failure? || EventJson.FirstBadEvent(parsed.value, convOrders) < |parsed.value| ==>
                reply == Unanswered && backend.trace == old(backend.trace)
      ensures parsed.Success? && EventJson.FirstBadEvent(parsed.value, convOrders) == |parsed.value| ==>
                ScanOrders(Converted(parsed.value, convOrders), scanOrders)
      ensures parsed.Success? && EventJson.FirstBadEvent(parsed.value, convOrders) == |parsed.value| ==>
                Written(backend.trace, reply)
                == WriteSpec(backend.o, old(backend.trace), backend.cfg, find, Converted(parsed.value, convOrders), scanOrders, false,
                             groupId, userId, now)
    {
      var evts, err := EventJson.UnmarshalBatch(parsed, convOrders);
      if err.Some? {
        return Unanswered;
      }
      assert evts == Converted(parsed.value, convOrders);
      ConvertedScanOrders(parsed.value, convOrders, scanOrders);
      reply := Write(find, evts, scanOrders, false, groupId, userId, now);
    }

    /** `WriteInternal` (handler.go:76-92): the marked event skips the screening. */
    method WriteInternal(parsed: Result<EventJson.RawEvent, Error>, convOrder: seq<string>, groupId: string, userId: string,
                         now: nat -> Time) returns (reply: Reply<uint32>)
      requires parsed.Success? ==> Enumerates(convOrder, parsed.value.attributes)
      modifies backend
      ensures parsed.Failure? ==> reply == Unanswered && backend.trace == old(backend.trace)
      ensures parsed.Success? ==>
                var c := EventJson.ConvertSpec(parsed.value, EmptyEvent, convOrder);
                (c.err.Some? ==> reply == Unanswered && backend.trace == old(backend.trace)) &&
                (c.err.None? ==>
                   Written(backend.trace, reply)
                   == Answer(backend.o, old(backend.trace), backend.cfg, Admitted([Marked(c.event, internalCfg)]), true,
                             groupId, userId, now))
    {
      var evt, err := EventJson.Unmarshal(parsed, EmptyEvent, convOrder);
      if err.Some? {
        return Unanswered;
      }
      evt := Marked(evt, internalCfg);
      // an internal event is not screened, so no lookup is consulted
      reply := Write(_ => "", [evt], [], true, groupId, userId, now);
    }
  }
}
