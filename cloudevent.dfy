/**
 * The protobuf CloudEvent record (`pb.CloudEvent`) the gateway forwards, and
 * the stamping of the publisher's identity and the publication time that both
 * the HTTP write path (api/http/pub/handler.go:149-168) and the gRPC stream
 * path (api/grpc/publisher/service.go:62-81) apply to every event.
 */
module CloudEvents {
  import opened Wrappers
  import opened Ints
  import opened Model

  /** `pb.CloudEventAttributeValue`: the CloudEvents v1.0 attribute type system. */
  datatype AttrValue =
    | CeBoolean(b: bool)
    | CeBytes(bytes: seq<uint8>)
    | CeInteger(i: int32)
    | CeString(s: string)
    | CeTimestamp(t: Time)
    | CeUri(uri: string)
    | CeUriRef(uriRef: string)

  /**
   * `pb.CloudEvent`. `attributes` is `None` for a nil map; `textData` is
   * `Some` when the data is the text variant and `None` when no data is set.
   */
  datatype CloudEvent = CloudEvent(
    id: string, source: string, specVersion: string, eventType: string,
    attributes: Option<map<string, AttrValue>>, textData: Option<string>)

  /** The zero `pb.CloudEvent`. */
  const EmptyEvent: CloudEvent := CloudEvent("", "", "", "", None, None)

  /** The attributes of an event, a nil map reading as empty. */
  function Attrs(e: CloudEvent): map<string, AttrValue> {
    e.attributes.GetOr(map[])
  }

  /** One event after stamping; `StampedContents` says what it holds. */
  function Stamped(e: CloudEvent, names: Names, groupId: string, userId: string, now: Time): (r: CloudEvent)
    ensures r.attributes.Some?
    ensures names.ceGroupId in r.attributes.value && names.ceUserId in r.attributes.value
    ensures names.cePubTime in r.attributes.value
  {
    var a := Attrs(e)[names.ceGroupId := CeString(groupId)][names.ceUserId := CeString(userId)]
                     [names.cePubTime := CeTimestamp(now)];
    e.(attributes := Some(a))
  }

  /**
   * Stamping creates a nil attribute map, sets the three stamped keys
   * (overwriting what the sender put there), keeps every other attribute, and
   * changes nothing else.
   */
  lemma StampedContents(e: CloudEvent, names: Names, groupId: string, userId: string, now: Time)
    requires names.Distinct()
    ensures var r := Stamped(e, names, groupId, userId, now);
            r.attributes.value.Keys == Attrs(e).Keys + {names.ceGroupId, names.ceUserId, names.cePubTime} &&
            r.attributes.value[names.ceGroupId] == CeString(groupId) &&
            r.attributes.value[names.ceUserId] == CeString(userId) &&
            r.attributes.value[names.cePubTime] == CeTimestamp(now) &&
            (forall k :: k in Attrs(e) && k != names.ceGroupId && k != names.ceUserId && k != names.cePubTime ==>
               r.attributes.value[k] == Attrs(e)[k]) &&
            r.(attributes := e.attributes) == e
  {
  }

  /** Stamping twice with the same values is stamping once. */
  lemma StampedIdempotent(e: CloudEvent, names: Names, groupId: string, userId: string, now: Time)
    requires names.Distinct()
    ensures Stamped(Stamped(e, names, groupId, userId, now), names, groupId, userId, now)
         == Stamped(e, names, groupId, userId, now)
  {
    var once := Stamped(e, names, groupId, userId, now);
    var twice := Stamped(once, names, groupId, userId, now);
    StampedContents(e, names, groupId, userId, now);
    StampedContents(once, names, groupId, userId, now);
    assert twice.attributes.value == once.attributes.value;
  }

  /** A batch after stamping: event `j` gets the clock reading `now(j)` (the code reads the clock once per event). */
  function StampedAll(msgs: seq<CloudEvent>, names: Names, groupId: string, userId: string, now: nat -> Time): (r: seq<CloudEvent>)
    ensures |r| == |msgs|
  {
    seq(|msgs|, j requires 0 <= j < |msgs| => Stamped(msgs[j], names, groupId, userId, now(j)))
  }

  /**
   * Every event of a stamped batch carries the caller's group and user ids
   * and its publication time, whatever the sender put under those keys; its
   * other attributes and fields are kept, and the order of the batch is kept.
   */
  lemma StampedAllContents(msgs: seq<CloudEvent>, names: Names, groupId: string, userId: string, now: nat -> Time, j: nat)
    requires names.Distinct() && j < |msgs|
    ensures var e := StampedAll(msgs, names, groupId, userId, now)[j];
            e == Stamped(msgs[j], names, groupId, userId, now(j)) &&
            e.attributes.value[names.ceGroupId] == CeString(groupId) &&
            e.attributes.value[names.ceUserId] == CeString(userId) &&
            e.attributes.value[names.cePubTime] == CeTimestamp(now(j)) &&
            (forall k :: k in Attrs(msgs[j]) && k != names.ceGroupId && k != names.ceUserId && k != names.cePubTime ==>
               e.attributes.value[k] == Attrs(msgs[j])[k]) &&
            e.(attributes := msgs[j].attributes) == msgs[j]
  {
    StampedContents(msgs[j], names, groupId, userId, now(j));
  }

  /** The stamping loop over a batch, in place. */
  method StampAll(evts: array<CloudEvent>, names: Names, groupId: string, userId: string, now: nat -> Time)
    modifies evts
    ensures evts[..] == StampedAll(old(evts[..]), names, groupId, userId, now)
  {
    var i := 0;
    while i < evts.Length
      invariant 0 <= i <= evts.Length
      invariant forall j :: 0 <= j < i ==> evts[j] == Stamped(old(evts[j]), names, groupId, userId, now(j))
      invariant forall j :: i <= j < evts.Length ==> evts[j] == old(evts[j])
    {
      evts[i] := Stamped(evts[i], names, groupId, userId, now(i));
      i := i + 1;
    }
  }
}
