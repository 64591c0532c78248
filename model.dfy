/** The gateway's value types (the Go package `model`) and the source-read usage type. */
module Model {
  import opened Ints

  /** A point in time as seconds and nanoseconds since the Unix epoch (the protobuf Timestamp pair). */
  datatype Time = Time(seconds: int, nanos: int)

  /** Go's zero `time.Time`, 0001-01-01T00:00:00Z, which a struct field holds until it is assigned. */
  const ZeroTime: Time := Time(-62135596800, 0)

  /** `model.Subject`, an `int` whose named values are 0, 1 and 2. */
  type Subject = int
  const SubjectUndefined: Subject := 0
  const SubjectInterests: Subject := 1
  const SubjectPublishEvents: Subject := 2

  /** `Subject.String()`: indexing a three-element array, so any other value panics. */
  function SubjectName(s: Subject): (name: string)
    requires 0 <= s <= 2
    ensures s == SubjectPublishEvents ==> name == "SubjectPublishEvents"
    ensures s == SubjectInterests ==> name == "SubjectInterests"
    ensures s == SubjectUndefined ==> name == "SubjectUndefined"
  {
    ["SubjectUndefined", "SubjectInterests", "SubjectPublishEvents"][s]
  }

  /** `model.Permit`: the granted count, the principal it was charged to ("" = group level) and the one-shot exhaustion flag. */
  datatype Permit = Permit(count: uint32, userId: string, justExhausted: bool)

  const ZeroPermit: Permit := Permit(0, "", false)

  datatype BlacklistValue = BlacklistValue(createdAt: Time, reason: string)

  const ZeroBlacklistValue: BlacklistValue := BlacklistValue(ZeroTime, "")

  datatype BlacklistEntry = BlacklistEntry(prefix: string, value: BlacklistValue)

  /** `model.Limit`; an empty `userId` denotes a group-level limit. */
  datatype Limit = Limit(count: int64, userId: string, expires: Time)

  const ZeroLimit: Limit := Limit(0, "", ZeroTime)

  /** `model.Usage`. */
  datatype Usage = Usage(count: int64, countTotal: int64, since: Time)

  const ZeroUsage: Usage := Usage(0, 0, ZeroTime)

  /** `model.Order`. */
  datatype Order = OrderAsc | OrderDesc

  /** `UsageType` of the source-read payload: 0 Undefined, 1 Shared, 2 Private. */
  datatype UsageType = UsageTypeUndefined | UsageTypeShared | UsageTypePrivate

  /** `UsageType.String()`. */
  function UsageTypeName(t: UsageType): (name: string)
    ensures t == UsageTypeShared ==> name == "Shared"
    ensures t == UsageTypePrivate ==> name == "Private"
    ensures t == UsageTypeUndefined ==> name == "Undefined"
  {
    match t
    case UsageTypeUndefined => "Undefined"
    case UsageTypeShared => "Shared"
    case UsageTypePrivate => "Private"
  }

  /**
   * The attribute and type names the code takes from the `model` package
   * (group id, user id and publication time stamped on every event; the
   * destination group and user of the limit notice; the notice's event type).
   * Their values are defined outside this model; the code relies on the
   * stamped key names being pairwise different.
   */
  datatype Names = Names(
    ceGroupId: string, ceUserId: string, cePubTime: string,
    toGroupId: string, toUserId: string, typeLimitReached: string)
  {
    predicate Distinct() {
      ceGroupId != ceUserId && ceGroupId != cePubTime && ceUserId != cePubTime && toGroupId != toUserId
    }
  }

  /** `order` lists every key of `m` exactly once: one possible iteration order of a Go map. */
  predicate Enumerates<V>(order: seq<string>, m: map<string, V>) {
    (forall j :: 0 <= j < |order| ==> order[j] in m)
    && (forall k :: k in m ==> k in order)
    && (forall i, j :: 0 <= i < j < |order| ==> order[i] != order[j])
  }
}
