/**
 * The caller identity carried in gRPC metadata (api/grpc/auth/auth.go):
 * storing the group and user ids as incoming metadata and reading them back
 * with the checks that make a missing id an Unauthenticated error.
 */
module AuthMetadata {
  import opened Wrappers
  import opened Grpc
  import Model

  /** gRPC metadata: each key maps to a list of values. */
  type Metadata = map<string, seq<string>>

  /**
   * The metadata keys of the group id and the user id (`model.KeyGroupId`,
   * `model.KeyUserId`). Their values are defined outside this model; the
   * round trip relies on them staying different once lower-cased, because
   * both the incoming metadata and every lookup lower their keys.
   */
  datatype AuthKeys = AuthKeys(groupId: string, userId: string) {
    predicate Valid() {
      Lower(groupId) != Lower(userId)
    }
  }

  /** ASCII lower-casing, the part of `strings.ToLower` that metadata keys use. */
  function Lower(s: string): (r: string)
    ensures |r| == |s|
    ensures forall i :: 0 <= i < |s| ==> r[i] == if 'A' <= s[i] <= 'Z' then (s[i] - 'A' + 'a') as char else s[i]
  {
    if s == [] then []
    else [if 'A' <= s[0] <= 'Z' then (s[0] - 'A' + 'a') as char else s[0]] + Lower(s[1..])
  }

  /** `metadata.MD.Get`: the values stored under the lowered key, none when it is absent. */
  function Values(md: Metadata, k: string): seq<string> {
    if Lower(k) in md then md[Lower(k)] else []
  }

  /** No two keys of `md` become one when lower-cased. */
  predicate LowerDistinct(md: Metadata) {
    forall a, b :: a in md && b in md && Lower(a) == Lower(b) ==> a == b
  }

  /**
   * `metadata.FromIncomingContext`: a copy of the stored metadata under
   * lower-cased keys, built in the map's iteration order `order`, so that of
   * two keys that lower to the same one the later visited wins.
   */
  function LowerKeys(md: Metadata, order: seq<string>): (out: Metadata)
    requires forall k :: k in order ==> k in md
    ensures forall k :: k in out <==> exists j :: 0 <= j < |order| && k == Lower(order[j])
  {
    if order == [] then map[]
    else
      var last := order[|order| - 1];
      var out := LowerKeys(md, order[..|order| - 1]);
      assert forall j :: 0 <= j < |order| - 1 ==> order[..|order| - 1][j] == order[j];
      out[Lower(last) := md[last]]
  }

  /** When no keys collide, every stored key is found lowered with its own values, whatever the order. */
  lemma {:induction false} LowerKeysAt(md: Metadata, order: seq<string>, k: string)
    requires forall x :: x in order ==> x in md
    requires LowerDistinct(md)
    requires k in order
    ensures Lower(k) in LowerKeys(md, order) && LowerKeys(md, order)[Lower(k)] == md[k]
  {
    var init := order[..|order| - 1];
    var last := order[|order| - 1];
    if k != last {
      assert k in init by {
        var j :| 0 <= j < |order| && order[j] == k;
        assert j < |order| - 1 && init[j] == k;
      }
      LowerKeysAt(md, init, k);
    }
  }

  /** `getMetadataValue` (auth.go:55-61): the first value for the key, or "". */
  function MetadataValue(md: Metadata, k: string): (v: string)
    ensures |Values(md, k)| > 0 ==> v == Values(md, k)[0]
    ensures |Values(md, k)| == 0 ==> v == ""
  {
    var vals := Values(md, k);
    if |vals| > 0 then vals[0] else ""
  }

  /** `SetIncomingAuthInfo` (auth.go:17-28): fresh incoming metadata holding one value per id. */
  function SetIncomingAuthInfo(keys: AuthKeys, groupId: string, userId: string): (md: Metadata)
    ensures md.Keys == {keys.groupId, keys.userId}
    ensures keys.groupId != keys.userId ==> md[keys.groupId] == [groupId] && md[keys.userId] == [userId]
  {
    map[keys.groupId := [groupId], keys.userId := [userId]]
  }

  /** The ids read from the context and the error, if any; an id read before the error keeps its value. */
  datatype AuthInfo = AuthInfo(groupId: string, userId: string, err: Option<Error>)

  /**
   * `getIncomingAuthInfo` (auth.go:35-53): `incoming` is the metadata stored
   * in the context, `None` when it has none, and `order` the order in which
   * `FromIncomingContext` visits its keys. Missing metadata, then an empty
   * group id, then (when required) an empty user id, are Unauthenticated
   * errors, and each check is made only when the previous ones passed. The
   * ids are looked up in the lower-cased copy.
   */
  function IncomingAuthInfo(keys: AuthKeys, incoming: Option<Metadata>, order: seq<string>, userIdRequired: bool): (r: AuthInfo)
    requires incoming.Some? ==> Model.Enumerates(order, incoming.value)
    ensures incoming.None? ==> r == AuthInfo("", "", StatusError(Unauthenticated, "missing request metadata"))
    ensures incoming.Some? ==> r.groupId == MetadataValue(LowerKeys(incoming.value, order), keys.groupId)
    ensures incoming.Some? && r.groupId == "" ==> r.userId == "" && CodeOf(r.err) == Unauthenticated
    ensures incoming.Some? && r.groupId != "" ==> r.userId == MetadataValue(LowerKeys(incoming.value, order), keys.userId)
    ensures r.err.None? <==> incoming.Some? && r.groupId != "" && (r.userId != "" || !userIdRequired)
    ensures r.err.Some? ==> CodeOf(r.err) == Unauthenticated
  {
    match incoming
    case None => AuthInfo("", "", StatusError(Unauthenticated, "missing request metadata"))
    case Some(stored) =>
      var md := LowerKeys(stored, order);
      var groupId := MetadataValue(md, keys.groupId);
      if groupId == "" then
        AuthInfo("", "", StatusError(Unauthenticated, "missing value for " + keys.groupId + " in request metadata"))
      else
        var userId := MetadataValue(md, keys.userId);
        if userIdRequired && userId == "" then
          AuthInfo(groupId, "", StatusError(Unauthenticated, "missing value for " + keys.userId + " in request metadata"))
        else AuthInfo(groupId, userId, None)
  }

  /** `GetIncomingAuthInfo` (auth.go:30-33): the user id is always required. */
  function GetIncomingAuthInfo(keys: AuthKeys, incoming: Option<Metadata>, order: seq<string>): (r: AuthInfo)
    requires incoming.Some? ==> Model.Enumerates(order, incoming.value)
    ensures r.err.None? ==> r.groupId != "" && r.userId != ""
    ensures r.err.Some? ==> CodeOf(r.err) == Unauthenticated
  {
    IncomingAuthInfo(keys, incoming, order, true)
  }

  /**
   * Ids stored with `SetIncomingAuthInfo` are read back unchanged by
   * `GetIncomingAuthInfo`, in any iteration order, when both are non-empty.
   */
  lemma SetGetRoundTrip(keys: AuthKeys, groupId: string, userId: string, order: seq<string>)
    requires keys.Valid()
    requires Model.Enumerates(order, SetIncomingAuthInfo(keys, groupId, userId))
    ensures var r := GetIncomingAuthInfo(keys, Some(SetIncomingAuthInfo(keys, groupId, userId)), order);
            (r.err.None? <==> groupId != "" && userId != "") &&
            (r.err.None? ==> r.groupId == groupId && r.userId == userId)
  {
    var md := SetIncomingAuthInfo(keys, groupId, userId);
    assert keys.groupId != keys.userId;
    LowerKeysAt(md, order, keys.groupId);
    LowerKeysAt(md, order, keys.userId);
    assert Values(LowerKeys(md, order), keys.groupId) == [groupId];
    assert Values(LowerKeys(md, order), keys.userId) == [userId];
  }

  /** A key set with upper-case letters is found: the incoming copy and the lookup both lower it. */
  lemma UpperCaseKeyIsFound(groupId: string, userId: string, order: seq<string>)
    requires groupId != "" && userId != ""
    requires Model.Enumerates(order, SetIncomingAuthInfo(AuthKeys("G", "u"), groupId, userId))
    ensures var keys := AuthKeys("G", "u");
            GetIncomingAuthInfo(keys, Some(SetIncomingAuthInfo(keys, groupId, userId)), order) == AuthInfo(groupId, userId, None)
  {
    assert Lower("G") == "g";
    assert Lower("u") == "u";
    SetGetRoundTrip(AuthKeys("G", "u"), groupId, userId, order);
  }
}
