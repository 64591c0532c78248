/**
 * The payload of a source-creation request and its validation
 * (api/http/pub/src/create.go).
 */
module SourceCreate {
  import opened Wrappers
  import opened Ints
  import opened Grpc
  import opened Decimal

  /** Feed polling frequency bounds, in updates per day: once a day to every 5 minutes. */
  const FreqMin: uint32 := 1
  const FreqMax: uint32 := 288

  const TypeApub: string := "apub"
  const TypeFeed: string := "feed"
  const TypeSite: string := "site"
  const TypeTgCh: string := "tgch"
  const TypeTgbc: string := "tgbc"

  /** `CreatePayload`: the feed frequency (`Limit.Freq`), the address and the type of the source. */
  datatype CreatePayload = CreatePayload(freq: uint32, addr: string, srcType: string)

  /** The source types that may be created, ignoring the frequency. */
  predicate CreatableType(t: string) {
    t in {TypeFeed, TypeSite, TypeTgCh, TypeApub}
  }

  /**
   * `validate` (create.go:33-52): an empty address is rejected first, then a
   * feed needs a frequency within bounds, the site, Telegram-channel and
   * ActivityPub types pass, and every other type (the Telegram-bot type
   * among them) is rejected. Every error wraps errInvalidPayload.
   */
  function Validate(cp: CreatePayload): (err: Option<Error>)
    ensures err.None? <==> cp.addr != "" && CreatableType(cp.srcType) &&
                           (cp.srcType == TypeFeed ==> FreqMin <= cp.freq <= FreqMax)
    ensures err.Some? ==> Is(err, InvalidPayload)
    ensures cp.addr == "" ==> err == Some(Wrapped(InvalidPayload, ": missing source address"))
    ensures cp.addr != "" && !CreatableType(cp.srcType) ==>
              err == Some(Wrapped(InvalidPayload, ": unrecognized source type: " + cp.srcType))
  {
    if cp.addr == "" then Some(Wrapped(InvalidPayload, ": missing source address"))
    else if cp.srcType == TypeFeed then
      if cp.freq < FreqMin || cp.freq > FreqMax then
        Some(Wrapped(InvalidPayload, ": missing/invalid feed update frequency: " + Itoa(cp.freq) + " per day"))
      else None
    else if cp.srcType in {TypeSite, TypeTgCh, TypeApub} then None
    else Some(Wrapped(InvalidPayload, ": unrecognized source type: " + cp.srcType))
  }

  /** The frequency bounds only matter for feeds. */
  lemma FreqOnlyForFeeds(cp: CreatePayload, freq: uint32)
    requires cp.srcType != TypeFeed
    ensures Validate(cp.(freq := freq)) == Validate(cp)
  {
  }
}
