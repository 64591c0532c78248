/**
 * The client of the Telegram-bot channel service (api/grpc/tgbot/service.go):
 * looking a channel up by its link, and listing channel links, over an oracle
 * of the remote ListChannels call.
 */
module TgBot {
  import opened Wrappers
  import opened Ints
  import opened Model
  import opened Grpc

  datatype Channel = Channel(link: string, lastUpdate: Option<Time>)
  datatype Filter = Filter(pattern: string)

  /** The wire order; `Unset` is the zero value a request built without one carries. */
  datatype WireOrder = Unset | Asc | Desc

  datatype ListChannelsRequest = ListChannelsRequest(filter: Filter, limit: uint32, cursor: string, order: WireOrder)
  datatype ListChannelsResponse = ListChannelsResponse(page: seq<Channel>)

  /** The remote ListChannels: a possibly nil response and a possibly nil error. */
  type Client = ListChannelsRequest -> (Option<ListChannelsResponse>, Option<Error>)

  /** The number of channels a lookup asks for. */
  const ReadLimit: uint32 := 1000

  /** The request `ReadChannel` sends for `link` (service.go:24-29). */
  function ReadRequest(link: string): ListChannelsRequest {
    ListChannelsRequest(Filter(link), ReadLimit, "", Unset)
  }

  /** The last channel of the page whose link is exactly `link`. */
  function LastMatch(page: seq<Channel>, link: string): Option<Channel> {
    if page == [] then None
    else if page[|page| - 1].link == link then Some(page[|page| - 1])
    else LastMatch(page[..|page| - 1], link)
  }

  /**
   * `LastMatch` finds a channel exactly when one matches; the one found
   * matches and no channel after it does.
   */
  lemma {:induction false} LastMatchIsLast(page: seq<Channel>, link: string)
    ensures LastMatch(page, link).None? <==> forall j :: 0 <= j < |page| ==> page[j].link != link
    ensures LastMatch(page, link).Some? ==>
              exists i :: 0 <= i < |page| && page[i] == LastMatch(page, link).value && page[i].link == link &&
                          forall j :: i < j < |page| ==> page[j].link != link
  {
    if page != [] {
      var init := page[..|page| - 1];
      LastMatchIsLast(init, link);
      if page[|page| - 1].link != link && LastMatch(init, link).Some? {
        var i :| 0 <= i < |init| && init[i] == LastMatch(init, link).value && init[i].link == link &&
                 forall j :: i < j < |init| ==> init[j].link != link;
        assert page[i] == init[i];
      }
    }
  }

  /** The outcome of `ReadChannel`, or a nil-pointer panic when the remote call returns neither response nor error. */
  datatype ReadOutcome = Read(ch: Option<Channel>, err: Option<Error>) | ReadPanicked

  /**
   * `ReadChannel` (service.go:23-40): on success the last channel of the page
   * with exactly the given link, `None` when there is none; the remote error
   * is returned as it is.
   */
  method ReadChannel(c: Client, link: string) returns (r: ReadOutcome)
    ensures var (resp, e) := c(ReadRequest(link));
            (e.Some? ==> r == Read(None, e)) &&
            (e.None? && resp.None? ==> r.ReadPanicked?) &&
            (e.None? && resp.Some? ==> r == Read(LastMatch(resp.value.page, link), None))
  {
    var (resp, err) := c(ReadRequest(link));
    if err.Some? {
      return Read(None, err);
    }
    if resp.None? {
      return ReadPanicked;
    }
    var page := resp.value.page;
    var ch: Option<Channel> := None;
    var i := 0;
    while i < |page|
      invariant 0 <= i <= |page|
      invariant ch == LastMatch(page[..i], link)
    {
      assert page[..i + 1][..i] == page[..i];
      if page[i].link == link {
        ch := Some(page[i]);
      }
      i := i + 1;
    }
    assert page[..i] == page;
    return Read(ch, None);
  }

  /** A channel found by `ReadChannel` has exactly the link asked for. */
  lemma ReadChannelMatches(page: seq<Channel>, link: string)
    requires LastMatch(page, link).Some?
    ensures LastMatch(page, link).value.link == link && LastMatch(page, link).value in page
  {
    LastMatchIsLast(page, link);
  }

  /** The wire value of a list order (service.go:48-53): descending stays descending, anything else is ascending. */
  function WireOrderOf(o: Order): (w: WireOrder)
    ensures w == Desc <==> o == OrderDesc
    ensures w != Unset
  {
    match o
    case OrderDesc => Desc
    case _ => Asc
  }

  /** The outcome of `ListChannels`, or a nil-pointer panic as for `ReadOutcome`. */
  datatype ListOutcome = Listed(links: seq<string>, err: Option<Error>) | ListPanicked

  /**
   * `ListChannels` (service.go:42-62): the filter, limit and cursor are sent
   * unchanged with the mapped order; on success the result holds one link per
   * channel of the page, in page order.
   */
  method ListChannels(c: Client, filter: Filter, limit: uint32, cursor: string, order: Order) returns (r: ListOutcome)
    ensures var (resp, e) := c(ListChannelsRequest(filter, limit, cursor, WireOrderOf(order)));
            (e.Some? ==> r == Listed([], e)) &&
            (e.None? && resp.None? ==> r.ListPanicked?) &&
            (e.None? && resp.Some? ==>
               r.Listed? && r.err.None? && |r.links| == |resp.value.page| &&
               forall j :: 0 <= j < |r.links| ==> r.links[j] == resp.value.page[j].link)
  {
    var req := ListChannelsRequest(filter, limit, cursor, WireOrderOf(order));
    var (resp, err) := c(req);
    if err.Some? {
      return Listed([], err);
    }
    if resp.None? {
      return ListPanicked;
    }
    var links: seq<string> := [];
    var i := 0;
    while i < |resp.value.page|
      invariant 0 <= i <= |resp.value.page|
      invariant |links| == i
      invariant forall j :: 0 <= j < i ==> links[j] == resp.value.page[j].link
    {
      links := links + [resp.value.page[i].link];
      i := i + 1;
    }
    return Listed(links, None);
  }
}
