/**
 * The start-up loop that pages the deny-list store into the matcher
 * (main.go:164-181), run against a model of the store's page query.
 */
module BlacklistLoad {
  import opened Wrappers
  import opened Grpc
  import opened Model
  import opened Prefixes

  /** The page size the loop asks for. */
  const PageLimit: nat := 100

  /**
   * The store's `$gt` comparison of prefixes (storage/blacklist.go:108):
   * byte-wise string order, assumed here as lexicographic order on code
   * points, which it equals on valid UTF-8.
   */
  predicate Less(a: string, b: string)
    decreases |a|
  {
    if |a| == 0 then |b| > 0
    else if |b| == 0 then false
    else if a[0] != b[0] then a[0] < b[0]
    else Less(a[1..], b[1..])
  }

  lemma {:induction false} LessIrreflexive(a: string)
    ensures !Less(a, a)
    decreases |a|
  {
    if |a| > 0 { LessIrreflexive(a[1..]); }
  }

  lemma {:induction false} LessAsymmetric(a: string, b: string)
    requires Less(a, b)
    ensures !Less(b, a)
    decreases |a|
  {
    if |a| > 0 && |b| > 0 && a[0] == b[0] { LessAsymmetric(a[1..], b[1..]); }
  }

  lemma {:induction false} LessTransitive(a: string, b: string, c: string)
    requires Less(a, b) && Less(b, c)
    ensures Less(a, c)
    decreases |a|
  {
    if |a| > 0 && a[0] == b[0] && b[0] == c[0] { LessTransitive(a[1..], b[1..], c[1..]); }
  }

  /** The store's entries in ascending prefix order; ascending order is an assumption, since the query requests no sort. */
  ghost predicate Ascending(s: seq<BlacklistEntry>) {
    forall i, j :: 0 <= i < j < |s| ==> Less(s[i].prefix, s[j].prefix)
  }

  /**
   * The blacklist store as the page query sees it: its entries (the prefix
   * index is unique) and the cursors at which the query fails for reasons
   * outside this model (connection loss, a decoding error).
   */
  datatype Store = Store(entries: seq<BlacklistEntry>, faults: set<string>)

  /** The entries whose prefix is greater than `cursor`, in store order. */
  function Above(s: seq<BlacklistEntry>, cursor: string): seq<BlacklistEntry> {
    if s == [] then []
    else if Less(cursor, s[0].prefix) then [s[0]] + Above(s[1..], cursor)
    else Above(s[1..], cursor)
  }

  /** `GetPage(limit, cursor)`: at most `limit` entries with prefix above `cursor`, or an error. */
  function GetPage(st: Store, limit: nat, cursor: string): (r: Result<seq<BlacklistEntry>, Error>)
    ensures r.Success? <==> cursor !in st.faults
    ensures r.Success? ==> |r.value| <= limit && r.value <= Above(st.entries, cursor)
  {
    if cursor in st.faults then Failure(Plain("blacklist storage failure"))
    else
      var after := Above(st.entries, cursor);
      Success(if |after| <= limit then after else after[..limit])
  }

  /** The matcher contents after `Put`ting the entries in order; a later duplicate overwrites an earlier one. */
  function PutAll(s: seq<BlacklistEntry>): map<string, BlacklistValue> {
    if s == [] then map[]
    else PutAll(s[..|s| - 1])[s[|s| - 1].prefix := s[|s| - 1].value]
  }

  function Flatten(pages: seq<seq<BlacklistEntry>>): seq<BlacklistEntry> {
    if pages == [] then [] else Flatten(pages[..|pages| - 1]) + pages[|pages| - 1]
  }

  /** If the entries below index n are not above the cursor and the rest are, the entries above the cursor are `s[n..]`. */
  lemma {:induction false} AboveSplit(s: seq<BlacklistEntry>, cursor: string, n: nat)
    requires n <= |s|
    requires forall i :: 0 <= i < n ==> !Less(cursor, s[i].prefix)
    requires forall i :: n <= i < |s| ==> Less(cursor, s[i].prefix)
    ensures Above(s, cursor) == s[n..]
    decreases |s|
  {
    if s != [] {
      if n == 0 {
        AboveSplit(s[1..], cursor, 0);
        assert s == [s[0]] + s[1..];
      } else {
        AboveSplit(s[1..], cursor, n - 1);
        assert s[1..][n - 1..] == s[n..];
      }
    }
  }

  /** In an ascending store, the entries above the prefix of entry i are those after it. */
  lemma AboveEntry(s: seq<BlacklistEntry>, i: nat)
    requires Ascending(s) && i < |s|
    ensures Above(s, s[i].prefix) == s[i + 1..]
  {
    forall j | 0 <= j < i + 1 ensures !Less(s[i].prefix, s[j].prefix) {
      if j == i { LessIrreflexive(s[i].prefix); } else { LessAsymmetric(s[j].prefix, s[i].prefix); }
    }
    AboveSplit(s, s[i].prefix, i + 1);
  }

  /** In an ascending store, the entries above the empty cursor are all but a leading empty prefix. */
  lemma AboveEmptyCursor(s: seq<BlacklistEntry>) returns (n: nat)
    requires Ascending(s)
    ensures n <= |s| && Above(s, "") == s[n..]
    ensures forall i :: 0 <= i < n ==> s[i].prefix == ""
  {
    n := if |s| > 0 && s[0].prefix == "" then 1 else 0;
    forall i | n <= i < |s| ensures Less("", s[i].prefix) {
      if i > 0 && s[i].prefix == "" { assert Less(s[0].prefix, s[i].prefix); }
    }
    AboveSplit(s, "", n);
  }

  lemma PutAllSnoc(s: seq<BlacklistEntry>, e: BlacklistEntry)
    ensures PutAll(s + [e]) == PutAll(s)[e.prefix := e.value]
  {
    assert (s + [e])[..|s|] == s;
  }

  /** A fetched page is the next run of the store; after a non-empty page, its last prefix is the next cursor. */
  lemma PageStep(st: Store, cursor: string, k: nat, page: seq<BlacklistEntry>)
    requires Ascending(st.entries) && k <= |st.entries|
    requires Above(st.entries, cursor) == st.entries[k..]
    requires GetPage(st, PageLimit, cursor) == Success(page)
    ensures k + |page| <= |st.entries| && page == st.entries[k..k + |page|]
    ensures page == [] ==> k == |st.entries|
    ensures page != [] ==> Above(st.entries, page[|page| - 1].prefix) == st.entries[k + |page|..]
  {
    var s := st.entries;
    if page != [] {
      AboveEntry(s, k + |page| - 1);
    }
  }

  /** The inner loop: `Put` each entry of a page into the matcher, in page order. */
  method PutPage(m: Prefixes<BlacklistValue>, ghost loaded: seq<BlacklistEntry>, page: seq<BlacklistEntry>)
    requires m.entries == PutAll(loaded)
    modifies m
    ensures m.entries == PutAll(loaded + page)
  {
    var j := 0;
    assert loaded + page[..0] == loaded;
    while j < |page|
      invariant 0 <= j <= |page|
      invariant m.entries == PutAll(loaded + page[..j])
    {
      PutAllSnoc(loaded + page[..j], page[j]);
      assert (loaded + page[..j]) + [page[j]] == loaded + page[..j + 1];
      var _ := m.Put(page[j].prefix, page[j].value);
      j := j + 1;
    }
    assert page[..j] == page;
  }

  lemma FlattenSnoc(pages: seq<seq<BlacklistEntry>>, page: seq<BlacklistEntry>)
    ensures Flatten(pages + [page]) == Flatten(pages) + page
  {
    assert (pages + [page])[..|pages|] == pages;
  }

  /**
   * The fetch history: `pages[i]` is what the query returned for
   * `cursors[i]`, and every cursor after the first is the last prefix of the
   * (non-empty) page before it. There is one page per cursor, or one fewer
   * when the last fetch failed.
   */
  ghost predicate Fetched(st: Store, cursors: seq<string>, pages: seq<seq<BlacklistEntry>>)
    decreases |pages|
  {
    if pages == [] then |cursors| <= 1
    else
      var n := |pages| - 1;
      n + 1 <= |cursors| <= n + 2
      && GetPage(st, PageLimit, cursors[n]) == Success(pages[n])
      && (n + 1 < |cursors| ==> pages[n] != [] && cursors[n + 1] == pages[n][|pages[n]| - 1].prefix)
      && Fetched(st, cursors[..n + 1], pages[..n])
  }

  /** What `Fetched` says about each fetch. */
  lemma {:induction false} FetchedAt(st: Store, cursors: seq<string>, pages: seq<seq<BlacklistEntry>>, i: nat)
    requires Fetched(st, cursors, pages) && i < |pages|
    ensures |pages| <= |cursors| <= |pages| + 1
    ensures GetPage(st, PageLimit, cursors[i]) == Success(pages[i])
    ensures i + 1 < |cursors| ==> pages[i] != [] && cursors[i + 1] == pages[i][|pages[i]| - 1].prefix
    decreases |pages|
  {
    var n := |pages| - 1;
    if i < n {
      FetchedAt(st, cursors[..n + 1], pages[..n], i);
    }
  }

  lemma FetchedSnoc(st: Store, cursors: seq<string>, pages: seq<seq<BlacklistEntry>>, page: seq<BlacklistEntry>)
    requires |cursors| == |pages| + 1 && Fetched(st, cursors, pages)
    requires GetPage(st, PageLimit, cursors[|pages|]) == Success(page)
    ensures Fetched(st, cursors, pages + [page])
  {
    assert (pages + [page])[..|pages|] == pages;
    assert cursors[..|pages| + 1] == cursors;
  }

  lemma FetchedNext(st: Store, cursors: seq<string>, pages: seq<seq<BlacklistEntry>>)
    requires |cursors| == |pages| && |pages| >= 1 && Fetched(st, cursors, pages)
    requires pages[|pages| - 1] != []
    ensures Fetched(st, cursors + [pages[|pages| - 1][|pages[|pages| - 1]| - 1].prefix], pages)
  {
    var c := pages[|pages| - 1][|pages[|pages| - 1]| - 1].prefix;
    assert (cursors + [c])[..|pages|] == cursors[..|pages|];
  }

  /**
   * The state of the load loop after `k` entries of the store: the
   * entries loaded so far are the fetched pages, which are the store's
   * entries from the first one above the empty cursor up to `k`, and the
   * entries above the current cursor are the rest.
   */
  ghost predicate LoadState(st: Store, n0: nat, k: nat, cursor: string, loaded: seq<BlacklistEntry>,
                            cursors: seq<string>, pages: seq<seq<BlacklistEntry>>)
  {
    n0 <= k <= |st.entries|
    && Above(st.entries, "") == st.entries[n0..]
    && Above(st.entries, cursor) == st.entries[k..]
    && loaded == st.entries[n0..k] && Flatten(pages) == loaded
    && |cursors| == |pages| + 1 && cursors[0] == "" && cursors[|cursors| - 1] == cursor
    && Fetched(st, cursors, pages)
  }

  /** One successful non-empty fetch advances the loop state past the page. */
  lemma Advance(st: Store, n0: nat, k: nat, cursor: string, loaded: seq<BlacklistEntry>,
                cursors: seq<string>, pages: seq<seq<BlacklistEntry>>, page: seq<BlacklistEntry>)
    requires Ascending(st.entries)
    requires LoadState(st, n0, k, cursor, loaded, cursors, pages)
    requires GetPage(st, PageLimit, cursor) == Success(page) && page != []
    ensures k + |page| <= |st.entries|
    ensures LoadState(st, n0, k + |page|, page[|page| - 1].prefix, loaded + page,
                      cursors + [page[|page| - 1].prefix], pages + [page])
  {
    var s := st.entries;
    PageStep(st, cursor, k, page);
    FetchedSnoc(st, cursors, pages, page);
    FlattenSnoc(pages, page);
    FetchedNext(st, cursors, pages + [page]);
    assert s[n0..k + |page|] == s[n0..k] + s[k..k + |page|];
  }

  /** A successful empty fetch ends the loop with every entry above the empty cursor loaded. */
  lemma Finish(st: Store, n0: nat, k: nat, cursor: string, loaded: seq<BlacklistEntry>,
               cursors: seq<string>, pages: seq<seq<BlacklistEntry>>)
    requires Ascending(st.entries)
    requires LoadState(st, n0, k, cursor, loaded, cursors, pages)
    requires GetPage(st, PageLimit, cursor) == Success([])
    ensures Fetched(st, cursors, pages + [[]])
    ensures Flatten(pages + [[]]) == loaded == Above(st.entries, "")
  {
    PageStep(st, cursor, k, []);
    FetchedSnoc(st, cursors, pages, []);
    FlattenSnoc(pages, []);
    assert loaded + [] == loaded;
  }

  /**
   * The load loop: start from an empty matcher and the empty cursor; fetch
   * pages of at most 100 entries; stop at the first empty page; after a page,
   * continue from its last prefix; `Put` every entry; abort on the first
   * failed fetch, which the code panics with. `cursors` and `pages` record the fetches made.
   */
  method LoadBlacklist(st: Store) returns (m: Prefixes<BlacklistValue>, err: Option<Error>,
                                           ghost cursors: seq<string>, ghost pages: seq<seq<BlacklistEntry>>)
    requires Ascending(st.entries)
    ensures |cursors| >= 1 && cursors[0] == ""
    ensures |pages| == |cursors| - (if err.Some? then 1 else 0)
    ensures Fetched(st, cursors, pages)
    ensures err.Some? <==> cursors[|cursors| - 1] in st.faults
    ensures err.None? ==> pages[|pages| - 1] == []
    ensures m.entries == PutAll(Flatten(pages))
    ensures err.None? ==> m.entries == PutAll(Above(st.entries, ""))
  {
    m := new Prefixes(ZeroBlacklistValue);
    var cursor := "";
    ghost var n0 := AboveEmptyCursor(st.entries);
    ghost var k := n0;
    ghost var loaded: seq<BlacklistEntry> := [];
    err := None;
    cursors, pages := [cursor], [];
    while true
      invariant LoadState(st, n0, k, cursor, loaded, cursors, pages)
      invariant m.entries == PutAll(loaded)
      decreases |st.entries| - k
    {
      var r := GetPage(st, PageLimit, cursor);
      if r.Failure? {
        err := Some(r.error);
        return;
      }
      var page := r.value;
      if |page| == 0 {
        Finish(st, n0, k, cursor, loaded, cursors, pages);
        pages := pages + [page];
        return;
      }
      Advance(st, n0, k, cursor, loaded, cursors, pages, page);
      cursor := page[|page| - 1].prefix;
      PutPage(m, loaded, page);
      loaded, cursors, pages, k := loaded + page, cursors + [cursor], pages + [page], k + |page|;
    }
  }
}
