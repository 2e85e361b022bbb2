/**
 * Kalshi collection (data/kalshi.py): the query parameters of one page,
 * the shape of a page result, the cursor-frontier loop of `fetch_markets`
 * and the ticker-keyed merge of `_save_markets`. The HTTP request is an
 * oracle from query parameters to a response; rate limiting is left out and
 * the concurrent requests of a wave are evaluated in task order, the order
 * `asyncio.gather` returns their results in.
 */
module KalshiData {
  import opened Wrappers
  import opened Records
  import opened Dedup
  import opened Seqs

  const DefaultLimit: int := 1000
  const DefaultStatus: string := "open"
  const DefaultMaxConcurrent: int := 5

  /** The filters of one collection run, passed unchanged to every page request. */
  datatype Query = Query(
    status: string := DefaultStatus,
    minCloseTs: Option<int> := None,
    eventTicker: Option<string> := None,
    limit: int := DefaultLimit,
    maxConcurrent: int := DefaultMaxConcurrent)

  /** Python truthiness of an optional integer. */
  predicate TruthyInt(x: Option<int>) {
    x.Some? && x.value != 0
  }

  /** The query parameters a page request may carry. */
  datatype Param = Limit | Status | Cursor | MinCloseTs | EventTicker

  /** The name of a parameter in the query string. */
  function WireName(p: Param): string {
    match p
    case Limit => "limit"
    case Status => "status"
    case Cursor => "cursor"
    case MinCloseTs => "min_close_ts"
    case EventTicker => "event_ticker"
  }

  /** Distinct parameters go out under distinct names, so a dictionary keyed by `Param` is one keyed by name. */
  lemma WireNamesDistinct()
    ensures forall a: Param, b: Param :: a != b ==> WireName(a) != WireName(b)
  {
  }

  /** The query parameters of one page request (a Python dict). */
  type Params = map<Param, ParamValue>

  /** The query parameters of `_fetch_markets_page`. */
  function PageParams(cursor: Option<string>, q: Query): (p: Params)
    ensures Limit in p && p[Limit] == IntParam(q.limit)
    ensures Status in p && p[Status] == TextParam(q.status)
    ensures (Cursor in p) <==> Truthy(cursor)
    ensures Cursor in p ==> p[Cursor] == TextParam(cursor.value)
    ensures (MinCloseTs in p) <==> TruthyInt(q.minCloseTs)
    ensures MinCloseTs in p ==> p[MinCloseTs] == IntParam(q.minCloseTs.value)
    ensures (EventTicker in p) <==> Truthy(q.eventTicker)
    ensures EventTicker in p ==> p[EventTicker] == TextParam(q.eventTicker.value)
  {
    var p := map[Limit := IntParam(q.limit), Status := TextParam(q.status)];
    var p := if Truthy(cursor) then p[Cursor := TextParam(cursor.value)] else p;
    var p := if TruthyInt(q.minCloseTs) then p[MinCloseTs := IntParam(q.minCloseTs.value)] else p;
    if Truthy(q.eventTicker) then p[EventTicker := TextParam(q.eventTicker.value)] else p
  }

  /** The dictionary as `_fetch_markets_page` builds it, one conditional insert at a time. */
  method BuildPageParams(cursor: Option<string>, q: Query) returns (params: Params)
    ensures params == PageParams(cursor, q)
  {
    params := map[Limit := IntParam(q.limit), Status := TextParam(q.status)];
    if Truthy(cursor) {
      params := params[Cursor := TextParam(cursor.value)];
    }
    if TruthyInt(q.minCloseTs) {
      params := params[MinCloseTs := IntParam(q.minCloseTs.value)];
    }
    if Truthy(q.eventTicker) {
      params := params[EventTicker := TextParam(q.eventTicker.value)];
    }
  }

  /** The first request of a run with every default: 1000 open markets, no cursor. */
  lemma DefaultFirstRequest()
    ensures PageParams(None, Query()) == map[Limit := IntParam(1000), Status := TextParam("open")]
    ensures Query().maxConcurrent == 5
  {
  }

  /** What the venue answers to one page request. */
  datatype PageResponse =
    | RequestFailed  // transport error, non-2xx status, or a body that is not a JSON object
    | PageBody(markets: Field<seq<KalshiMarket>>, cursor: Field<string>)

  /** The page request as an oracle. */
  type Fetch = Params -> PageResponse

  datatype Page = Page(markets: seq<KalshiMarket>, next: Option<string>)

  /**
   * The value `_fetch_markets_page` returns, or None when it raises: a
   * `markets` field holding null makes the `len` in its log line raise.
   */
  function PageResult(resp: PageResponse): (r: Option<Page>)
    ensures resp.RequestFailed? ==> r.None?
    ensures resp.PageBody? && resp.markets.Missing? ==> r == Some(Page([], Get(resp.cursor)))
    ensures resp.PageBody? && resp.markets.Null? ==> r.None?
    ensures resp.PageBody? && resp.markets.Val? ==> r == Some(Page(resp.markets.value, Get(resp.cursor)))
  {
    match resp
    case RequestFailed => None
    case PageBody(markets, cursor) =>
      match markets
      case Missing => Some(Page([], Get(cursor)))
      case Null => None
      case Val(ms) => Some(Page(ms, Get(cursor)))
  }

  /** Where Python's slice `s[:n]` / `s[n:]` splits a sequence of length `len`. */
  function SliceStop(len: nat, n: int): (k: nat)
    ensures k <= len
    ensures n >= 0 ==> k == if n < len then n else len
    ensures n < 0 ==> k == if len + n > 0 then len + n else 0
  {
    if n >= 0 then (if n < len then n else len)
    else if len + n > 0 then len + n else 0
  }

  /** One collection run's loop state. `requests` counts the page requests issued. */
  datatype CursorRun = CursorRun(
    frontier: seq<Option<string>>,
    markets: seq<KalshiMarket>,
    hasMore: bool,
    requests: nat)

  /** What the results of a wave add: their markets, and their truthy next cursors. */
  datatype Harvested = Harvested(markets: seq<KalshiMarket>, cursors: seq<Option<string>>)

  /** The result of the page request for `cursor`, None when it raised. */
  function Answer(cursor: Option<string>, q: Query, fetch: Fetch): Option<Page> {
    PageResult(fetch(PageParams(cursor, q)))
  }

  /** `h` extended by one result: a raised request adds nothing, a page its markets and its truthy next cursor. */
  function Take(h: Harvested, answer: Option<Page>): Harvested {
    match answer
    case None => h
    case Some(page) =>
      Harvested(h.markets + page.markets, if Truthy(page.next) then h.cursors + [page.next] else h.cursors)
  }

  /** The results of requesting `cursors`, taken in task order. */
  function Harvest(cursors: seq<Option<string>>, q: Query, fetch: Fetch): (r: Harvested)
    ensures forall c :: c in r.cursors ==> Truthy(c)
    ensures |r.cursors| <= |cursors|
  {
    if cursors == [] then Harvested([], [])
    else Take(Harvest(cursors[..|cursors| - 1], q, fetch), Answer(cursors[|cursors| - 1], q, fetch))
  }

  /** The loop's continuation condition. */
  predicate Running(s: CursorRun) {
    s.hasMore && s.frontier != []
  }

  /** One iteration of the `while` loop of `fetch_markets`. */
  function CursorWave(s: CursorRun, q: Query, fetch: Fetch): CursorRun
    requires Running(s)
  {
    var taken := SliceStop(|s.frontier|, q.maxConcurrent);
    var h := Harvest(s.frontier[..taken], q, fetch);
    var frontier := s.frontier[taken..] + h.cursors;
    CursorRun(frontier, s.markets + h.markets, h.markets != [] && frontier != [], s.requests + taken)
  }

  /** The loop run for at most `fuel` iterations. */
  function Crawl(s: CursorRun, q: Query, fetch: Fetch, fuel: nat): CursorRun
    decreases fuel
  {
    if !Running(s) || fuel == 0 then s
    else Crawl(CursorWave(s, q, fetch), q, fetch, fuel - 1)
  }

  /** One iteration only appends to the markets collected so far and only adds requests. */
  lemma WaveGrows(s: CursorRun, q: Query, fetch: Fetch)
    requires Running(s)
    ensures var w := CursorWave(s, q, fetch);
      && |s.markets| <= |w.markets| && w.markets[..|s.markets|] == s.markets
      && s.requests <= w.requests
  {
    var w := CursorWave(s, q, fetch);
    var h := Harvest(s.frontier[..SliceStop(|s.frontier|, q.maxConcurrent)], q, fetch);
    assert w.markets == s.markets + h.markets;
    assert w.markets[..|s.markets|] == s.markets;
  }

  /** The run only appends to the markets collected so far and only adds requests. */
  lemma {:induction false} CrawlGrows(s: CursorRun, q: Query, fetch: Fetch, fuel: nat)
    ensures var r := Crawl(s, q, fetch, fuel);
      && |s.markets| <= |r.markets| && r.markets[..|s.markets|] == s.markets
      && s.requests <= r.requests
    decreases fuel
  {
    if Running(s) && fuel > 0 {
      var w := CursorWave(s, q, fetch);
      WaveGrows(s, q, fetch);
      var f: nat := fuel - 1;
      assert Crawl(s, q, fetch, fuel) == Crawl(w, q, fetch, f);
      CrawlGrows(w, q, fetch, f);
      var r := Crawl(w, q, fetch, f);
      assert r.markets[..|s.markets|] == r.markets[..|w.markets|][..|s.markets|];
    }
  }

  /** The state before the first iteration: one pending request, without cursor. */
  const Start: CursorRun := CursorRun([None], [], true, 0)

  /** The unique-by-ticker key; an absent and a null ticker are the same null. */
  function TickerKey(m: KalshiMarket): Option<string> {
    Get(m.ticker)
  }

  /**
   * `_save_markets`: the stored snapshot followed by the new markets, one
   * record per ticker, at the ticker's first appearance.
   */
  function SaveMarkets(existing: seq<KalshiMarket>, markets: seq<KalshiMarket>): (r: seq<KalshiMarket>)
    ensures KeysDistinct(r, TickerKey)
    ensures KeySet(r, TickerKey) == KeySet(existing + markets, TickerKey)
    ensures r == Firsts(existing + markets, TickerKey, |existing + markets|)
  {
    Merge(existing, markets, TickerKey)
  }

  /**
   * The body of one iteration: request the first entries of the frontier
   * (as many as `max_concurrent` selects), then collect the markets and the
   * next cursors of the successful results in task order.
   */
  method RunWave(frontier: seq<Option<string>>, q: Query, fetch: Fetch)
    returns (taken: nat, newMarkets: seq<KalshiMarket>, cursors: seq<Option<string>>)
    ensures taken == SliceStop(|frontier|, q.maxConcurrent)
    ensures newMarkets == Harvest(frontier[..taken], q, fetch).markets
    ensures cursors == frontier[taken..] + Harvest(frontier[..taken], q, fetch).cursors
  {
    taken := SliceStop(|frontier|, q.maxConcurrent);
    var current := frontier[..taken];
    cursors := frontier[taken..];
    newMarkets := [];
    ghost var appended: seq<Option<string>> := [];
    for t := 0 to |current|
      invariant Harvest(current[..t], q, fetch) == Harvested(newMarkets, appended)
      invariant cursors == frontier[taken..] + appended
    {
      assert current[..t + 1][..t] == current[..t];
      var params := BuildPageParams(current[t], q);
      var result := PageResult(fetch(params));
      if result.Some? {
        newMarkets := newMarkets + result.value.markets;
        if Truthy(result.value.next) {
          cursors := cursors + [result.value.next];
          appended := appended + [result.value.next];
        }
      }
    }
    assert current[..|current|] == current;
  }

  /** The outputs of `RunWave` on the loop state `s` give the state after one iteration. */
  lemma WaveStep(s: CursorRun, q: Query, fetch: Fetch, taken: nat, newMarkets: seq<KalshiMarket>, cursors: seq<Option<string>>)
    requires Running(s)
    requires taken == SliceStop(|s.frontier|, q.maxConcurrent)
    requires newMarkets == Harvest(s.frontier[..taken], q, fetch).markets
    requires cursors == s.frontier[taken..] + Harvest(s.frontier[..taken], q, fetch).cursors
    ensures CursorWave(s, q, fetch)
         == CursorRun(cursors, s.markets + newMarkets, newMarkets != [] && cursors != [], s.requests + taken)
  {
  }

  /** The body of the `while` loop of `fetch_markets`, entered with `has_more` set and cursors pending. */
  method Iterate(cursors: seq<Option<string>>, allMarkets: seq<KalshiMarket>, ghost requests: nat, q: Query, fetch: Fetch)
    returns (cursors': seq<Option<string>>, allMarkets': seq<KalshiMarket>, hasMore: bool, ghost requests': nat)
    requires cursors != []
    ensures CursorRun(cursors', allMarkets', hasMore, requests')
         == CursorWave(CursorRun(cursors, allMarkets, true, requests), q, fetch)
  {
    var taken, newMarkets;
    taken, newMarkets, cursors' := RunWave(cursors, q, fetch);
    allMarkets' := allMarkets;
    hasMore := true;
    if newMarkets == [] {
      hasMore := false;
    } else {
      allMarkets' := allMarkets' + newMarkets;
    }
    if cursors' == [] {
      hasMore := false;
    }
    requests' := requests + taken;
    WaveStep(CursorRun(cursors, allMarkets, true, requests), q, fetch, taken, newMarkets, cursors');
    assert newMarkets == [] ==> allMarkets + newMarkets == allMarkets';
  }

  /**
   * `fetch_markets` with the loop bounded by `fuel` iterations. `finished`
   * says the loop ended by its own condition; `saved` is the snapshot
   * written, if any (the stored snapshot `existing` is an input).
   */
  method FetchMarkets(q: Query, fetch: Fetch, existing: seq<KalshiMarket>, fuel: nat)
    returns (markets: seq<KalshiMarket>, saved: Option<seq<KalshiMarket>>, finished: bool)
    ensures markets == Crawl(Start, q, fetch, fuel).markets
    ensures finished <==> !Running(Crawl(Start, q, fetch, fuel))
    ensures saved == if markets == [] then None else Some(SaveMarkets(existing, markets))
  {
    var allMarkets: seq<KalshiMarket> := [];
    var cursors: seq<Option<string>> := [None];
    var hasMore := true;
    ghost var requests: nat := 0;
    var left := fuel;
    while hasMore && cursors != [] && left > 0
      invariant Crawl(Start, q, fetch, fuel) == Crawl(CursorRun(cursors, allMarkets, hasMore, requests), q, fetch, left)
      decreases left
    {
      ghost var before := CursorRun(cursors, allMarkets, hasMore, requests);
      cursors, allMarkets, hasMore, requests := Iterate(cursors, allMarkets, requests, q, fetch);
      assert Crawl(before, q, fetch, left) == Crawl(CursorRun(cursors, allMarkets, hasMore, requests), q, fetch, left - 1);
      left := left - 1;
    }
    markets := allMarkets;
    finished := !(hasMore && cursors != []);
    saved := if markets == [] then None else Some(SaveMarkets(existing, markets));
  }

  /** The results of two groups of requests, one after the other. */
  function Join(x: Harvested, y: Harvested): Harvested {
    Harvested(x.markets + y.markets, x.cursors + y.cursors)
  }

  /** Taking a result after a joined harvest is taking it after the second part. */
  lemma TakeJoin(x: Harvested, h: Harvested, answer: Option<Page>)
    ensures Take(Join(x, h), answer) == Join(x, Take(h, answer))
  {
    match answer
    case None =>
    case Some(page) =>
      assert x.markets + h.markets + page.markets == x.markets + (h.markets + page.markets);
      assert x.cursors + h.cursors + [page.next] == x.cursors + (h.cursors + [page.next]);
  }

  /** Requesting `a + b` yields `a`'s results followed by `b`'s. */
  lemma {:induction false} HarvestAppend(a: seq<Option<string>>, b: seq<Option<string>>, q: Query, fetch: Fetch)
    ensures Harvest(a + b, q, fetch) == Join(Harvest(a, q, fetch), Harvest(b, q, fetch))
    decreases |b|
  {
    var ha := Harvest(a, q, fetch);
    if b == [] {
      assert a + b == a;
      assert ha.markets + [] == ha.markets;
      assert ha.cursors + [] == ha.cursors;
    } else {
      var b' := b[..|b| - 1];
      var answer := Answer(b[|b| - 1], q, fetch);
      HarvestAppend(a, b', q, fetch);
      assert (a + b)[..|a + b| - 1] == a + b';
      assert (a + b)[|a + b| - 1] == b[|b| - 1];
      assert Harvest(a + b, q, fetch) == Take(Harvest(a + b', q, fetch), answer);
      TakeJoin(ha, Harvest(b', q, fetch), answer);
    }
  }

  /** A failed request contributes neither markets nor a cursor, whatever its position in the wave. */
  lemma FailedPageIgnored(a: seq<Option<string>>, c: Option<string>, b: seq<Option<string>>, q: Query, fetch: Fetch)
    requires Answer(c, q, fetch).None?
    ensures Harvest(a + [c] + b, q, fetch) == Harvest(a + b, q, fetch)
  {
    HarvestAppend(a + [c], b, q, fetch);
    HarvestAppend(a, [c], q, fetch);
    HarvestAppend(a, b, q, fetch);
    assert [c][..0] == [];
    assert Harvest(a, q, fetch).markets + [] == Harvest(a, q, fetch).markets;
    assert Harvest(a, q, fetch).cursors + [] == Harvest(a, q, fetch).cursors;
  }

  /** A wave that yields no market ends the run, even when cursors remain. */
  lemma EmptyWaveStops(s: CursorRun, q: Query, fetch: Fetch, fuel: nat)
    requires Running(s) && fuel > 0
    requires Harvest(s.frontier[..SliceStop(|s.frontier|, q.maxConcurrent)], q, fetch).markets == []
    ensures Crawl(s, q, fetch, fuel) == CursorWave(s, q, fetch)
    ensures Crawl(s, q, fetch, fuel).markets == s.markets
  {
  }

  /** A wave after which no cursor is pending ends the run, whatever it yielded. */
  lemma ExhaustedFrontierStops(s: CursorRun, q: Query, fetch: Fetch, fuel: nat)
    requires Running(s) && fuel > 0
    requires CursorWave(s, q, fetch).frontier == []
    ensures Crawl(s, q, fetch, fuel) == CursorWave(s, q, fetch)
    ensures !Crawl(s, q, fetch, fuel).hasMore
  {
    var f: nat := fuel - 1;
    assert Crawl(s, q, fetch, fuel) == Crawl(CursorWave(s, q, fetch), q, fetch, f);
  }

  /** The cursor the `i`-th request of a chain carries: none for the first. */
  function CursorAt(links: seq<string>, i: nat): Option<string> {
    if i == 0 || i - 1 >= |links| then None else Some(links[i - 1])
  }

  /** The next cursor the `i`-th page of a chain returns: none for the last. */
  function NextAfter(links: seq<string>, i: nat): Option<string> {
    if i < |links| then Some(links[i]) else None
  }

  /** The `i`-th request of a chain returns the `i`-th page and the link to the next. */
  predicate ChainLink(q: Query, fetch: Fetch, pages: seq<seq<KalshiMarket>>, links: seq<string>, i: nat)
    requires i < |pages|
  {
    && Answer(CursorAt(links, i), q, fetch) == Some(Page(pages[i], NextAfter(links, i)))
    && (i < |links| ==> links[i] != "" && pages[i] != [])
  }

  /** The venue answers a chain of pages linked by `links`, the last without a cursor. */
  predicate Chain(q: Query, fetch: Fetch, pages: seq<seq<KalshiMarket>>, links: seq<string>) {
    && |pages| == |links| + 1
    && (forall i :: 0 <= i < |pages| ==> ChainLink(q, fetch, pages, links, i))
  }

  /** A wave over a single pending cursor whose page succeeds. */
  lemma SingleCursorWave(c: Option<string>, ms: seq<KalshiMarket>, k: nat, q: Query, fetch: Fetch, page: Page)
    requires q.maxConcurrent >= 1 && Answer(c, q, fetch) == Some(page)
    ensures CursorWave(CursorRun([c], ms, true, k), q, fetch)
         == CursorRun(if Truthy(page.next) then [page.next] else [], ms + page.markets,
                      page.markets != [] && Truthy(page.next), k + 1)
  {
    assert [c][..0] == [] && [c][..1] == [c] && [c][1..] == [];
    assert Harvest([c], q, fetch) == Harvested(page.markets, if Truthy(page.next) then [page.next] else []);
  }

  /** One wave of a chain: the `k`-th page is collected and the run moves to the next link, or stops after the last. */
  lemma ChainStep(q: Query, fetch: Fetch, pages: seq<seq<KalshiMarket>>, links: seq<string>, k: nat)
    requires q.maxConcurrent >= 1 && Chain(q, fetch, pages, links) && k < |pages|
    ensures CursorWave(CursorRun([CursorAt(links, k)], Flatten(pages[..k]), true, k), q, fetch)
         == if k < |links| then CursorRun([CursorAt(links, k + 1)], Flatten(pages[..k + 1]), true, k + 1)
            else CursorRun([], Flatten(pages), false, |pages|)
  {
    var page := Page(pages[k], NextAfter(links, k));
    assert ChainLink(q, fetch, pages, links, k);
    SingleCursorWave(CursorAt(links, k), Flatten(pages[..k]), k, q, fetch, page);
    FlattenSnoc(pages, k);
    assert k == |links| ==> pages[..k + 1] == pages;
  }

  lemma {:induction false} CursorChainFrom(q: Query, fetch: Fetch, pages: seq<seq<KalshiMarket>>, links: seq<string>, k: nat, fuel: nat)
    requires q.maxConcurrent >= 1 && Chain(q, fetch, pages, links)
    requires k < |pages| && fuel >= |pages| - k
    ensures Crawl(CursorRun([CursorAt(links, k)], Flatten(pages[..k]), true, k), q, fetch, fuel)
         == CursorRun([], Flatten(pages), false, |pages|)
    decreases |pages| - k
  {
    var s := CursorRun([CursorAt(links, k)], Flatten(pages[..k]), true, k);
    ChainStep(q, fetch, pages, links, k);
    var w := CursorWave(s, q, fetch);
    var f: nat := fuel - 1;
    assert Crawl(s, q, fetch, fuel) == Crawl(w, q, fetch, f);
    if k < |links| {
      assert w == CursorRun([CursorAt(links, k + 1)], Flatten(pages[..k + 1]), true, k + 1);
      CursorChainFrom(q, fetch, pages, links, k + 1, f);
    } else {
      assert w == CursorRun([], Flatten(pages), false, |pages|);
    }
  }

  /**
   * With at least one request per wave, a chain of `n` pages each naming the next,
   * ended by a page without a cursor, is collected in exactly `n` requests,
   * and the run returns their markets in order.
   */
  lemma CursorChainCollected(q: Query, fetch: Fetch, pages: seq<seq<KalshiMarket>>, links: seq<string>, fuel: nat)
    requires q.maxConcurrent >= 1 && Chain(q, fetch, pages, links)
    requires fuel >= |pages|
    ensures Crawl(Start, q, fetch, fuel) == CursorRun([], Flatten(pages), false, |pages|)
  {
    assert pages[..0] == [];
    CursorChainFrom(q, fetch, pages, links, 0, fuel);
  }

  /** A wave over at most one pending cursor leaves at most one pending. */
  lemma WaveKeepsOne(s: CursorRun, q: Query, fetch: Fetch)
    requires Running(s) && q.maxConcurrent >= 1 && |s.frontier| <= 1
    ensures |CursorWave(s, q, fetch).frontier| <= 1
  {
    var taken := SliceStop(|s.frontier|, q.maxConcurrent);
    assert taken == |s.frontier|;
    assert s.frontier[taken..] == [];
  }

  lemma {:induction false} FrontierStaysSmall(s: CursorRun, q: Query, fetch: Fetch, fuel: nat)
    requires q.maxConcurrent >= 1 && |s.frontier| <= 1
    ensures |Crawl(s, q, fetch, fuel).frontier| <= 1
    decreases fuel
  {
    if Running(s) && fuel > 0 {
      WaveKeepsOne(s, q, fetch);
      var w := CursorWave(s, q, fetch);
      var f: nat := fuel - 1;
      assert Crawl(s, q, fetch, fuel) == Crawl(w, q, fetch, f);
      FrontierStaysSmall(w, q, fetch, f);
    }
  }

  /**
   * From the single starting request, at most one cursor is ever pending:
   * each page names at most one next page, so every wave takes the whole
   * frontier and `max_concurrent` never limits a wave.
   */
  lemma FrontierAtMostOne(q: Query, fetch: Fetch, fuel: nat)
    requires q.maxConcurrent >= 1
    ensures var r := Crawl(Start, q, fetch, fuel);
      |r.frontier| <= 1 && SliceStop(|r.frontier|, q.maxConcurrent) == |r.frontier|
  {
    FrontierStaysSmall(Start, q, fetch, fuel);
  }

  /** Saving the same markets twice stores the same snapshot as saving them once. */
  lemma SaveMarketsIdempotent(existing: seq<KalshiMarket>, markets: seq<KalshiMarket>)
    ensures SaveMarkets(SaveMarkets(existing, markets), markets) == SaveMarkets(existing, markets)
  {
    MergeIdempotent(existing, markets, TickerKey);
  }

  /** A stored snapshot with distinct tickers is kept whole at the front: on a shared ticker the stored record wins. */
  lemma SaveKeepsStored(existing: seq<KalshiMarket>, markets: seq<KalshiMarket>)
    requires KeysDistinct(existing, TickerKey)
    ensures |existing| <= |SaveMarkets(existing, markets)|
    ensures SaveMarkets(existing, markets)[..|existing|] == existing
  {
    MergeKeepsExisting(existing, markets, TickerKey, |markets|);
    assert markets[..|markets|] == markets;
  }
}
