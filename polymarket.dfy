/**
 * Polymarket collection (data/polymarket.py): the query parameters of one
 * page, the default for the start-date filter, the offset-wave loop of
 * `fetch_markets` and the whole-record merge of `_save_markets`. The HTTP
 * request is an oracle from query parameters to a response; rate limiting
 * is left out and the concurrent requests of a wave are evaluated in task
 * order, the order `asyncio.gather` returns their results in.
 */
module PolymarketData {
  import opened Wrappers
  import opened Records
  import opened Dedup
  import opened Seqs

  const DefaultLimit: int := 500
  const DefaultMaxConcurrent: int := 5

  /** The filters of one collection run, passed unchanged to every page request. */
  datatype Filters = Filters(
    activeOnly: bool,
    closed: bool,
    startDateMin: Option<string>,
    startDateMax: Option<string>,
    volumeNumMin: Option<real>,
    liquidityNumMin: Option<real>)

  const DefaultFilters: Filters := Filters(true, false, None, None, None, None)

  /** The query parameters a page request may carry. */
  datatype Param = Limit | Offset | Active | Closed | StartDateMin | StartDateMax | VolumeNumMin | LiquidityNumMin

  /** The name of a parameter in the query string. */
  function WireName(p: Param): string {
    match p
    case Limit => "limit"
    case Offset => "offset"
    case Active => "active"
    case Closed => "closed"
    case StartDateMin => "start_date_min"
    case StartDateMax => "start_date_max"
    case VolumeNumMin => "volume_num_min"
    case LiquidityNumMin => "liquidity_num_min"
  }

  /** Distinct parameters go out under distinct names, so a dictionary keyed by `Param` is one keyed by name. */
  lemma WireNamesDistinct()
    ensures forall a: Param, b: Param :: a != b ==> WireName(a) != WireName(b)
  {
  }

  /** The query parameters of one page request (a Python dict). */
  type Params = map<Param, ParamValue>

  /**
   * Whether `_fetch_markets_page` sends parameter `k`: the page window
   * always; the active and closed flags when they select (active markets,
   * open markets); a start date when it is a non-empty string; a numeric
   * minimum whenever it is given, zero included.
   */
  predicate Sent(k: Param, f: Filters) {
    match k
    case Limit => true
    case Offset => true
    case Active => f.activeOnly
    case Closed => !f.closed
    case StartDateMin => Truthy(f.startDateMin)
    case StartDateMax => Truthy(f.startDateMax)
    case VolumeNumMin => f.volumeNumMin.Some?
    case LiquidityNumMin => f.liquidityNumMin.Some?
  }

  /** The value sent for parameter `k`. */
  function ValueOf(k: Param, limit: int, offset: int, f: Filters): ParamValue
    requires Sent(k, f)
  {
    match k
    case Limit => IntParam(limit)
    case Offset => IntParam(offset)
    case Active => TextParam("true")
    case Closed => TextParam("false")
    case StartDateMin => TextParam(f.startDateMin.value)
    case StartDateMax => TextParam(f.startDateMax.value)
    case VolumeNumMin => RealParam(f.volumeNumMin.value)
    case LiquidityNumMin => RealParam(f.liquidityNumMin.value)
  }

  /** The query parameters of `_fetch_markets_page`. */
  function PageParams(limit: int, offset: int, f: Filters): (p: Params)
    ensures forall k :: k in p <==> Sent(k, f)
    ensures forall k :: k in p ==> p[k] == ValueOf(k, limit, offset, f)
  {
    map k: Param | Sent(k, f) :: ValueOf(k, limit, offset, f)
  }

  /** The first request of a run with every default: 500 active, open markets from offset 0. */
  lemma DefaultFirstRequest()
    ensures PageParams(DefaultLimit, 0, DefaultFilters)
         == map[Limit := IntParam(500), Offset := IntParam(0), Active := TextParam("true"), Closed := TextParam("false")]
  {
    var p := map[Limit := IntParam(500), Offset := IntParam(0), Active := TextParam("true"), Closed := TextParam("false")];
    forall k: Param | Sent(k, DefaultFilters) ensures k in p && p[k] == ValueOf(k, DefaultLimit, 0, DefaultFilters) {
    }
    ParamsAgree(p, DefaultLimit, 0, DefaultFilters);
  }

  /** A dictionary that holds exactly the parameters `PageParams` sends, with their values, is `PageParams`. */
  lemma ParamsAgree(p: Params, limit: int, offset: int, f: Filters)
    requires forall k :: Sent(k, f) ==> k in p && p[k] == ValueOf(k, limit, offset, f)
    requires forall k :: !Sent(k, f) ==> k !in p
    ensures p == PageParams(limit, offset, f)
  {
  }

  /** The dictionary as `_fetch_markets_page` builds it, one conditional insert at a time. */
  method BuildPageParams(limit: int, offset: int, f: Filters) returns (params: Params)
    ensures params == PageParams(limit, offset, f)
  {
    params := map[Limit := IntParam(limit), Offset := IntParam(offset)];
    params := if f.activeOnly then params[Active := TextParam("true")] else params;
    params := if !f.closed then params[Closed := TextParam("false")] else params;
    params := if Truthy(f.startDateMin) then params[StartDateMin := TextParam(f.startDateMin.value)] else params;
    params := if Truthy(f.startDateMax) then params[StartDateMax := TextParam(f.startDateMax.value)] else params;
    params := if f.volumeNumMin.Some? then params[VolumeNumMin := RealParam(f.volumeNumMin.value)] else params;
    params := if f.liquidityNumMin.Some? then params[LiquidityNumMin := RealParam(f.liquidityNumMin.value)] else params;
    forall k: Param | Sent(k, f) ensures k in params && params[k] == ValueOf(k, limit, offset, f) {
      match k
      case Limit =>
      case Offset =>
      case Active =>
      case Closed =>
      case StartDateMin =>
      case StartDateMax =>
      case VolumeNumMin =>
      case LiquidityNumMin =>
    }
    forall k: Param | !Sent(k, f) ensures k !in params {
      match k
      case Limit =>
      case Offset =>
      case Active =>
      case Closed =>
      case StartDateMin =>
      case StartDateMax =>
      case VolumeNumMin =>
      case LiquidityNumMin =>
    }
    ParamsAgree(params, limit, offset, f);
  }

  /**
   * The filters a run actually uses: an empty or absent `start_date_min`
   * falls back to the latest start date of the stored snapshot, when there
   * is one; every other filter is kept.
   */
  function EffectiveFilters(f: Filters, storedMaxStart: Option<string>): (r: Filters)
    ensures Truthy(f.startDateMin) ==> r == f
    ensures !Truthy(storedMaxStart) ==> r == f
    ensures !Truthy(f.startDateMin) && Truthy(storedMaxStart) ==> r == f.(startDateMin := storedMaxStart)
    ensures Truthy(r.startDateMin) <==> Truthy(f.startDateMin) || Truthy(storedMaxStart)
  {
    if !Truthy(f.startDateMin) && Truthy(storedMaxStart) then f.(startDateMin := storedMaxStart) else f
  }

  /** What one page request yields. */
  datatype PageResponse =
    | RequestFailed          // transport error, non-2xx status, or a body without a length
    | ListBody(markets: seq<PolyMarket>)
    | OtherBody              // a JSON object or string: returned, then ignored as not a list

  /** The page request as an oracle. */
  type Fetch = Params -> PageResponse

  /** The settings of one collection run. */
  datatype Settings = Settings(filters: Filters, limit: int, maxConcurrent: int)

  /** The answer to the page request at `offset`. */
  function Answer(offset: int, st: Settings, fetch: Fetch): PageResponse {
    fetch(PageParams(st.limit, offset, st.filters))
  }

  /** The offsets one wave requests, starting at `offset`: `range(max_concurrent)` pages of `limit` each. */
  function WaveOffsets(offset: int, st: Settings): (r: seq<int>)
    ensures |r| == if st.maxConcurrent > 0 then st.maxConcurrent else 0
    ensures forall i :: 0 <= i < |r| ==> r[i] == offset + i * st.limit
  {
    seq(if st.maxConcurrent > 0 then st.maxConcurrent else 0, i => offset + i * st.limit)
  }

  /** A list shorter than a full page: the venue has nothing beyond it. */
  predicate IsShort(resp: PageResponse, limit: int) {
    resp.ListBody? && |resp.markets| < limit
  }

  /** A list that contributes markets. */
  predicate Yields(resp: PageResponse) {
    resp.ListBody? && resp.markets != []
  }

  /** What the results of a wave add: the markets of its non-empty lists, and whether any list was short. */
  datatype Gathered = Gathered(markets: seq<PolyMarket>, anyShort: bool)

  /** One more result of a wave: a non-empty list adds its markets, any list shorter than `limit` marks the wave short. */
  function Absorb(g: Gathered, resp: PageResponse, limit: int): Gathered {
    Gathered(if Yields(resp) then g.markets + resp.markets else g.markets, g.anyShort || IsShort(resp, limit))
  }

  /** The results of requesting `offsets`, taken in task order. */
  function Gather(offsets: seq<int>, st: Settings, fetch: Fetch): Gathered {
    if offsets == [] then Gathered([], false)
    else Absorb(Gather(offsets[..|offsets| - 1], st, fetch), Answer(offsets[|offsets| - 1], st, fetch), st.limit)
  }

  lemma GatherSnoc(offsets: seq<int>, t: nat, st: Settings, fetch: Fetch)
    requires 0 < t <= |offsets|
    ensures Gather(offsets[..t], st, fetch)
         == Absorb(Gather(offsets[..t - 1], st, fetch), Answer(offsets[t - 1], st, fetch), st.limit)
  {
    assert offsets[..t][..t - 1] == offsets[..t - 1];
  }

  lemma AbsorbList(g: Gathered, ms: seq<PolyMarket>, limit: int)
    ensures Absorb(g, ListBody(ms), limit) == Gathered(g.markets + ms, g.anyShort || |ms| < limit)
  {
    if ms == [] {
      assert g.markets + ms == g.markets;
    }
  }

  /**
   * What a wave's gathered results mean: a short list was among the answers
   * exactly when `anyShort`, and no market was gathered exactly when no
   * answer was a non-empty list.
   */
  lemma {:induction false} GatherMeaning(offsets: seq<int>, st: Settings, fetch: Fetch)
    ensures var r := Gather(offsets, st, fetch);
      && (r.anyShort <==> exists i :: 0 <= i < |offsets| && IsShort(Answer(offsets[i], st, fetch), st.limit))
      && (r.markets == [] <==> forall i :: 0 <= i < |offsets| ==> !Yields(Answer(offsets[i], st, fetch)))
  {
    if offsets != [] {
      var init := offsets[..|offsets| - 1];
      GatherMeaning(init, st, fetch);
      assert forall i :: 0 <= i < |init| ==> init[i] == offsets[i];
    }
  }

  /** One collection run's loop state. `requests` counts the page requests issued. */
  datatype OffsetRun = OffsetRun(offset: int, markets: seq<PolyMarket>, hasMore: bool, requests: nat)

  /**
   * One iteration of the `while` loop of `fetch_markets`: a wave that yields
   * no market ends the run where it is; otherwise its markets are kept, the
   * offset moves past every page requested, and a short list ends the run.
   */
  function OffsetWave(s: OffsetRun, st: Settings, fetch: Fetch): (r: OffsetRun)
    requires s.hasMore
  {
    var offsets := WaveOffsets(s.offset, st);
    var g := Gather(offsets, st, fetch);
    if g.markets == [] then OffsetRun(s.offset, s.markets, false, s.requests + |offsets|)
    else OffsetRun(s.offset + |offsets| * st.limit, s.markets + g.markets, !g.anyShort, s.requests + |offsets|)
  }

  /** The loop run for at most `fuel` iterations. */
  function Crawl(s: OffsetRun, st: Settings, fetch: Fetch, fuel: nat): OffsetRun
    decreases fuel
  {
    if !s.hasMore || fuel == 0 then s
    else Crawl(OffsetWave(s, st, fetch), st, fetch, fuel - 1)
  }

  /** The run only appends to the markets collected so far and only adds requests; a stopped run stays put. */
  lemma {:induction false} CrawlGrows(s: OffsetRun, st: Settings, fetch: Fetch, fuel: nat)
    ensures var r := Crawl(s, st, fetch, fuel);
      && |s.markets| <= |r.markets| && r.markets[..|s.markets|] == s.markets
      && s.requests <= r.requests
      && (!s.hasMore ==> r == s)
    decreases fuel
  {
    if s.hasMore && fuel > 0 {
      var w := OffsetWave(s, st, fetch);
      CrawlGrows(w, st, fetch, fuel - 1);
      var r := Crawl(w, st, fetch, fuel - 1);
      assert r.markets[..|s.markets|] == r.markets[..|w.markets|][..|s.markets|];
    }
  }

  /** The state before the first iteration. */
  const Start: OffsetRun := OffsetRun(0, [], true, 0)

  /** The whole record is its own identity: `DataFrame.unique` compares every column. */
  function Whole(m: PolyMarket): PolyMarket {
    m
  }

  /**
   * `_save_markets`: the stored snapshot followed by the new markets, with
   * every repeated record dropped after its first appearance.
   */
  function SaveMarkets(existing: seq<PolyMarket>, markets: seq<PolyMarket>): (r: seq<PolyMarket>)
    ensures forall i, j :: 0 <= i < j < |r| ==> r[i] != r[j]
    ensures forall m :: m in r <==> m in existing + markets
    ensures r == Firsts(existing + markets, Whole, |existing + markets|)
  {
    var r := Merge(existing, markets, Whole);
    SameRecords(r, existing + markets);
    r
  }

  /** Two sequences with the same whole-record key set hold the same records. */
  lemma SameRecords(a: seq<PolyMarket>, b: seq<PolyMarket>)
    requires KeySet(a, Whole) == KeySet(b, Whole)
    ensures forall m :: m in a <==> m in b
  {
    forall m | m in a ensures m in b {
      var i :| 0 <= i < |a| && a[i] == m;
      assert Whole(a[i]) in KeySet(a, Whole);
    }
    forall m | m in b ensures m in a {
      var i :| 0 <= i < |b| && b[i] == m;
      assert Whole(b[i]) in KeySet(b, Whole);
    }
  }

  /** The body of one iteration: request every page of the wave and gather the lists. */
  method RunWave(offset: int, st: Settings, fetch: Fetch)
    returns (count: nat, newMarkets: seq<PolyMarket>, anyShort: bool)
    ensures count == |WaveOffsets(offset, st)|
    ensures Gather(WaveOffsets(offset, st), st, fetch) == Gathered(newMarkets, anyShort)
  {
    ghost var offsets := WaveOffsets(offset, st);
    count := if st.maxConcurrent > 0 then st.maxConcurrent else 0;
    newMarkets := [];
    anyShort := false;
    for i := 0 to count
      invariant Gather(offsets[..i], st, fetch) == Gathered(newMarkets, anyShort)
    {
      assert offsets[..i + 1][..i] == offsets[..i];
      var params := BuildPageParams(st.limit, offset + i * st.limit, st.filters);
      var result := fetch(params);
      if result.ListBody? && result.markets != [] {
        newMarkets := newMarkets + result.markets;
      }
      if result.ListBody? && |result.markets| < st.limit {
        anyShort := true;
      }
    }
    assert offsets[..count] == offsets;
  }

  /** The `while` loop of `fetch_markets`, bounded by `fuel` iterations; `finished` says it ended by its own condition. */
  method Collect(st: Settings, fetch: Fetch, fuel: nat) returns (markets: seq<PolyMarket>, finished: bool)
    ensures markets == Crawl(Start, st, fetch, fuel).markets
    ensures finished <==> !Crawl(Start, st, fetch, fuel).hasMore
  {
    var allMarkets: seq<PolyMarket> := [];
    var currentOffset := 0;
    var hasMore := true;
    ghost var requests: nat := 0;
    var left := fuel;
    while hasMore && left > 0
      invariant Crawl(Start, st, fetch, fuel) == Crawl(OffsetRun(currentOffset, allMarkets, hasMore, requests), st, fetch, left)
      decreases left
    {
      ghost var before := OffsetRun(currentOffset, allMarkets, hasMore, requests);
      var count, newMarkets, anyShort := RunWave(currentOffset, st, fetch);
      WaveOutcome(before, st, fetch, Gathered(newMarkets, anyShort));
      if newMarkets == [] {
        hasMore := false;
      } else {
        allMarkets := allMarkets + newMarkets;
        currentOffset := currentOffset + count * st.limit;
        if anyShort {
          hasMore := false;
        }
      }
      requests := requests + count;
      ghost var after := OffsetRun(currentOffset, allMarkets, hasMore, requests);
      assert OffsetWave(before, st, fetch) == after;
      assert Crawl(before, st, fetch, left) == Crawl(after, st, fetch, left - 1);
      left := left - 1;
    }
    markets := allMarkets;
    finished := !hasMore;
  }

  /**
   * `fetch_markets`: the start-date default, the loop (bounded by `fuel`
   * iterations), and the save. The stored snapshot `existing` and its
   * latest start date are inputs; `saved` is the snapshot written, if any.
   */
  method FetchMarkets(existing: seq<PolyMarket>, storedMaxStart: Option<string>, fetch: Fetch, fuel: nat,
                      filters: Filters := DefaultFilters, limit: int := DefaultLimit,
                      maxConcurrent: int := DefaultMaxConcurrent)
    returns (markets: seq<PolyMarket>, saved: Option<seq<PolyMarket>>, finished: bool)
    ensures var st := Settings(EffectiveFilters(filters, storedMaxStart), limit, maxConcurrent);
      && markets == Crawl(Start, st, fetch, fuel).markets
      && (finished <==> !Crawl(Start, st, fetch, fuel).hasMore)
    ensures saved == if markets == [] then None else Some(SaveMarkets(existing, markets))
  {
    var startDateMin := filters.startDateMin;
    if !Truthy(startDateMin) && Truthy(storedMaxStart) {
      startDateMin := storedMaxStart;
    }
    var st := Settings(filters.(startDateMin := startDateMin), limit, maxConcurrent);
    assert st.filters == EffectiveFilters(filters, storedMaxStart);
    markets, finished := Collect(st, fetch, fuel);
    saved := if markets == [] then None else Some(SaveMarkets(existing, markets));
  }

  /** Requesting `a + b` yields `a`'s results followed by `b`'s. */
  lemma {:induction false} GatherAppend(a: seq<int>, b: seq<int>, st: Settings, fetch: Fetch)
    ensures Gather(a + b, st, fetch)
         == Gathered(Gather(a, st, fetch).markets + Gather(b, st, fetch).markets,
                     Gather(a, st, fetch).anyShort || Gather(b, st, fetch).anyShort)
  {
    if b == [] {
      assert a + b == a;
      assert Gather(a, st, fetch).markets + [] == Gather(a, st, fetch).markets;
    } else {
      var b' := b[..|b| - 1];
      GatherAppend(a, b', st, fetch);
      assert (a + b)[..|a + b| - 1] == a + b';
      assert (a + b)[|a + b| - 1] == b[|b| - 1];
      var ga, gb := Gather(a, st, fetch), Gather(b', st, fetch);
      var resp := Answer(b[|b| - 1], st, fetch);
      if Yields(resp) {
        assert ga.markets + gb.markets + resp.markets == ga.markets + (gb.markets + resp.markets);
      }
    }
  }

  /** A failed request, or a body that is not a list, contributes nothing, whatever its position in the wave. */
  lemma NonListIgnored(a: seq<int>, o: int, b: seq<int>, st: Settings, fetch: Fetch)
    requires !Answer(o, st, fetch).ListBody?
    ensures Gather(a + [o] + b, st, fetch) == Gather(a + b, st, fetch)
  {
    GatherAppend(a + [o], b, st, fetch);
    GatherAppend(a, [o], st, fetch);
    GatherAppend(a, b, st, fetch);
    assert [o][..0] == [];
    assert Gather(a, st, fetch).markets + [] == Gather(a, st, fetch).markets;
  }

  /** A wave whose pages all yield nothing ends the run: no markets are added and the offset stays. */
  lemma EmptyWaveStops(s: OffsetRun, st: Settings, fetch: Fetch, fuel: nat)
    requires s.hasMore && fuel > 0
    requires forall o :: o in WaveOffsets(s.offset, st) ==> !Yields(Answer(o, st, fetch))
    ensures Crawl(s, st, fetch, fuel)
         == OffsetRun(s.offset, s.markets, false, s.requests + |WaveOffsets(s.offset, st)|)
  {
    var offsets := WaveOffsets(s.offset, st);
    assert forall i :: 0 <= i < |offsets| ==> offsets[i] in offsets;
    GatherMeaning(offsets, st, fetch);
    assert Gather(offsets, st, fetch).markets == [];
  }

  /**
   * A wave in which some page is a list shorter than `limit`, an empty one
   * included, ends the run: the wave's markets are kept, and the offset
   * moves past the wave unless the wave yielded nothing.
   */
  lemma ShortPageStops(s: OffsetRun, st: Settings, fetch: Fetch, i: nat, fuel: nat)
    requires s.hasMore && fuel > 0
    requires i < |WaveOffsets(s.offset, st)|
    requires IsShort(Answer(s.offset + i * st.limit, st, fetch), st.limit)
    ensures var r, offsets := Crawl(s, st, fetch, fuel), WaveOffsets(s.offset, st);
      && !r.hasMore
      && r.markets == s.markets + Gather(offsets, st, fetch).markets
      && r.offset == (if Gather(offsets, st, fetch).markets == [] then s.offset else s.offset + |offsets| * st.limit)
      && r.requests == s.requests + |offsets|
  {
    var offsets := WaveOffsets(s.offset, st);
    assert offsets[i] == s.offset + i * st.limit;
    GatherMeaning(offsets, st, fetch);
    var g := Gather(offsets, st, fetch);
    assert g.anyShort;
    WaveOutcome(s, st, fetch, g);
    if g.markets == [] {
      assert s.markets + g.markets == s.markets;
    }
  }

  /** A wave whose pages are all full lists of `limit >= 1` markets keeps going from the next unrequested offset. */
  lemma FullWaveAdvances(s: OffsetRun, st: Settings, fetch: Fetch)
    requires s.hasMore && st.limit >= 1 && st.maxConcurrent >= 1
    requires forall o :: o in WaveOffsets(s.offset, st) ==>
      Answer(o, st, fetch).ListBody? && |Answer(o, st, fetch).markets| == st.limit
    ensures var r := OffsetWave(s, st, fetch);
      && r.hasMore
      && r.offset == s.offset + st.maxConcurrent * st.limit
      && r.markets == s.markets + Gather(WaveOffsets(s.offset, st), st, fetch).markets
      && r.requests == s.requests + st.maxConcurrent
  {
    var offsets := WaveOffsets(s.offset, st);
    assert offsets[0] in offsets;
    GatherMeaning(offsets, st, fetch);
    assert Gather(offsets, st, fetch).markets != [];
    forall i | 0 <= i < |offsets| ensures !IsShort(Answer(offsets[i], st, fetch), st.limit) {
      assert offsets[i] in offsets;
    }
  }

  /** The `j`-th request at offset `j * limit` is answered by the list `pages[j]`. */
  predicate PageServed(st: Settings, fetch: Fetch, pages: seq<seq<PolyMarket>>, j: nat)
    requires j < |pages|
  {
    Answer(j * st.limit, st, fetch) == ListBody(pages[j])
  }

  /** Every page of `pages` is served at its offset. */
  predicate Serves(st: Settings, fetch: Fetch, pages: seq<seq<PolyMarket>>) {
    forall j :: 0 <= j < |pages| ==> PageServed(st, fetch, pages, j)
  }

  /**
   * The venue lays out `pages` from offset 0 in `waves` waves of
   * `max_concurrent` pages: every page before the last wave is full, and
   * the last wave holds a short page.
   */
  predicate Paged(st: Settings, fetch: Fetch, pages: seq<seq<PolyMarket>>, waves: nat) {
    && st.limit >= 1 && st.maxConcurrent >= 1 && waves >= 1
    && |pages| == waves * st.maxConcurrent
    && Serves(st, fetch, pages)
    && FullBetween(pages, 0, |pages| - st.maxConcurrent, st.limit)
    && ShortBetween(pages, |pages| - st.maxConcurrent, |pages|, st.limit)
  }

  /** Every page of `pages[lo..hi]` is full. */
  predicate FullBetween(pages: seq<seq<PolyMarket>>, lo: nat, hi: int, limit: int)
    requires hi <= |pages|
  {
    forall j :: lo <= j < hi ==> |pages[j]| == limit
  }

  /** Some page of `pages[lo..hi]` is short. */
  predicate ShortBetween(pages: seq<seq<PolyMarket>>, lo: int, hi: nat, limit: int)
    requires hi <= |pages|
  {
    exists j :: 0 <= lo <= j < hi && |pages[j]| < limit
  }

  /** What a wave gathers when its requests are answered, in order, by the lists `ws`. */
  function Summary(ws: seq<seq<PolyMarket>>, limit: int): Gathered {
    if ws == [] then Gathered([], false)
    else Absorb(Summary(ws[..|ws| - 1], limit), ListBody(ws[|ws| - 1]), limit)
  }

  /** Answered by lists, a wave gathers their concatenation, and has a short page iff one list is short. */
  lemma {:induction false} SummaryMeaning(ws: seq<seq<PolyMarket>>, limit: int)
    ensures Summary(ws, limit).markets == Flatten(ws)
    ensures Summary(ws, limit).anyShort <==> exists j :: 0 <= j < |ws| && |ws[j]| < limit
  {
    if ws != [] {
      var p := ws[..|ws| - 1];
      SummaryMeaning(p, limit);
      AbsorbList(Summary(p, limit), ws[|ws| - 1], limit);
      if exists j :: 0 <= j < |p| && |p[j]| < limit {
        var j :| 0 <= j < |p| && |p[j]| < limit;
        assert ws[j] == p[j];
      }
      if exists j :: 0 <= j < |ws| && |ws[j]| < limit {
        var j :| 0 <= j < |ws| && |ws[j]| < limit;
        if j < |p| {
          assert p[j] == ws[j];
        }
      }
    }
  }

  /** The first `t` requests of the wave starting at page `b` gather pages `b` to `b + t`. */
  lemma {:induction false} GatherPages(st: Settings, fetch: Fetch, pages: seq<seq<PolyMarket>>, b: nat, t: nat)
    requires Serves(st, fetch, pages)
    requires t <= |WaveOffsets(b * st.limit, st)| && b + t <= |pages|
    ensures Gather(WaveOffsets(b * st.limit, st)[..t], st, fetch) == Summary(pages[b..b + t], st.limit)
  {
    var offsets := WaveOffsets(b * st.limit, st);
    if t == 0 {
      assert offsets[..0] == [];
      assert pages[b..b] == [];
    } else {
      var k := b + t - 1;
      GatherPages(st, fetch, pages, b, t - 1);
      GatherSnoc(offsets, t, st, fetch);
      Distributes(b, t - 1, st.limit);
      assert offsets[t - 1] == k * st.limit;
      assert PageServed(st, fetch, pages, k);
      var ws := pages[b..b + t];
      assert ws[..t - 1] == pages[b..k] && ws[t - 1] == pages[k];
    }
  }

  /** The run state at page `b`, every page before it gathered. */
  function AfterPages(st: Settings, pages: seq<seq<PolyMarket>>, b: nat): OffsetRun
    requires b <= |pages|
  {
    OffsetRun(b * st.limit, Flatten(pages[..b]), true, b)
  }

  lemma Distributes(a: int, c: int, l: int)
    ensures (a + c) * l == a * l + c * l
  {
  }

  /** `k` waves of `m` pages lie between page `b` and the end of `pages`. */
  predicate Remaining(pages: seq<seq<PolyMarket>>, b: nat, k: nat, m: nat) {
    b + k * m == |pages|
  }

  lemma RemainingStep(pages: seq<seq<PolyMarket>>, b: nat, k: nat, m: nat)
    requires Remaining(pages, b, k, m) && k >= 1 && m >= 1
    ensures b + m <= |pages|
    ensures k == 1 ==> b + m == |pages|
    ensures k >= 2 ==> b + m + m <= |pages| && Remaining(pages, b + m, k - 1, m)
  {
    assert k * m == (k - 1) * m + m;
    assert k >= 2 ==> (k - 1) * m >= m;
  }

  /** A wave of full pages gathers its pages, at least one market, and no short page. */
  lemma FullPagesWave(st: Settings, fetch: Fetch, pages: seq<seq<PolyMarket>>, b: nat)
    requires Serves(st, fetch, pages) && st.limit >= 1 && st.maxConcurrent >= 1
    requires b + st.maxConcurrent <= |pages| && FullBetween(pages, b, b + st.maxConcurrent, st.limit)
    ensures var wave := pages[b..b + st.maxConcurrent];
      Gather(WaveOffsets(b * st.limit, st), st, fetch) == Gathered(Flatten(wave), false) && Flatten(wave) != []
  {
    var wave := pages[b..b + st.maxConcurrent];
    WholeWave(st, fetch, pages, b);
    SummaryMeaning(wave, st.limit);
    assert forall j :: 0 <= j < |wave| ==> |wave[j]| == st.limit by {
      forall j | 0 <= j < |wave| ensures |wave[j]| == st.limit {
        assert wave[j] == pages[b + j];
      }
    }
    FlattenConcat(wave[..1], wave[1..]);
    assert wave[..1] + wave[1..] == wave;
    assert wave[..1][..0] == [];
    assert Flatten(wave[..1]) == wave[0];
  }

  /** A wave of full pages moves on by `max_concurrent` pages. */
  lemma FullWave(st: Settings, fetch: Fetch, pages: seq<seq<PolyMarket>>, b: nat)
    requires Serves(st, fetch, pages) && st.limit >= 1 && st.maxConcurrent >= 1
    requires b + st.maxConcurrent <= |pages| && FullBetween(pages, b, b + st.maxConcurrent, st.limit)
    ensures OffsetWave(AfterPages(st, pages, b), st, fetch) == AfterPages(st, pages, b + st.maxConcurrent)
  {
    var m := st.maxConcurrent;
    var s := AfterPages(st, pages, b);
    FullPagesWave(st, fetch, pages, b);
    WaveOutcome(s, st, fetch, Gathered(Flatten(pages[b..b + m]), false));
    assert |WaveOffsets(s.offset, st)| == m;
    FlattenSplit(pages, b, b + m);
    Distributes(b, m, st.limit);
  }

  /** A wave holding a short page gathers its pages and reports the short page. */
  lemma ShortWave(st: Settings, fetch: Fetch, pages: seq<seq<PolyMarket>>, b: nat)
    requires Serves(st, fetch, pages) && st.maxConcurrent >= 1
    requires b + st.maxConcurrent == |pages| && ShortBetween(pages, b, |pages|, st.limit)
    ensures Gather(WaveOffsets(b * st.limit, st), st, fetch) == Gathered(Flatten(pages[b..|pages|]), true)
  {
    var wave := pages[b..|pages|];
    WholeWave(st, fetch, pages, b);
    SummaryMeaning(wave, st.limit);
    var j :| 0 <= b <= j < |pages| && |pages[j]| < st.limit;
    assert wave[j - b] == pages[j];
  }

  /** A last wave holding a short page gathers its pages and ends the run. */
  lemma LastWave(st: Settings, fetch: Fetch, pages: seq<seq<PolyMarket>>, b: nat)
    requires Serves(st, fetch, pages) && st.maxConcurrent >= 1
    requires b + st.maxConcurrent == |pages| && ShortBetween(pages, b, |pages|, st.limit)
    ensures var r := OffsetWave(AfterPages(st, pages, b), st, fetch);
      r.markets == Flatten(pages) && !r.hasMore && r.requests == |pages|
  {
    var s := AfterPages(st, pages, b);
    var g := Gathered(Flatten(pages[b..|pages|]), true);
    ShortWave(st, fetch, pages, b);
    WaveOutcome(s, st, fetch, g);
    assert |WaveOffsets(s.offset, st)| == st.maxConcurrent;
    FlattenSplit(pages, b, |pages|);
    assert pages[..|pages|] == pages;
    assert Flatten(pages) == Flatten(pages[..b]) + g.markets;
    if g.markets == [] {
      assert Flatten(pages[..b]) + [] == Flatten(pages[..b]);
    }
  }

  /** A wave's outcome in terms of what it gathered. */
  lemma WaveOutcome(s: OffsetRun, st: Settings, fetch: Fetch, g: Gathered)
    requires s.hasMore && Gather(WaveOffsets(s.offset, st), st, fetch) == g
    ensures var n := |WaveOffsets(s.offset, st)|;
      OffsetWave(s, st, fetch)
      == if g.markets == [] then OffsetRun(s.offset, s.markets, false, s.requests + n)
         else OffsetRun(s.offset + n * st.limit, s.markets + g.markets, !g.anyShort, s.requests + n)
  {
  }

  /** The wave starting at page `b` gathers pages `b` to `b + max_concurrent`. */
  lemma WholeWave(st: Settings, fetch: Fetch, pages: seq<seq<PolyMarket>>, b: nat)
    requires Serves(st, fetch, pages) && st.maxConcurrent >= 1 && b + st.maxConcurrent <= |pages|
    ensures Gather(WaveOffsets(b * st.limit, st), st, fetch) == Summary(pages[b..b + st.maxConcurrent], st.limit)
  {
    var m := st.maxConcurrent;
    GatherPages(st, fetch, pages, b, m);
    assert WaveOffsets(b * st.limit, st)[..m] == WaveOffsets(b * st.limit, st);
  }

  /** With `k` waves left from page `b`, the run goes on to gather everything and stop. */
  lemma {:induction false} PagedFrom(st: Settings, fetch: Fetch, pages: seq<seq<PolyMarket>>, b: nat, k: nat, fuel: nat)
    requires Serves(st, fetch, pages) && st.limit >= 1 && st.maxConcurrent >= 1
    requires k >= 1 && fuel >= k && Remaining(pages, b, k, st.maxConcurrent)
    requires st.maxConcurrent <= |pages| && FullBetween(pages, b, |pages| - st.maxConcurrent, st.limit)
    requires ShortBetween(pages, |pages| - st.maxConcurrent, |pages|, st.limit)
    ensures b <= |pages|
    ensures var r := Crawl(AfterPages(st, pages, b), st, fetch, fuel);
      r.markets == Flatten(pages) && !r.hasMore && r.requests == |pages|
    decreases k
  {
    var m := st.maxConcurrent;
    RemainingStep(pages, b, k, m);
    var s := AfterPages(st, pages, b);
    var f: nat := fuel - 1;
    assert Crawl(s, st, fetch, fuel) == Crawl(OffsetWave(s, st, fetch), st, fetch, f);
    if k >= 2 {
      assert FullBetween(pages, b, b + m, st.limit);
      FullWave(st, fetch, pages, b);
      PagedFrom(st, fetch, pages, b + m, k - 1, f);
    } else {
      LastWave(st, fetch, pages, b);
    }
  }

  /**
   * From offset 0, a venue that serves `waves` waves of `max_concurrent`
   * pages, full until a short page in the last wave, is collected in
   * exactly `waves * max_concurrent` requests, and the run returns all
   * their markets in order. With `max_concurrent` 1: `n` full pages and a
   * short one take `n + 1` requests.
   */
  lemma PagesCollected(st: Settings, fetch: Fetch, pages: seq<seq<PolyMarket>>, waves: nat, fuel: nat)
    requires Paged(st, fetch, pages, waves) && fuel >= waves
    ensures var r := Crawl(Start, st, fetch, fuel);
      && r.markets == Flatten(pages) && !r.hasMore && r.requests == |pages|
  {
    assert pages[..0] == [];
    assert AfterPages(st, pages, 0) == Start;
    PagedFrom(st, fetch, pages, 0, waves, fuel);
  }

  /** Saving the same markets twice stores the same snapshot as saving them once. */
  lemma SaveMarketsIdempotent(existing: seq<PolyMarket>, markets: seq<PolyMarket>)
    ensures SaveMarkets(SaveMarkets(existing, markets), markets) == SaveMarkets(existing, markets)
  {
    MergeIdempotent(existing, markets, Whole);
  }

  /** A stored snapshot without repeated records is kept whole at the front of the new one. */
  lemma SaveKeepsStored(existing: seq<PolyMarket>, markets: seq<PolyMarket>)
    requires forall i, j :: 0 <= i < j < |existing| ==> existing[i] != existing[j]
    ensures |existing| <= |SaveMarkets(existing, markets)|
    ensures SaveMarkets(existing, markets)[..|existing|] == existing
  {
    MergeKeepsExisting(existing, markets, Whole, |markets|);
    assert markets[..|markets|] == markets;
  }
}
