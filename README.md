# Prediction-market arbitrage: a Dafny model of the core

This project models the core of prediction-arbs. The program collects open
markets from two prediction-market venues, Kalshi and Polymarket. It pairs
markets with similar wording and reports the pairs where buying on Kalshi,
after Kalshi's trading fee, is cheaper than the Polymarket price.

The model covers three source files:

- `utils.py`:
  - the Kalshi fee formula;
  - the text each market contributes to matching;
  - the similarity-threshold filter;
  - per-pair arbitrage scoring;
  - the three-key report ordering.
- `data/kalshi.py`:
  - the query parameters of a page request and the shape of its result;
  - the cursor-frontier collection loop, which runs in waves of at most `max_concurrent` requests;
  - the merge with the stored snapshot, unique by ticker.
- `data/polymarket.py`:
  - the query parameters of a page request;
  - the default for the start-date filter;
  - the offset-wave collection loop, with its stop rules;
  - the whole-record merge with the stored snapshot.

Modules:

- `Wrappers`: `Option` and `Result`.
- `Records`: the market records.
  - Every field the program reads is a `Field`, so an absent key, a JSON null and a value stay distinct, as they are for Python's `d[k]`, `d.get(k)` and `d.get(k, default)`.
- `Seqs`: concatenation of pages.
- `Dedup`: the keep-first merge that both venues share.
- `Fees`, `Matching`, `Scoring`, `Report`: the four parts of `utils.py`.
- `KalshiData`, `PolymarketData`: the two collectors.

Each collection loop is an imperative method. Its loop invariant ties the loop state to `Crawl`, a function that runs the loop wave by wave from the start state. The lemmas about `Crawl` state the stop rules and what a whole run collects. A page request is an oracle: a function from the query parameters to the venue's answer. The requests of one wave are evaluated in task order, which is the order in which `asyncio.gather` returns their results.

## Model

| member | source | states |
|---|---|---|
| Fees.KalshiFee | utils.py:12-17 | The fee lies in [0.07·p·(1−p), 0.07·p·(1−p) + 0.01) and is a whole number of cents |
| Fees.KalshiFeeCents | utils.py:15-17 | The fee in cents is the least f with 7·c·(100−c) ≤ 10000·f |
| Fees.KalshiFeeAtCents | utils.py:17 | On a price of c whole cents, the dollar fee equals the cent formula ceil(7·c·(100−c)/10000) divided by 100, exactly |
| Fees.FeeCentsBounds | utils.py:17 | For 0..100 cents the fee is 0, 1 or 2 cents, and it is 0 exactly at 0 and 100 cents |
| Fees.FeeCentsSymmetric | utils.py:17 | Fee(c) = fee(100 − c) in cents |
| Fees.KalshiFeeSymmetric | utils.py:17 | Fee(p) = fee(1 − p) for every real price |
| Fees.FeeCentsMonotone | utils.py:17 | The fee does not decrease as the price moves from 0 towards 50 cents |
| Fees.FeeNeverWholeCents | utils.py:17 | For 1..99 cents, 7·c·(100−c) is never a multiple of 10000, so the rounding always adds a fraction of a cent |
| Fees.FeeExamples | utils.py:12-17 | 40 cents pays 2 cents (0.02 dollars), 10 cents pays 1 cent and 50 cents pays 2 cents |
| Matching.GetText | utils.py:32 | `.get(key, '')` renders an absent key as "", a null as "None" and a text as itself |
| Matching.PrepareMarketText | utils.py:29-35 | "kalshi" joins title and both rule texts with spaces. Every other platform joins question and description. A missing leading field raises KeyError, and nothing else fails |
| Matching.KalshiTextWithoutRules | utils.py:32 | A Kalshi record without rule texts yields its title followed by two spaces |
| Matching.NullRuleShowsNone | utils.py:32 | A null rule text contributes the word "None" |
| Matching.Texts | utils.py:41-42 | On success there is one text per record, each being that record's text. Any failure is KeyError |
| Matching.TextsSucceedIff | utils.py:41-42 | The texts are produced exactly when every record has its leading field |
| Matching.RowMatches | utils.py:57-59 | Every cell listed for a row reaches the threshold, and the cells are in column order |
| Matching.Matches | utils.py:56-59 | Every listed cell is in the matrix and reaches the threshold, and the cells are in row-major order |
| Matching.MatchesIff | utils.py:56-59 | A cell is listed exactly when its score is ≥ the threshold; a score equal to the threshold is included |
| Matching.ThresholdPairs | utils.py:55-61 | The loop emits (Kalshi record, Polymarket record, score), one per listed cell, in row-major order |
| Matching.FindSimilarMarkets | utils.py:37-61 | KeyError exactly when some record lacks its title or question. Otherwise ValueError exactly when a venue has no records, as `cosine_similarity` rejects an empty side. Otherwise the threshold pairs |
| Scoring.BidPrice | utils.py:78-79 | A missing bid reads as 0, a null bid raises TypeError, and a bid of c cents reads as c/100 |
| Scoring.ReadQuote | utils.py:78-84 | Errors arise in reading order, each stated both ways. A null bid raises TypeError. Once both bids are read: malformed outcome prices raise JSONDecodeError; a decoded number, boolean or null raises TypeError and an object KeyError when indexed; an array (or string) with no item 0, or whose item 0 parses and which has no item 1, raises IndexError; the first unreadable item of items 0 and 1 raises ValueError when it is text and TypeError when it is null, an array or an object. Otherwise the quote holds both bids and the first two decoded outcome prices |
| Scoring.ScorePair | utils.py:67-121 | Four outcomes. (1) Skipped exactly when a required field is missing or empty. (2) IndexError exactly when after both bids are read, the outcome prices decode to an array with no item 0, or to one whose item 0 parses and which has no item 1. (3) Unprofitable exactly when the pair is priced (both expirations parse and are both aware or both naive) and neither margin is positive. (4) Found exactly when the pair is priced, profitable and has its identity fields. A found record carries the Kalshi title and ticker, the Polymarket question and id, the two margins (Polymarket price − Kalshi price − fee), the prices, the fees, the score and the earlier expiration |
| Scoring.ShortPriceArrayIff | utils.py:78-84 | The uncaught IndexError arises exactly when the required fields are present, neither bid is null, and the outcome prices decode to an array with no item 0, or whose item 0 parses and which has no item 1 |
| Scoring.RaisedIsCaughtUnlessShort | utils.py:118-121 | Every error the loop body raises is caught, except IndexError, raised when after both bids are read, the outcome prices decode to an array with no item 0, or to one whose item 0 parses and which has no item 1 |
| Scoring.MixedOffsetsDropped | utils.py:95-121 | An expiration with a UTC offset against one without makes `min` raise TypeError, which is caught, so the pair drops out of the result |
| Scoring.Step | utils.py:100-121 | A found record is appended, an error the handler does not catch ends the call, and every other outcome leaves the list as it was |
| Scoring.StepFailsIff | utils.py:118-121 | A pair ends the whole call exactly when its required fields are present and, after both bids are read, the outcome prices decode to an array with no item 0, or to one whose item 0 parses and which has no item 1 |
| Scoring.Calculate | utils.py:63-123 | There are no more records than pairs. Every record has a positive margin. The only error that escapes is IndexError |
| Scoring.CalculateArbitrageOpportunities | utils.py:63-123 | The loop returns what `Calculate` defines |
| Scoring.CalculateAppend | utils.py:67-121 | The loop over a + b is the loop over a followed by the loop over b |
| Scoring.DroppedPairInvisible | utils.py:67-121 | A skipped, unprofitable or caught pair leaves the result of the other pairs unchanged |
| Scoring.CalculateFailsIff | utils.py:82-121 | The call fails exactly when some pair has its required fields and, after both bids are read, the outcome prices decode to an array with no item 0, or to one whose item 0 parses and which has no item 1 |
| Scoring.FoundIndices | utils.py:100-116 | For a given scorer (the loop's is `ScorePair`), the positions of the pairs that yield a record, increasing, and all of them |
| Scoring.CalculateIsFoundOpps | utils.py:63-123 | A successful call returns the records of the pairs that yield one, in pair order, and nothing else |
| Scoring.CalculateIsFoundSubsequence | utils.py:63-123 | A successful result holds, in pair order, exactly the records of the pairs that yield one |
| Scoring.FoundMarginsInCents | utils.py:78-92 | For whole-cent bids in 0..100, each fee is its cent formula and at most 0.02, and each margin is the Polymarket price − (bid + fee)/100 |
| Report.ReportLeTotal | utils.py:133-136 | Any two rows are comparable in report order |
| Report.ReportLeTransitive | utils.py:133-136 | The report order is transitive |
| Report.ReportLeAntisymmetric | utils.py:133-136 | Rows that may each precede the other share expiration, YES margin and NO margin |
| Report.Insert | utils.py:133-136 | Inserting a row into a sorted report keeps it sorted and adds exactly that row |
| Report.GenerateArbitrageReport | utils.py:125-138 | The report is a permutation of its input, sorted by expiration ascending, then YES margin descending, then NO margin descending. Empty input gives an empty report |
| Report.SortedKeysUnique | utils.py:133-136 | Any two sorted arrangements of the same rows agree on the three keys at every position |
| Dedup.UniqueBy | data/kalshi.py:55 | The result has pairwise-distinct keys, the same key set as the input, and only input records |
| Dedup.UniqueByIsFirsts | data/kalshi.py:55 | The scan keeps exactly the records that are the first with their key, in input order |
| Dedup.Merge | data/kalshi.py:48-56 | The merge keeps, in order, each record of snapshot + new records whose key did not appear earlier in that concatenation |
| Dedup.UniqueOfDistinct | data/kalshi.py:55 | A sequence with distinct keys is left unchanged |
| Dedup.UniqueAbsorbs | data/polymarket.py:54 | Records that bring no new key are dropped |
| Dedup.MergeIdempotent | data/polymarket.py:48-56 | Merging the same batch a second time changes nothing |
| Dedup.MergeKeepsExisting | data/kalshi.py:48-56 | A stored snapshot with distinct keys survives whole at the front |
| KalshiData.PageParams | data/kalshi.py:71-81 | limit and status are always sent. cursor, min_close_ts and event_ticker are sent exactly when truthy, so "" and 0 are omitted |
| KalshiData.BuildPageParams | data/kalshi.py:71-81 | The conditional inserts build exactly `PageParams` |
| KalshiData.DefaultFirstRequest | data/kalshi.py:63-102 | With every default, the first request sends exactly limit=1000 and status="open", and the default `max_concurrent` is 5 (each wave still holds at most one request, see `KalshiData.FrontierAtMostOne`) |
| KalshiData.PageResult | data/kalshi.py:89-94 | A page is (`markets`, or [] when absent; `cursor`, or None). A null `markets` raises |
| KalshiData.SliceStop | data/kalshi.py:111-112 | Python's split point for `s[:n]` and `s[n:]`, including a negative n |
| KalshiData.Harvest | data/kalshi.py:127-135 | The appended next cursors are all truthy, and there is at most one per request |
| KalshiData.CursorWave | data/kalshi.py:110-145 | One iteration: the first `max_concurrent` cursors are requested and the rest stay in front, followed by the truthy next cursors. The run goes on exactly when the wave yielded markets and a cursor is pending |
| KalshiData.Crawl | data/kalshi.py:110-145 | The loop runs wave by wave while `has_more` holds and cursors are pending, for at most `fuel` waves |
| KalshiData.CrawlGrows | data/kalshi.py:110-145 | The run only appends markets and only adds requests |
| KalshiData.RunWave | data/kalshi.py:111-135 | A wave takes the first `min(max_concurrent, len)` cursors and keeps the rest in front. It gathers the markets of successful pages and then their truthy next cursors, in task order |
| KalshiData.Iterate | data/kalshi.py:111-145 | One iteration of the loop body is one step of `Crawl` |
| KalshiData.FetchMarkets | data/kalshi.py:96-150 | The loop returns the markets of `Crawl` from `[None]`. A save happens exactly when the result is non-empty, and it stores the ticker merge |
| KalshiData.HarvestAppend | data/kalshi.py:127-135 | Results of a + b are those of a followed by those of b |
| KalshiData.FailedPageIgnored | data/kalshi.py:127-135 | A failed request adds neither markets nor a cursor, wherever it sits in the wave |
| KalshiData.EmptyWaveStops | data/kalshi.py:137-139 | A wave yielding no markets ends the run, even with cursors left |
| KalshiData.ExhaustedFrontierStops | data/kalshi.py:144-145 | A wave that leaves no cursor pending ends the run |
| KalshiData.CursorChainCollected | data/kalshi.py:104-150 | With any `max_concurrent` ≥ 1, a chain of n linked pages is collected in n requests, returning their markets in order |
| KalshiData.FrontierAtMostOne | data/kalshi.py:110-145 | From the start, at most one cursor is ever pending, so with `max_concurrent` ≥ 1 every wave takes the whole frontier and the wave limit never applies |
| KalshiData.SaveMarkets | data/kalshi.py:48-56 | The save holds one record per ticker, covering every ticker of snapshot + new records, at first appearance |
| KalshiData.SaveMarketsIdempotent | data/kalshi.py:48-56 | Saving the same markets twice stores what saving once does |
| KalshiData.SaveKeepsStored | data/kalshi.py:48-56 | A stored snapshot with distinct tickers survives whole at the front |
| PolymarketData.PageParams | data/polymarket.py:73-89 | limit and offset are always sent. active="true" exactly when `active_only`; closed="false" exactly when not `closed`. Each start date is sent exactly when it is non-empty. Volume and liquidity minimums are sent whenever given, 0.0 included |
| PolymarketData.Sent | data/polymarket.py:73-89 | Which parameters a page request carries: limit and offset always, the flags when they select, a start date when non-empty, a minimum whenever given |
| PolymarketData.ValueOf | data/polymarket.py:73-89 | The value each carried parameter is sent with |
| PolymarketData.DefaultFirstRequest | data/polymarket.py:73-110 | With every default filter and limit, the first request sends exactly limit=500, offset=0, active="true" and closed="false" |
| PolymarketData.BuildPageParams | data/polymarket.py:73-89 | The conditional inserts build exactly `PageParams` |
| PolymarketData.EffectiveFilters | data/polymarket.py:116-117 | An empty or absent start_date_min takes the stored latest start date when that is non-empty; all else is kept |
| PolymarketData.WaveOffsets | data/polymarket.py:127-128 | A wave requests `max_concurrent` pages, at offset + i·limit |
| PolymarketData.Gather | data/polymarket.py:144-158 | A wave's answers, in task order: the markets of every non-empty list are kept, and the wave is short when some list is shorter than `limit` |
| PolymarketData.GatherMeaning | data/polymarket.py:144-158 | A wave is short exactly when some answer is a list shorter than `limit`. It gathers nothing exactly when no answer is a non-empty list |
| PolymarketData.GatherAppend | data/polymarket.py:144-149 | Results of a + b are those of a followed by those of b |
| PolymarketData.NonListIgnored | data/polymarket.py:145-149 | A failed request or a non-list body contributes nothing, wherever it sits |
| PolymarketData.OffsetWave | data/polymarket.py:125-159 | One iteration: a wave that yields no market stops the run at the same offset. Otherwise its markets are kept, the offset moves past every page requested, and a short list stops the run |
| PolymarketData.Crawl | data/polymarket.py:125-159 | The loop runs wave by wave while `has_more` holds, for at most `fuel` waves |
| PolymarketData.CrawlGrows | data/polymarket.py:125-159 | The run only appends markets and only adds requests, and a stopped run stays put |
| PolymarketData.RunWave | data/polymarket.py:126-158 | The wave loop computes what `Gather` defines over the wave's offsets |
| PolymarketData.Collect | data/polymarket.py:119-159 | The loop returns the markets of `Crawl` from offset 0 |
| PolymarketData.FetchMarkets | data/polymarket.py:102-164 | The run uses the defaulted filters. A save happens exactly when the result is non-empty, and it stores the whole-record merge |
| PolymarketData.EmptyWaveStops | data/polymarket.py:151-152 | A wave with no non-empty list ends the run at the same offset |
| PolymarketData.ShortPageStops | data/polymarket.py:151-159 | A list shorter than `limit`, an empty one included, ends the run after the wave is kept |
| PolymarketData.FullWaveAdvances | data/polymarket.py:153-156 | A wave of full pages keeps going, with the offset advanced by `max_concurrent·limit` |
| PolymarketData.SummaryMeaning | data/polymarket.py:144-158 | Answered by lists, a wave gathers their concatenation, and it is short exactly when one list is short |
| PolymarketData.PagesCollected | data/polymarket.py:125-159 | Waves of full pages ending in a wave with a short page are collected in exactly `len(pages)` requests, one per page, returning every market in order |
| PolymarketData.SaveMarkets | data/polymarket.py:48-56 | The save has no repeated record and the same records as snapshot + new, at first appearance |
| PolymarketData.SaveMarketsIdempotent | data/polymarket.py:48-56 | Saving the same markets twice stores what saving once does |
| PolymarketData.SaveKeepsStored | data/polymarket.py:48-56 | A stored snapshot without repeats survives whole at the front |

## Left out

- HTTP, JSON decoding of responses, and rate limiting.
  - A page request is an oracle from parameters to a response.
  - A transport error, a non-2xx status and a body the code cannot take the length of are all one failed answer.
- Concurrency. The requests of a wave are evaluated in task order.
- The TF-IDF vectoriser and cosine similarity, which are floating point.
  - The similarity matrix is an input.
  - The empty-side ValueError of `cosine_similarity` is modelled.
  - The vectoriser's ValueError when every text is empty or made only of stop words is not modelled.
- `json.loads` of `outcomePrices` and ISO-8601 parsing are function parameters.
  - An expiration parses to an instant together with whether it carried a UTC offset.
  - The parameter reports, for the decoded value, what indexing it by 0 and 1 and applying `float` yields. A decoded string is indexed character by character, so it maps to the items its characters give.
- Scoring.ReadQuote: an integer item too large for a float makes `float` raise OverflowError (utils.py:83-84), which the handler does not catch. Items are only readable, a text `float` rejects, or a value of the wrong type, so this case is not modelled.
- Non-text values in text fields are not modelled: those fields are typed as text.
  - A non-string `outcomePrices` makes `json.loads` raise TypeError, which is caught.
  - A non-string expiration makes `.replace` raise AttributeError (utils.py:95-96). The handler does not catch that, so the whole call fails.
- Float rounding. Prices are exact reals. Non-finite prices are not modelled: `float()` accepts "nan" and "inf" (utils.py:83-84), and the price parameter yields only finite values. `Fees.KalshiFeeAtCents` ties the real formula to the integer cent formula.
- Report expirations are compared as numbers. How polars orders a column that mixes timestamps with and without a UTC offset is not modelled.
- `_load_existing_markets` is called in both collectors but defined in neither file, so the source as written does not get past it:
  - `PolymarketClient.fetch_markets` raises AttributeError at data/polymarket.py:114, before any request.
  - `KalshiClient.fetch_markets` collects its markets. When it collected any, it raises from `_save_markets` (data/kalshi.py:45) instead of returning them. When it collected none, it returns `[]` without saving (data/kalshi.py:147-150).
  - The model supplies the stored snapshot as an input, and for Polymarket its latest start date too. It then follows the code past that call.
  - The same snapshot is used for the start-date default and for the save.
- File writing and logging. `main.py` is not part of this model.
- KalshiData.SaveMarkets: `unique(subset=['ticker'])` is modelled as keep-first. Polars' default does not promise which duplicate survives.
- Polars.
  - Schema normalisation is not modelled: an absent key and a null are different records here, while a DataFrame may not tell them apart.
  - A record's extra fields are text in canonical form.
- Query-parameter keys are an enumeration with their wire names. Dictionary insertion order, which only affects how the query string is rendered, is not modelled.
- KalshiData.FetchMarkets: the loop is bounded by `fuel` iterations because the source's loop need not terminate. `finished` reports whether the loop's own condition ended it.
- PolymarketData.FetchMarkets: the loop is bounded by `fuel` iterations, for the same reason.
- How the code prices a pair:
  - The Kalshi price read is `yes_bid`/`no_bid`.
  - A margin is the Polymarket price of the same side, minus the Kalshi bid, minus the fee.
  - A null rule text or description renders as "None".
