/**
 * Arbitrage scoring (utils.py `calculate_arbitrage_opportunities`): each
 * matched pair is checked for the fields it needs, priced on both venues,
 * charged the Kalshi fee and kept when one of its two margins is positive.
 * ISO-8601 parsing and `json.loads` of the outcome prices are parameters.
 */
module Scoring {
  import opened Wrappers
  import opened Records
  import opened Fees
  import opened Matching
  import opened Seqs

  /** What `float` makes of one indexed item. */
  datatype PriceItem =
    | Parsed(price: real)   // a number, a boolean or a numeric text
    | BadValue              // a text `float` cannot read: ValueError
    | BadType               // null, an array or an object: TypeError

  /** What `json.loads` makes of an `outcomePrices` text, as far as indexing it by 0 and 1 goes. */
  datatype PriceJson =
    | Malformed                          // `json.loads` raises JSONDecodeError
    | PriceArray(items: seq<PriceItem>)  // an array, or a string indexed character by character
    | NotIndexable                       // a number, a boolean or null: indexing raises TypeError
    | Mapping                            // an object: its keys are text, so `[0]` raises KeyError

  /**
   * A parsed timestamp. `aware` says the text carried a UTC offset; `at` is
   * the instant for an aware timestamp and the wall-clock time for a naive
   * one. Python refuses to compare an aware with a naive timestamp.
   */
  datatype Instant = Instant(at: int, aware: bool)

  /**
   * The parsers the scorer relies on. A decoded JSON string is indexed
   * character by character, so `prices` maps it to the `PriceArray` of
   * its characters as `float` reads them.
   */
  datatype Parsers = Parsers(
    instant: string -> Option<Instant>,  // ISO-8601 timestamp; None raises ValueError
    prices: string -> PriceJson)

  datatype Opportunity = Opportunity(
    kalshiMarket: Option<string>,
    polyMarket: Option<string>,
    similarityScore: real,
    yesArbitrage: real,
    noArbitrage: real,
    kalshiYesPrice: real,
    kalshiNoPrice: real,
    polyYesPrice: real,
    polyNoPrice: real,
    kalshiYesFee: real,
    kalshiNoFee: real,
    expirationDate: int,
    kalshiId: Option<string>,
    polyId: Option<string>)

  /** What happens to one pair inside the loop body. */
  datatype PairOutcome =
    | Incomplete            // a required field is missing or falsy: `continue`
    | Raised(error: PyError)
    | Unprofitable          // neither margin is positive
    | Found(opp: Opportunity)

  /** The exceptions the loop body catches and logs. */
  predicate Caught(e: PyError) {
    e in {KeyError, TypeError, ValueError, JsonDecodeError}
  }

  /** `market.get(key, 0) / 100`: a bid in cents as a price in dollars. */
  function BidPrice(f: Field<int>): (r: Result<real, PyError>)
    ensures f.Missing? ==> r == Success(0.0)
    ensures f.Null? ==> r == Failure(TypeError)
    ensures f.Val? ==> r == Success(f.value as real / 100.0)
  {
    match f
    case Missing => Success(0.0)
    case Null => Failure(TypeError)
    case Val(c) => Success(c as real / 100.0)
  }

  /** `market[key]`: KeyError when absent, None when null. */
  function Subscript(f: Field<string>): Result<Option<string>, PyError> {
    match f
    case Missing => Failure(KeyError)
    case Null => Success(None)
    case Val(s) => Success(Some(s))
  }

  /** The three fields the loop insists on are present and truthy. */
  predicate Complete(p: SimilarPair) {
    TruthyField(p.kalshi.expirationTime) && TruthyField(p.poly.endDate) && TruthyField(p.poly.outcomePrices)
  }

  /** The four prices of a pair. */
  datatype Quote = Quote(kalshiYes: real, kalshiNo: real, polyYes: real, polyNo: real)

  /** Buying YES on Kalshi, counted against the Polymarket YES price. */
  function YesMargin(q: Quote): real {
    q.polyYes - q.kalshiYes - KalshiFee(q.kalshiYes)
  }

  function NoMargin(q: Quote): real {
    q.polyNo - q.kalshiNo - KalshiFee(q.kalshiNo)
  }

  predicate Profitable(q: Quote) {
    YesMargin(q) > 0.0 || NoMargin(q) > 0.0
  }

  /**
   * `float` rejects, with the error of `bad`, the item it reads first
   * that it cannot read: item 0, or item 1 once item 0 has been read.
   */
  predicate ItemFails(json: PriceJson, bad: PriceItem) {
    json.PriceArray? && |json.items| >= 1 &&
    (json.items[0] == bad || (json.items[0].Parsed? && |json.items| >= 2 && json.items[1] == bad))
  }

  /**
   * The prices, in the order the source reads them: both bids, then the
   * decoded array, item 0 then item 1. Indexing past the end raises
   * IndexError.
   */
  function ReadQuote(p: SimilarPair, parse: Parsers): (r: Result<Quote, PyError>)
    requires Complete(p)
    ensures r.Success? ==> BidPrice(p.kalshi.yesBid) == Success(r.value.kalshiYes)
    ensures r.Success? ==> BidPrice(p.kalshi.noBid) == Success(r.value.kalshiNo)
    ensures r.Success? ==> parse.prices(p.poly.outcomePrices.value).PriceArray?
    ensures r.Success? ==>
      var items := parse.prices(p.poly.outcomePrices.value).items;
      |items| >= 2 && items[0] == Parsed(r.value.polyYes) && items[1] == Parsed(r.value.polyNo)
    ensures var bidsRead := !p.kalshi.yesBid.Null? && !p.kalshi.noBid.Null?;
      var json := parse.prices(p.poly.outcomePrices.value);
      && (r == Failure(TypeError) <==>
            !bidsRead || (json.NotIndexable? || ItemFails(json, BadType)))
      && (r == Failure(KeyError) <==> bidsRead && json.Mapping?)
      && (r == Failure(JsonDecodeError) <==> bidsRead && json.Malformed?)
      && (r == Failure(IndexError) <==>
            bidsRead && json.PriceArray? && (|json.items| == 0 || (|json.items| == 1 && json.items[0].Parsed?)))
      && (r == Failure(ValueError) <==> bidsRead && ItemFails(json, BadValue))
      && (r.Success? <==>
            bidsRead && json.PriceArray? && |json.items| >= 2 && json.items[0].Parsed? && json.items[1].Parsed?)
  {
    match BidPrice(p.kalshi.yesBid)
    case Failure(e) => Failure(e)
    case Success(yes) =>
      match BidPrice(p.kalshi.noBid)
      case Failure(e) => Failure(e)
      case Success(no) =>
        match parse.prices(p.poly.outcomePrices.value)
        case Malformed => Failure(JsonDecodeError)
        case NotIndexable => Failure(TypeError)
        case Mapping => Failure(KeyError)
        case PriceArray(items) =>
          if |items| == 0 then Failure(IndexError)
          else
            match items[0]
            case BadValue => Failure(ValueError)
            case BadType => Failure(TypeError)
            case Parsed(polyYes) =>
              if |items| == 1 then Failure(IndexError)
              else
                match items[1]
                case BadValue => Failure(ValueError)
                case BadType => Failure(TypeError)
                case Parsed(polyNo) => Success(Quote(yes, no, polyYes, polyNo))
  }

  /**
   * The one error the loop does not catch: IndexError, raised when the
   * outcome-price array has no item 0, or its item 0 parses and it has no item 1.
   */
  predicate ShortPriceArray(p: SimilarPair, parse: Parsers) {
    Complete(p) && ReadQuote(p, parse) == Failure(IndexError)
  }

  /**
   * The uncaught case spelled out: both bids read, the outcome prices
   * decode to an array, and it has no item 0, or its item 0 reads and it
   * has no item 1.
   */
  lemma ShortPriceArrayIff(p: SimilarPair, parse: Parsers)
    ensures ShortPriceArray(p, parse) <==>
      && Complete(p) && !p.kalshi.yesBid.Null? && !p.kalshi.noBid.Null?
      && var json := parse.prices(p.poly.outcomePrices.value);
         json.PriceArray? && (|json.items| == 0 || (|json.items| == 1 && json.items[0].Parsed?))
  {
  }

  /** Complete, priced, and both expirations parse. */
  predicate Dated(p: SimilarPair, parse: Parsers) {
    Complete(p) && ReadQuote(p, parse).Success? &&
    parse.instant(p.kalshi.expirationTime.value).Some? && parse.instant(p.poly.endDate.value).Some?
  }

  /** Both expirations are aware or both are naive, so `min` can compare them. */
  predicate Comparable(p: SimilarPair, parse: Parsers)
    requires Dated(p, parse)
  {
    parse.instant(p.kalshi.expirationTime.value).value.aware == parse.instant(p.poly.endDate.value).value.aware
  }

  /** Dated, and the expirations can be compared. */
  predicate Priced(p: SimilarPair, parse: Parsers) {
    Dated(p, parse) && Comparable(p, parse)
  }

  /** The record fields read with `d[key]` when an opportunity is recorded. */
  predicate HasIdentity(p: SimilarPair) {
    !p.kalshi.title.Missing? && !p.poly.question.Missing? && !p.kalshi.ticker.Missing? && !p.poly.id.Missing?
  }

  /** One iteration of the loop in `calculate_arbitrage_opportunities`. */
  function ScorePair(p: SimilarPair, parse: Parsers): (r: PairOutcome)
    ensures r.Incomplete? <==> !Complete(p)
    ensures r == Raised(IndexError) <==> ShortPriceArray(p, parse)
    ensures r.Unprofitable? <==> Priced(p, parse) && !Profitable(ReadQuote(p, parse).value)
    ensures r.Found? <==> Priced(p, parse) && Profitable(ReadQuote(p, parse).value) && HasIdentity(p)
    ensures r.Found? ==> r.opp.yesArbitrage > 0.0 || r.opp.noArbitrage > 0.0
    ensures r.Found? ==>
      var q := ReadQuote(p, parse).value;
      && r.opp.kalshiYesPrice == q.kalshiYes && r.opp.kalshiNoPrice == q.kalshiNo
      && r.opp.polyYesPrice == q.polyYes && r.opp.polyNoPrice == q.polyNo
      && r.opp.kalshiYesFee == KalshiFee(q.kalshiYes) && r.opp.kalshiNoFee == KalshiFee(q.kalshiNo)
      && r.opp.yesArbitrage == q.polyYes - q.kalshiYes - r.opp.kalshiYesFee
      && r.opp.noArbitrage == q.polyNo - q.kalshiNo - r.opp.kalshiNoFee
      && r.opp.similarityScore == p.similarity
      && r.opp.kalshiMarket == Subscript(p.kalshi.title).value && r.opp.polyMarket == Subscript(p.poly.question).value
      && r.opp.kalshiId == Subscript(p.kalshi.ticker).value && r.opp.polyId == Subscript(p.poly.id).value
    ensures r.Found? ==>
      var ke := parse.instant(p.kalshi.expirationTime.value).value.at;
      var pe := parse.instant(p.poly.endDate.value).value.at;
      r.opp.expirationDate <= ke && r.opp.expirationDate <= pe &&
      (r.opp.expirationDate == ke || r.opp.expirationDate == pe)
  {
    if !Complete(p) then Incomplete
    else
      match ReadQuote(p, parse)
      case Failure(e) => Raised(e)
      case Success(q) =>
        var yesFee, noFee := KalshiFee(q.kalshiYes), KalshiFee(q.kalshiNo);
        var yesArb := q.polyYes - q.kalshiYes - yesFee;
        var noArb := q.polyNo - q.kalshiNo - noFee;
        match (parse.instant(p.kalshi.expirationTime.value), parse.instant(p.poly.endDate.value))
        case (None, _) => Raised(ValueError)
        case (_, None) => Raised(ValueError)
        case (Some(ke), Some(pe)) =>
          if ke.aware != pe.aware then Raised(TypeError)
          else
          var nearest := if ke.at <= pe.at then ke.at else pe.at;
          if !(yesArb > 0.0 || noArb > 0.0) then Unprofitable
          else
            match (Subscript(p.kalshi.title), Subscript(p.poly.question), Subscript(p.kalshi.ticker), Subscript(p.poly.id))
            case (Success(title), Success(question), Success(ticker), Success(id)) =>
              Found(Opportunity(title, question, p.similarity, yesArb, noArb,
                                q.kalshiYes, q.kalshiNo, q.polyYes, q.polyNo,
                                yesFee, noFee, nearest, ticker, id))
            case _ => Raised(KeyError)
  }

  /** Every error the loop body can raise other than IndexError is one it catches. */
  lemma RaisedIsCaughtUnlessShort(p: SimilarPair, parse: Parsers)
    requires ScorePair(p, parse).Raised?
    ensures Caught(ScorePair(p, parse).error) <==> !ShortPriceArray(p, parse)
  {
  }

  /**
   * An aware expiration against a naive one: `min` raises TypeError, which
   * is caught, so the pair is dropped however profitable it is.
   */
  lemma MixedOffsetsDropped(a: seq<SimilarPair>, p: SimilarPair, b: seq<SimilarPair>, parse: Parsers)
    requires Dated(p, parse) && !Comparable(p, parse)
    ensures ScorePair(p, parse) == Raised(TypeError)
    ensures Calculate(a + [p] + b, parse) == Calculate(a + b, parse)
  {
    DroppedPairInvisible(a, p, b, parse);
  }

  /** The pair's contribution, once the loop has reached it with `acc` so far. */
  function Step(acc: seq<Opportunity>, o: PairOutcome): Result<seq<Opportunity>, PyError> {
    match o
    case Found(opp) => Success(acc + [opp])
    case Raised(e) => if Caught(e) then Success(acc) else Failure(e)
    case _ => Success(acc)
  }

  /**
   * The whole loop over `pairs`: the opportunities in pair order, or the
   * uncaught error that ends the call.
   */
  function Calculate(pairs: seq<SimilarPair>, parse: Parsers): (r: Result<seq<Opportunity>, PyError>)
    ensures r.Success? ==> |r.value| <= |pairs|
    ensures r.Success? ==> forall o :: o in r.value ==> o.yesArbitrage > 0.0 || o.noArbitrage > 0.0
    ensures r.Failure? ==> r.error == IndexError
  {
    if pairs == [] then Success([])
    else
      match Calculate(pairs[..|pairs| - 1], parse)
      case Failure(e) => Failure(e)
      case Success(acc) => Step(acc, ScorePair(pairs[|pairs| - 1], parse))
  }

  /** `calculate_arbitrage_opportunities`. */
  method CalculateArbitrageOpportunities(pairs: seq<SimilarPair>, parse: Parsers)
    returns (r: Result<seq<Opportunity>, PyError>)
    ensures r == Calculate(pairs, parse)
  {
    var opportunities: seq<Opportunity> := [];
    for n := 0 to |pairs|
      invariant Calculate(pairs[..n], parse) == Success(opportunities)
    {
      assert pairs[..n + 1][..n] == pairs[..n];
      var outcome := ScorePair(pairs[n], parse);
      match outcome {
        case Found(opp) =>
          opportunities := opportunities + [opp];
        case Raised(e) =>
          if !Caught(e) {
            CalculateAppend(pairs[..n + 1], pairs[n + 1..], parse);
            assert pairs[..n + 1] + pairs[n + 1..] == pairs;
            return Failure(e);
          }
        case _ =>
      }
    }
    assert pairs[..|pairs|] == pairs;
    return Success(opportunities);
  }

  /** Running the loop over `a + b` is running it over `a`, then over `b`. */
  function Then(x: Result<seq<Opportunity>, PyError>, y: Result<seq<Opportunity>, PyError>): Result<seq<Opportunity>, PyError> {
    if x.Failure? then x else if y.Failure? then y else Success(x.value + y.value)
  }

  lemma {:induction false} CalculateAppend(a: seq<SimilarPair>, b: seq<SimilarPair>, parse: Parsers)
    ensures Calculate(a + b, parse) == Then(Calculate(a, parse), Calculate(b, parse))
  {
    if b == [] {
      assert a + b == a;
      if Calculate(a, parse).Success? {
        assert Calculate(a, parse).value + [] == Calculate(a, parse).value;
      }
    } else {
      var b' := b[..|b| - 1];
      CalculateAppend(a, b', parse);
      assert (a + b)[..|a + b| - 1] == a + b';
      assert (a + b)[|a + b| - 1] == b[|b| - 1];
      var x, y := Calculate(a, parse), Calculate(b', parse);
      if x.Success? && y.Success? {
        match ScorePair(b[|b| - 1], parse)
        case Found(opp) =>
          assert x.value + y.value + [opp] == x.value + (y.value + [opp]);
        case _ =>
      }
    }
  }

  /** A pair that is skipped or whose error is caught leaves the rest of the result as it was. */
  lemma DroppedPairInvisible(a: seq<SimilarPair>, p: SimilarPair, b: seq<SimilarPair>, parse: Parsers)
    requires !ScorePair(p, parse).Found? && !ShortPriceArray(p, parse)
    ensures Calculate(a + [p] + b, parse) == Calculate(a + b, parse)
  {
    CalculateAppend(a + [p], b, parse);
    CalculateAppend(a, [p], parse);
    CalculateAppend(a, b, parse);
    assert [p][..0] == [];
  }

  /** One pair ends the loop exactly when it raises the uncaught IndexError. */
  lemma StepFailsIff(acc: seq<Opportunity>, p: SimilarPair, parse: Parsers)
    ensures Step(acc, ScorePair(p, parse)).Failure? <==> ShortPriceArray(p, parse)
  {
    if ScorePair(p, parse).Raised? {
      RaisedIsCaughtUnlessShort(p, parse);
    }
  }

  /** The call fails exactly when some pair raises the uncaught IndexError. */
  lemma {:induction false} CalculateFailsIff(pairs: seq<SimilarPair>, parse: Parsers)
    ensures Calculate(pairs, parse).Failure? <==> exists i :: 0 <= i < |pairs| && ShortPriceArray(pairs[i], parse)
  {
    if pairs != [] {
      var init, last := pairs[..|pairs| - 1], pairs[|pairs| - 1];
      CalculateFailsIff(init, parse);
      var prior := Calculate(init, parse);
      ExistsSnoc(pairs, p => ShortPriceArray(p, parse));
      if prior.Success? {
        StepFailsIff(prior.value, last, parse);
        assert Calculate(pairs, parse) == Step(prior.value, ScorePair(last, parse));
      } else {
        assert Calculate(pairs, parse) == Failure(prior.error);
      }
    }
  }

  /**
   * The positions of the pairs among `pairs[..n]` that `score` turns into
   * an opportunity. The scorer is a parameter so that these definitions
   * stay apart from `ScorePair`'s contract; the loop's is `ScorePair`.
   */
  function FoundIndices(pairs: seq<SimilarPair>, score: SimilarPair -> PairOutcome, n: nat): (r: seq<nat>)
    requires n <= |pairs|
    ensures forall t :: 0 <= t < |r| ==> r[t] < n && score(pairs[r[t]]).Found?
    ensures forall s, t :: 0 <= s < t < |r| ==> r[s] < r[t]
    ensures forall i :: 0 <= i < n && score(pairs[i]).Found? ==> i in r
  {
    if n == 0 then []
    else FoundIndices(pairs, score, n - 1) + (if score(pairs[n - 1]).Found? then [n - 1] else [])
  }

  /** The opportunities of the pairs among `pairs[..n]` that yield one, in pair order. */
  ghost function FoundOpps(pairs: seq<SimilarPair>, score: SimilarPair -> PairOutcome, n: nat): seq<Opportunity>
    requires n <= |pairs|
  {
    if n == 0 then []
    else
      var o := score(pairs[n - 1]);
      FoundOpps(pairs, score, n - 1) + (if o.Found? then [o.opp] else [])
  }

  lemma {:induction false} CalculateIsFoundOpps(pairs: seq<SimilarPair>, parse: Parsers, n: nat)
    requires n <= |pairs|
    requires Calculate(pairs[..n], parse).Success?
    ensures Calculate(pairs[..n], parse).value == FoundOpps(pairs, p => ScorePair(p, parse), n)
  {
    if n > 0 {
      var m := n - 1;
      assert pairs[..n][..m] == pairs[..m] && pairs[..n][m] == pairs[m];
      var prior := Calculate(pairs[..m], parse);
      assert prior.Success?;
      assert Calculate(pairs[..n], parse) == Step(prior.value, ScorePair(pairs[m], parse));
      CalculateIsFoundOpps(pairs, parse, m);
    }
  }

  lemma {:induction false} FoundOppsAligned(pairs: seq<SimilarPair>, score: SimilarPair -> PairOutcome, n: nat)
    requires n <= |pairs|
    ensures var os, idx := FoundOpps(pairs, score, n), FoundIndices(pairs, score, n);
      |os| == |idx| && forall t :: 0 <= t < |idx| ==> os[t] == score(pairs[idx[t]]).opp
  {
    if n > 0 {
      FoundOppsAligned(pairs, score, n - 1);
    }
  }

  /**
   * A successful run returns, in pair order, exactly one opportunity for
   * each pair that yields one and nothing else.
   */
  lemma CalculateIsFoundSubsequence(pairs: seq<SimilarPair>, parse: Parsers, n: nat)
    requires n <= |pairs|
    requires Calculate(pairs[..n], parse).Success?
    ensures var score := p => ScorePair(p, parse);
      var os, idx := Calculate(pairs[..n], parse).value, FoundIndices(pairs, score, n);
      |os| == |idx| && forall t :: 0 <= t < |idx| ==> os[t] == score(pairs[idx[t]]).opp
  {
    CalculateIsFoundOpps(pairs, parse, n);
    FoundOppsAligned(pairs, p => ScorePair(p, parse), n);
  }

  /** On whole-cent bids within 0..100 the margins are the dollar prices less the cent fee. */
  lemma FoundMarginsInCents(p: SimilarPair, parse: Parsers, yes: int, no: int)
    requires p.kalshi.yesBid == Val(yes) && p.kalshi.noBid == Val(no)
    requires 0 <= yes <= 100 && 0 <= no <= 100
    requires ScorePair(p, parse).Found?
    ensures var o := ScorePair(p, parse).opp;
      && o.kalshiYesFee == KalshiFeeCents(yes) as real / 100.0
      && o.kalshiNoFee == KalshiFeeCents(no) as real / 100.0
      && o.yesArbitrage == o.polyYesPrice - (yes + KalshiFeeCents(yes)) as real / 100.0
      && o.noArbitrage == o.polyNoPrice - (no + KalshiFeeCents(no)) as real / 100.0
      && 0.0 <= o.kalshiYesFee <= 0.02 && 0.0 <= o.kalshiNoFee <= 0.02
  {
    var o := ScorePair(p, parse).opp;
    var q := ReadQuote(p, parse).value;
    assert q.kalshiYes == yes as real / 100.0 && q.kalshiNo == no as real / 100.0;
    SideInCents(yes, o.polyYesPrice, o.kalshiYesFee, o.yesArbitrage);
    SideInCents(no, o.polyNoPrice, o.kalshiNoFee, o.noArbitrage);
  }

  /** One side of a found record, for a bid of `c` whole cents. */
  lemma SideInCents(c: int, price: real, fee: real, margin: real)
    requires 0 <= c <= 100
    requires fee == KalshiFee(c as real / 100.0) && margin == price - c as real / 100.0 - fee
    ensures fee == KalshiFeeCents(c) as real / 100.0
    ensures margin == price - (c + KalshiFeeCents(c)) as real / 100.0
    ensures 0.0 <= fee <= 0.02
  {
    KalshiFeeAtCents(c);
    FeeCentsBounds(c);
  }
}
