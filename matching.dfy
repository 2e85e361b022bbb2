/**
 * Cross-venue matching (utils.py `prepare_market_text`,
 * `find_similar_markets`). The TF-IDF vectoriser and the cosine similarity
 * are not modelled: the similarity matrix they produce is an input, and the
 * model covers the text each record contributes and the threshold filter.
 */
module Matching {
  import opened Wrappers
  import opened Records

  const DefaultSimilarityThreshold: real := 0.8

  /**
   * The text fields of a record as a Python dict: an absent key is a
   * missing field, `None` is JSON null.
   */
  type TextFields = map<string, Option<string>>

  function FieldEntry(m: TextFields, key: string, f: Field<string>): TextFields {
    match f
    case Missing => m
    case Null => m[key := None]
    case Val(s) => m[key := Some(s)]
  }

  function KalshiTextFields(k: KalshiMarket): TextFields {
    var m := FieldEntry(map[], "title", k.title);
    var m := FieldEntry(m, "rules_primary", k.rulesPrimary);
    FieldEntry(m, "rules_secondary", k.rulesSecondary)
  }

  function PolyTextFields(p: PolyMarket): TextFields {
    var m := FieldEntry(map[], "question", p.question);
    FieldEntry(m, "description", p.description)
  }

  /** Python's `str` of a text value or of None. */
  function Show(v: Option<string>): string {
    if v.Some? then v.value else "None"
  }

  /** `f"{d.get(key, '')}"`: empty when absent, "None" when null. */
  function GetText(m: TextFields, key: string): (t: string)
    ensures key !in m ==> t == ""
    ensures key in m && m[key].None? ==> t == "None"
    ensures key in m && m[key].Some? ==> t == m[key].value
  {
    if key in m then Show(m[key]) else ""
  }

  /** Reference definition: the parts joined by single spaces. */
  function JoinSpaced(parts: seq<string>): string {
    if parts == [] then ""
    else if |parts| == 1 then parts[0]
    else parts[0] + " " + JoinSpaced(parts[1..])
  }

  lemma JoinSpacedCons(x: string, rest: seq<string>)
    requires rest != []
    ensures JoinSpaced([x] + rest) == x + " " + JoinSpaced(rest)
  {
    assert ([x] + rest)[1..] == rest;
  }

  /**
   * The text a record contributes to the vectoriser. The platform "kalshi"
   * selects title and both rule texts; every other platform value selects
   * question and description. The leading field is read with `d[key]`.
   */
  function PrepareMarketText(m: TextFields, platform: string): (r: Result<string, PyError>)
    ensures r.Failure? <==> (if platform == "kalshi" then "title" !in m else "question" !in m)
    ensures r.Failure? ==> r.error == KeyError
    ensures r.Success? && platform == "kalshi" ==>
      r.value == JoinSpaced([Show(m["title"]), GetText(m, "rules_primary"), GetText(m, "rules_secondary")])
    ensures r.Success? && platform != "kalshi" ==>
      r.value == JoinSpaced([Show(m["question"]), GetText(m, "description")])
  {
    if platform == "kalshi" then
      if "title" !in m then Failure(KeyError)
      else
        var t, p, s := Show(m["title"]), GetText(m, "rules_primary"), GetText(m, "rules_secondary");
        JoinSpacedCons(p, [s]);
        JoinSpacedCons(t, [p, s]);
        assert [t, p, s] == [t] + [p, s] && [p, s] == [p] + [s];
        Success(t + " " + p + " " + s)
    else
      if "question" !in m then Failure(KeyError)
      else
        var q, d := Show(m["question"]), GetText(m, "description");
        JoinSpacedCons(q, [d]);
        assert [q, d] == [q] + [d];
        Success(q + " " + d)
  }

  /** A Kalshi record with no rule texts yields its title followed by two spaces. */
  lemma KalshiTextWithoutRules(k: KalshiMarket)
    requires k.title.Val? && k.rulesPrimary.Missing? && k.rulesSecondary.Missing?
    ensures PrepareMarketText(KalshiTextFields(k), "kalshi") == Success(k.title.value + "  ")
  {
    var m := KalshiTextFields(k);
    assert m == map["title" := Some(k.title.value)];
    assert GetText(m, "rules_primary") == "" && GetText(m, "rules_secondary") == "";
    JoinSpacedCons("", [""]);
    JoinSpacedCons(k.title.value, ["", ""]);
    assert [k.title.value, "", ""] == [k.title.value] + ["", ""] && ["", ""] == [""] + [""];
    assert k.title.value + " " + "" + " " + "" == k.title.value + "  ";
  }

  /** A rule text present as JSON null contributes the word "None". */
  lemma NullRuleShowsNone(k: KalshiMarket)
    requires k.title.Val? && k.rulesPrimary.Null? && k.rulesSecondary.Val?
    ensures PrepareMarketText(KalshiTextFields(k), "kalshi")
         == Success(k.title.value + " None " + k.rulesSecondary.value)
  {
    var m := KalshiTextFields(k);
    var t, s := k.title.value, k.rulesSecondary.value;
    assert m == map["title" := Some(t), "rules_primary" := None, "rules_secondary" := Some(s)];
    assert GetText(m, "rules_primary") == "None" && GetText(m, "rules_secondary") == s;
    JoinSpacedCons("None", [s]);
    JoinSpacedCons(t, ["None", s]);
    assert [t, "None", s] == [t] + ["None", s] && ["None", s] == ["None"] + [s];
    assert t + " " + "None" + " " + s == t + " None " + s;
  }

  /** Every record of `ms` yields a text for `platform`. */
  predicate AllHaveText(ms: seq<TextFields>, platform: string) {
    forall i :: 0 <= i < |ms| ==> PrepareMarketText(ms[i], platform).Success?
  }

  /** The list comprehension over one venue's records; the first KeyError aborts it. */
  function Texts(ms: seq<TextFields>, platform: string): (r: Result<seq<string>, PyError>)
    ensures r.Failure? ==> r.error == KeyError
    ensures r.Success? ==> |r.value| == |ms|
    ensures r.Success? ==> forall i :: 0 <= i < |ms| ==> PrepareMarketText(ms[i], platform) == Success(r.value[i])
  {
    if ms == [] then Success([])
    else
      match PrepareMarketText(ms[0], platform)
      case Failure(e) => Failure(e)
      case Success(t) =>
        match Texts(ms[1..], platform)
        case Failure(e) => Failure(e)
        case Success(ts) =>
          assert forall i :: 1 <= i < |ms| ==> ms[i] == ms[1..][i - 1] && ([t] + ts)[i] == ts[i - 1];
          Success([t] + ts)
  }

  /** The texts are produced exactly when every record has its leading field. */
  lemma {:induction false} TextsSucceedIff(ms: seq<TextFields>, platform: string)
    ensures Texts(ms, platform).Success? <==> AllHaveText(ms, platform)
  {
    if ms != [] {
      TextsSucceedIff(ms[1..], platform);
      if AllHaveText(ms, platform) {
        assert forall i :: 0 <= i < |ms[1..]| ==> ms[1..][i] == ms[i + 1];
      } else if PrepareMarketText(ms[0], platform).Success? {
        var i :| 0 <= i < |ms| && PrepareMarketText(ms[i], platform).Failure?;
        assert ms[1..][i - 1] == ms[i];
      }
    }
  }

  function KalshiFieldsOf(ks: seq<KalshiMarket>): (r: seq<TextFields>)
    ensures |r| == |ks| && forall i :: 0 <= i < |ks| ==> r[i] == KalshiTextFields(ks[i])
  {
    seq(|ks|, i requires 0 <= i < |ks| => KalshiTextFields(ks[i]))
  }

  function PolyFieldsOf(ps: seq<PolyMarket>): (r: seq<TextFields>)
    ensures |r| == |ps| && forall i :: 0 <= i < |ps| ==> r[i] == PolyTextFields(ps[i])
  {
    seq(|ps|, i requires 0 <= i < |ps| => PolyTextFields(ps[i]))
  }

  datatype SimilarPair = SimilarPair(kalshi: KalshiMarket, poly: PolyMarket, similarity: real)

  /** A position (Kalshi row, Polymarket column) in the similarity matrix. */
  datatype Cell = Cell(row: nat, col: nat)

  /** Row-major order on cells. */
  predicate Before(a: Cell, b: Cell) {
    a.row < b.row || (a.row == b.row && a.col < b.col)
  }

  predicate RowMajor(cells: seq<Cell>) {
    forall s, t :: 0 <= s < t < |cells| ==> Before(cells[s], cells[t])
  }

  predicate IsMatrix(sim: seq<seq<real>>, rows: nat, cols: nat) {
    |sim| == rows && forall i :: 0 <= i < rows ==> |sim[i]| == cols
  }

  /** Cells of row `i` among its first `j` columns whose score reaches the threshold. */
  function RowMatches(sim: seq<seq<real>>, threshold: real, i: nat, j: nat): (r: seq<Cell>)
    requires i < |sim| && j <= |sim[i]|
    ensures forall c :: c in r ==> c.row == i && c.col < j && sim[i][c.col] >= threshold
    ensures RowMajor(r)
  {
    if j == 0 then []
    else RowMatches(sim, threshold, i, j - 1) + (if sim[i][j - 1] >= threshold then [Cell(i, j - 1)] else [])
  }

  /** Cells of the first `n` rows whose score reaches the threshold, in row-major order. */
  function Matches(sim: seq<seq<real>>, threshold: real, n: nat): (r: seq<Cell>)
    requires n <= |sim|
    ensures forall c :: c in r ==> c.row < n && c.col < |sim[c.row]| && sim[c.row][c.col] >= threshold
    ensures RowMajor(r)
  {
    if n == 0 then []
    else Matches(sim, threshold, n - 1) + RowMatches(sim, threshold, n - 1, |sim[n - 1]|)
  }

  lemma {:induction false} RowMatchesComplete(sim: seq<seq<real>>, threshold: real, i: nat, j: nat, col: nat)
    requires i < |sim| && j <= |sim[i]| && col < j
    requires sim[i][col] >= threshold
    ensures Cell(i, col) in RowMatches(sim, threshold, i, j)
  {
    if col < j - 1 {
      RowMatchesComplete(sim, threshold, i, j - 1, col);
    }
  }

  lemma {:induction false} MatchesComplete(sim: seq<seq<real>>, threshold: real, n: nat, row: nat, col: nat)
    requires n <= |sim| && row < n && col < |sim[row]|
    requires sim[row][col] >= threshold
    ensures Cell(row, col) in Matches(sim, threshold, n)
  {
    if row < n - 1 {
      MatchesComplete(sim, threshold, n - 1, row, col);
    } else {
      RowMatchesComplete(sim, threshold, row, |sim[row]|, col);
    }
  }

  /**
   * A cell is matched exactly when its score is at least the threshold:
   * a score equal to the threshold is included.
   */
  lemma MatchesIff(sim: seq<seq<real>>, threshold: real, row: nat, col: nat)
    requires row < |sim| && col < |sim[row]|
    ensures Cell(row, col) in Matches(sim, threshold, |sim|) <==> sim[row][col] >= threshold
  {
    if sim[row][col] >= threshold {
      MatchesComplete(sim, threshold, |sim|, row, col);
    }
  }

  /** `pairs` lists, for each cell in order, the two records and their score. */
  predicate Emits(pairs: seq<SimilarPair>, cells: seq<Cell>, kalshi: seq<KalshiMarket>, poly: seq<PolyMarket>, sim: seq<seq<real>>)
    requires IsMatrix(sim, |kalshi|, |poly|)
  {
    |pairs| == |cells| &&
    forall t :: 0 <= t < |cells| ==>
      cells[t].row < |kalshi| && cells[t].col < |poly| &&
      pairs[t] == SimilarPair(kalshi[cells[t].row], poly[cells[t].col], sim[cells[t].row][cells[t].col])
  }

  lemma EmitsSnoc(pairs: seq<SimilarPair>, cells: seq<Cell>, kalshi: seq<KalshiMarket>, poly: seq<PolyMarket>, sim: seq<seq<real>>, c: Cell)
    requires IsMatrix(sim, |kalshi|, |poly|)
    requires Emits(pairs, cells, kalshi, poly, sim)
    requires c.row < |kalshi| && c.col < |poly|
    ensures Emits(pairs + [SimilarPair(kalshi[c.row], poly[c.col], sim[c.row][c.col])], cells + [c], kalshi, poly, sim)
  {
  }

  /** The threshold loop of `find_similar_markets` over a precomputed matrix. */
  method ThresholdPairs(kalshi: seq<KalshiMarket>, poly: seq<PolyMarket>, sim: seq<seq<real>>, threshold: real)
    returns (pairs: seq<SimilarPair>)
    requires IsMatrix(sim, |kalshi|, |poly|)
    ensures Emits(pairs, Matches(sim, threshold, |sim|), kalshi, poly, sim)
  {
    pairs := [];
    for i := 0 to |kalshi|
      invariant Emits(pairs, Matches(sim, threshold, i), kalshi, poly, sim)
    {
      for j := 0 to |poly|
        invariant Emits(pairs, Matches(sim, threshold, i) + RowMatches(sim, threshold, i, j), kalshi, poly, sim)
      {
        ghost var done := Matches(sim, threshold, i) + RowMatches(sim, threshold, i, j);
        if sim[i][j] >= threshold {
          EmitsSnoc(pairs, done, kalshi, poly, sim, Cell(i, j));
          pairs := pairs + [SimilarPair(kalshi[i], poly[j], sim[i][j])];
          assert done + [Cell(i, j)] == Matches(sim, threshold, i) + RowMatches(sim, threshold, i, j + 1);
        } else {
          assert done == Matches(sim, threshold, i) + RowMatches(sim, threshold, i, j + 1);
        }
      }
      assert Matches(sim, threshold, i + 1) == Matches(sim, threshold, i) + RowMatches(sim, threshold, i, |poly|);
    }
  }

  /**
   * `find_similar_markets`: the texts of both venues (a missing title or
   * question raises KeyError); the similarity of a venue without records
   * raises ValueError; otherwise one pair per matrix cell whose score
   * reaches the threshold, in row-major order.
   */
  method FindSimilarMarkets(kalshi: seq<KalshiMarket>, poly: seq<PolyMarket>, sim: seq<seq<real>>,
                            threshold: real := DefaultSimilarityThreshold)
    returns (r: Result<seq<SimilarPair>, PyError>)
    requires IsMatrix(sim, |kalshi|, |poly|)
    ensures var texts := AllHaveText(KalshiFieldsOf(kalshi), "kalshi") && AllHaveText(PolyFieldsOf(poly), "polymarket");
      && (r.Failure? <==> !texts || kalshi == [] || poly == [])
      && (r.Failure? ==> r.error == if texts then ValueError else KeyError)
    ensures r.Success? ==> Emits(r.value, Matches(sim, threshold, |sim|), kalshi, poly, sim)
  {
    TextsSucceedIff(KalshiFieldsOf(kalshi), "kalshi");
    TextsSucceedIff(PolyFieldsOf(poly), "polymarket");
    var kalshiTexts := Texts(KalshiFieldsOf(kalshi), "kalshi");
    if kalshiTexts.Failure? {
      return Failure(kalshiTexts.error);
    }
    var polyTexts := Texts(PolyFieldsOf(poly), "polymarket");
    if polyTexts.Failure? {
      return Failure(polyTexts.error);
    }
    if kalshi == [] || poly == [] {
      return Failure(ValueError);
    }
    var pairs := ThresholdPairs(kalshi, poly, sim, threshold);
    return Success(pairs);
  }
}
