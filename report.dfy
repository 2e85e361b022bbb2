/**
 * The report ordering (utils.py `generate_arbitrage_report`): soonest
 * expiration first, then the larger YES margin, then the larger NO margin.
 * The sort is modelled as an insertion sort; the DataFrame is the sequence
 * of its rows.
 */
module Report {
  import opened Scoring

  /** The three sort columns of a row. */
  datatype SortKey = SortKey(expiration: int, yes: real, no: real)

  function KeyOf(o: Opportunity): SortKey {
    SortKey(o.expirationDate, o.yesArbitrage, o.noArbitrage)
  }

  /** `a` may come before `b`: ascending expiration, descending YES, descending NO. */
  predicate ReportLe(a: Opportunity, b: Opportunity) {
    a.expirationDate < b.expirationDate ||
    (a.expirationDate == b.expirationDate &&
      (a.yesArbitrage > b.yesArbitrage ||
       (a.yesArbitrage == b.yesArbitrage && a.noArbitrage >= b.noArbitrage)))
  }

  lemma ReportLeTotal(a: Opportunity, b: Opportunity)
    ensures ReportLe(a, b) || ReportLe(b, a)
  {
  }

  lemma ReportLeTransitive(a: Opportunity, b: Opportunity, c: Opportunity)
    requires ReportLe(a, b) && ReportLe(b, c)
    ensures ReportLe(a, c)
  {
  }

  /** Two rows that may each come first share all three sort keys. */
  lemma ReportLeAntisymmetric(a: Opportunity, b: Opportunity)
    requires ReportLe(a, b) && ReportLe(b, a)
    ensures KeyOf(a) == KeyOf(b)
  {
  }

  predicate SortedForReport(s: seq<Opportunity>) {
    forall i, j :: 0 <= i < j < |s| ==> ReportLe(s[i], s[j])
  }

  lemma ConsSorted(x: Opportunity, t: seq<Opportunity>)
    requires SortedForReport(t)
    requires forall j :: 0 <= j < |t| ==> ReportLe(x, t[j])
    ensures SortedForReport([x] + t)
  {
    var u := [x] + t;
    forall i, j | 0 <= i < j < |u| ensures ReportLe(u[i], u[j]) {
      assert u[j] == t[j - 1];
      if i > 0 { assert u[i] == t[i - 1]; }
    }
  }

  /** Every row of `t` is `o` or a row of `rest`, all of which `head` may precede. */
  lemma HeadPrecedes(head: Opportunity, o: Opportunity, rest: seq<Opportunity>, t: seq<Opportunity>)
    requires !ReportLe(o, head)
    requires forall j :: 0 <= j < |rest| ==> ReportLe(head, rest[j])
    requires multiset(t) == multiset(rest) + multiset{o}
    ensures forall j :: 0 <= j < |t| ==> ReportLe(head, t[j])
  {
    forall j | 0 <= j < |t| ensures ReportLe(head, t[j]) {
      assert t[j] in multiset(t);
      if t[j] != o {
        assert t[j] in multiset(rest);
        var m :| 0 <= m < |rest| && rest[m] == t[j];
      } else {
        ReportLeTotal(o, head);
      }
    }
  }

  function Insert(o: Opportunity, s: seq<Opportunity>): (r: seq<Opportunity>)
    requires SortedForReport(s)
    ensures SortedForReport(r)
    ensures multiset(r) == multiset(s) + multiset{o}
    ensures |r| == |s| + 1
  {
    if s == [] then [o]
    else if ReportLe(o, s[0]) then
      ConsSorted(o, s);
      [o] + s
    else
      var rest := s[1..];
      var t := Insert(o, rest);
      assert s == [s[0]] + rest;
      HeadPrecedes(s[0], o, rest, t);
      ConsSorted(s[0], t);
      [s[0]] + t
  }

  /** `generate_arbitrage_report`: the rows sorted by the three keys. */
  function GenerateArbitrageReport(opportunities: seq<Opportunity>): (r: seq<Opportunity>)
    ensures SortedForReport(r)
    ensures multiset(r) == multiset(opportunities)
    ensures |r| == |opportunities|
  {
    if opportunities == [] then []
    else
      assert opportunities == [opportunities[0]] + opportunities[1..];
      Insert(opportunities[0], GenerateArbitrageReport(opportunities[1..]))
  }

  /** Removing one row from a sorted report leaves it sorted. */
  lemma SortedRemove(t: seq<Opportunity>, k: nat)
    requires SortedForReport(t) && k < |t|
    ensures SortedForReport(t[..k] + t[k + 1..])
  {
    var u := t[..k] + t[k + 1..];
    forall i, j | 0 <= i < j < |u| ensures ReportLe(u[i], u[j]) {
      var i' := if i < k then i else i + 1;
      var j' := if j < k then j else j + 1;
      assert u[i] == t[i'] && u[j] == t[j'];
    }
  }

  /** The first rows of two sorted arrangements of the same rows share their keys. */
  lemma FirstKeysAgree(s: seq<Opportunity>, t: seq<Opportunity>)
    requires SortedForReport(s) && SortedForReport(t)
    requires multiset(s) == multiset(t) && s != []
    ensures t != [] && KeyOf(s[0]) == KeyOf(t[0])
  {
    assert s[0] in multiset(t);
    var k :| 0 <= k < |t| && t[k] == s[0];
    assert t[0] in multiset(s);
    var m :| 0 <= m < |s| && s[m] == t[0];
    assert m == 0 || ReportLe(s[0], s[m]);
    assert k == 0 || ReportLe(t[0], t[k]);
    ReportLeAntisymmetric(s[0], t[0]);
  }

  /** In a sorted report, the rows between two rows with one key all have that key. */
  lemma PrefixSharesKey(t: seq<Opportunity>, k: nat)
    requires SortedForReport(t) && k < |t|
    requires KeyOf(t[0]) == KeyOf(t[k])
    ensures forall i :: 0 <= i <= k ==> KeyOf(t[i]) == KeyOf(t[k])
  {
    forall i | 0 < i < k ensures KeyOf(t[i]) == KeyOf(t[k]) {
      assert ReportLe(t[i], t[k]) && ReportLe(t[0], t[i]);
      ReportLeAntisymmetric(t[i], t[k]);
    }
  }

  lemma MultisetRemoveHead(s: seq<Opportunity>, t: seq<Opportunity>, k: nat)
    requires multiset(s) == multiset(t) && s != [] && k < |t| && t[k] == s[0]
    ensures multiset(s[1..]) == multiset(t[..k] + t[k + 1..])
  {
    assert t == t[..k] + [t[k]] + t[k + 1..];
    assert s == [s[0]] + s[1..];
    calc {
      multiset(s[1..]) + multiset{s[0]};
      multiset(s);
      multiset(t);
      multiset(t[..k]) + multiset{t[k]} + multiset(t[k + 1..]);
      multiset(t[..k] + t[k + 1..]) + multiset{s[0]};
    }
    var a, b := multiset(s[1..]), multiset(t[..k] + t[k + 1..]);
    forall x ensures a[x] == b[x] {
      assert (a + multiset{s[0]})[x] == (b + multiset{s[0]})[x];
    }
  }

  /** Keys of `t` with row `k` removed, shifted: positions up to `k` all carry `t[k]`'s key. */
  lemma KeysAfterRemoval(s: seq<Opportunity>, t: seq<Opportunity>, k: nat)
    requires |s| == |t| && k < |t| && s != []
    requires KeyOf(s[0]) == KeyOf(t[k])
    requires forall i :: 0 <= i <= k ==> KeyOf(t[i]) == KeyOf(t[k])
    requires forall i :: 0 <= i < |s| - 1 ==> KeyOf(s[1..][i]) == KeyOf((t[..k] + t[k + 1..])[i])
    ensures forall i :: 0 <= i < |s| ==> KeyOf(s[i]) == KeyOf(t[i])
  {
    var t' := t[..k] + t[k + 1..];
    forall i | 0 < i < |s| ensures KeyOf(s[i]) == KeyOf(t[i]) {
      assert s[i] == s[1..][i - 1];
      if i <= k {
        assert t'[i - 1] == t[i - 1];
      } else {
        assert t'[i - 1] == t[i];
      }
    }
  }

  /**
   * The report order is determined up to rows with equal sort keys: any two
   * sorted arrangements of the same rows agree on the keys at every position.
   */
  lemma {:induction false} SortedKeysUnique(s: seq<Opportunity>, t: seq<Opportunity>)
    requires SortedForReport(s) && SortedForReport(t)
    requires multiset(s) == multiset(t)
    ensures |s| == |t|
    ensures forall i :: 0 <= i < |s| ==> KeyOf(s[i]) == KeyOf(t[i])
  {
    assert |s| == |multiset(s)| == |multiset(t)| == |t|;
    if s != [] {
      FirstKeysAgree(s, t);
      assert s[0] in multiset(t);
      var k :| 0 <= k < |t| && t[k] == s[0];
      PrefixSharesKey(t, k);
      SortedRemove(t, k);
      MultisetRemoveHead(s, t, k);
      assert SortedForReport(s[1..]);
      SortedKeysUnique(s[1..], t[..k] + t[k + 1..]);
      KeysAfterRemoval(s, t, k);
    }
  }
}
