/** Concatenation of pages of records. */
module Seqs {

  function Flatten<T>(pages: seq<seq<T>>): seq<T> {
    if pages == [] then [] else Flatten(pages[..|pages| - 1]) + pages[|pages| - 1]
  }

  lemma {:induction false} FlattenConcat<T>(a: seq<seq<T>>, b: seq<seq<T>>)
    ensures Flatten(a + b) == Flatten(a) + Flatten(b)
  {
    if b == [] {
      assert a + b == a;
    } else {
      FlattenConcat(a, b[..|b| - 1]);
      assert (a + b)[..|a + b| - 1] == a + b[..|b| - 1];
    }
  }

  lemma FlattenSnoc<T>(pages: seq<seq<T>>, k: nat)
    requires k < |pages|
    ensures Flatten(pages[..k + 1]) == Flatten(pages[..k]) + pages[k]
  {
    assert pages[..k + 1][..k] == pages[..k];
  }

  lemma FlattenSplit<T>(pages: seq<seq<T>>, b: nat, e: nat)
    requires b <= e <= |pages|
    ensures Flatten(pages[..e]) == Flatten(pages[..b]) + Flatten(pages[b..e])
  {
    assert pages[..e] == pages[..b] + pages[b..e];
    FlattenConcat(pages[..b], pages[b..e]);
  }

  /** Some element of a non-empty list satisfies `P` exactly when one before the last does, or the last does. */
  lemma ExistsSnoc<T>(xs: seq<T>, P: T -> bool)
    requires xs != []
    ensures var init := xs[..|xs| - 1];
      (exists i :: 0 <= i < |xs| && P(xs[i])) <==>
      (exists i :: 0 <= i < |init| && P(init[i])) || P(xs[|xs| - 1])
  {
    var init := xs[..|xs| - 1];
    if exists i :: 0 <= i < |init| && P(init[i]) {
      var i :| 0 <= i < |init| && P(init[i]);
      assert xs[i] == init[i];
    }
    if exists i :: 0 <= i < |xs| && P(xs[i]) {
      var i :| 0 <= i < |xs| && P(xs[i]);
      if i < |init| { assert init[i] == xs[i]; }
    }
  }
}
