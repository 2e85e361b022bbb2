/**
 * Keep-first deduplication, the merge both venues apply before saving:
 * existing snapshot first, new records after, one record per identity key,
 * kept at its first appearance.
 */
module Dedup {

  /** The identity keys occurring in `s`. */
  function KeySet<T, K>(s: seq<T>, key: T -> K): set<K> {
    set i | 0 <= i < |s| :: key(s[i])
  }

  lemma KeySetConcat<T, K>(a: seq<T>, b: seq<T>, key: T -> K)
    ensures KeySet(a + b, key) == KeySet(a, key) + KeySet(b, key)
  {
    var ab := a + b;
    forall k | k in KeySet(ab, key) ensures k in KeySet(a, key) + KeySet(b, key) {
      var i :| 0 <= i < |ab| && key(ab[i]) == k;
      if i >= |a| { assert key(b[i - |a|]) == k; }
    }
    forall k | k in KeySet(a, key) ensures k in KeySet(ab, key) {
      var i :| 0 <= i < |a| && key(a[i]) == k;
      assert ab[i] == a[i];
    }
    forall k | k in KeySet(b, key) ensures k in KeySet(ab, key) {
      var i :| 0 <= i < |b| && key(b[i]) == k;
      assert ab[|a| + i] == b[i];
    }
  }

  /** No two records of `s` share an identity key. */
  predicate KeysDistinct<T, K(==)>(s: seq<T>, key: T -> K) {
    forall i, j :: 0 <= i < j < |s| ==> key(s[i]) != key(s[j])
  }

  /** `s[i]` is the first record of `s` with its key. */
  predicate IsFirst<T, K(==)>(s: seq<T>, i: nat, key: T -> K)
    requires i < |s|
  {
    forall j :: 0 <= j < i ==> key(s[j]) != key(s[i])
  }

  /**
   * Reference definition: the records of `s[..n]` that are the first with
   * their key, in their order in `s`.
   */
  function Firsts<T, K(==)>(s: seq<T>, key: T -> K, n: nat): seq<T>
    requires n <= |s|
  {
    if n == 0 then []
    else Firsts(s, key, n - 1) + (if IsFirst(s, n - 1, key) then [s[n - 1]] else [])
  }

  /** Left-to-right scan that drops a record whose key was already seen. */
  function UniqueBy<T, K(==)>(s: seq<T>, key: T -> K): (r: seq<T>)
    ensures KeysDistinct(r, key)
    ensures KeySet(r, key) == KeySet(s, key)
    ensures forall x :: x in r ==> x in s
    ensures |r| <= |s|
  {
    if s == [] then []
    else
      var r := UniqueBy(s[..|s| - 1], key);
      var last := s[|s| - 1];
      assert s == s[..|s| - 1] + [last];
      KeySetConcat(s[..|s| - 1], [last], key);
      KeySetConcat(r, [last], key);
      if key(last) in KeySet(r, key) then r else r + [last]
  }

  lemma {:induction false} UniqueByIsFirsts<T, K>(s: seq<T>, key: T -> K, n: nat)
    requires n <= |s|
    ensures UniqueBy(s[..n], key) == Firsts(s, key, n)
  {
    if n > 0 {
      UniqueByIsFirsts(s, key, n - 1);
      var prefix := s[..n - 1];
      assert s[..n][..n - 1] == prefix && s[..n][n - 1] == s[n - 1];
      var r := UniqueBy(prefix, key);
      assert UniqueBy(s[..n], key) == if key(s[n - 1]) in KeySet(r, key) then r else r + [s[n - 1]];
      assert KeySet(r, key) == KeySet(prefix, key);
      if IsFirst(s, n - 1, key) {
        assert key(s[n - 1]) !in KeySet(prefix, key);
      } else {
        var j :| 0 <= j < n - 1 && key(s[j]) == key(s[n - 1]);
        assert prefix[j] == s[j];
      }
    }
  }

  /** The merge: existing records first, then the new ones, deduplicated. */
  function Merge<T, K(==)>(existing: seq<T>, incoming: seq<T>, key: T -> K): (r: seq<T>)
    ensures r == Firsts(existing + incoming, key, |existing + incoming|)
  {
    var all := existing + incoming;
    UniqueByIsFirsts(all, key, |all|);
    assert all[..|all|] == all;
    UniqueBy(all, key)
  }

  lemma {:induction false} UniqueOfDistinct<T, K>(s: seq<T>, key: T -> K)
    requires KeysDistinct(s, key)
    ensures UniqueBy(s, key) == s
  {
    if s != [] {
      var init := s[..|s| - 1];
      UniqueOfDistinct(init, key);
      assert key(s[|s| - 1]) !in KeySet(init, key);
      assert s == init + [s[|s| - 1]];
    }
  }

  /** Deduplicating `r + t` changes nothing when `t` brings no new key. */
  lemma {:induction false} UniqueAbsorbs<T, K>(r: seq<T>, t: seq<T>, key: T -> K)
    requires KeysDistinct(r, key)
    requires KeySet(t, key) <= KeySet(r, key)
    ensures UniqueBy(r + t, key) == r
  {
    if t == [] {
      assert r + t == r;
      UniqueOfDistinct(r, key);
    } else {
      var init := t[..|t| - 1];
      assert KeySet(init, key) <= KeySet(t, key);
      UniqueAbsorbs(r, init, key);
      var last := t[|t| - 1];
      assert (r + t)[..|r + t| - 1] == r + init;
      assert key(last) in KeySet(t, key);
    }
  }

  /** Merging the same batch a second time changes nothing. */
  lemma MergeIdempotent<T, K>(existing: seq<T>, incoming: seq<T>, key: T -> K)
    ensures Merge(Merge(existing, incoming, key), incoming, key) == Merge(existing, incoming, key)
  {
    var m := Merge(existing, incoming, key);
    KeySetConcat(existing, incoming, key);
    UniqueAbsorbs(m, incoming, key);
  }

  /**
   * A snapshot with distinct keys survives a merge unchanged at its front:
   * on a shared key the existing record wins over the new one.
   */
  lemma {:induction false} MergeKeepsExisting<T, K>(existing: seq<T>, incoming: seq<T>, key: T -> K, n: nat)
    requires KeysDistinct(existing, key)
    requires n <= |incoming|
    ensures |existing| <= |UniqueBy(existing + incoming[..n], key)|
    ensures UniqueBy(existing + incoming[..n], key)[..|existing|] == existing
  {
    if n == 0 {
      assert existing + incoming[..0] == existing;
      UniqueOfDistinct(existing, key);
    } else {
      MergeKeepsExisting(existing, incoming, key, n - 1);
      assert (existing + incoming[..n])[..|existing + incoming[..n]| - 1] == existing + incoming[..n - 1];
    }
  }
}
