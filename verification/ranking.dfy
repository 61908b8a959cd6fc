/** Top-K selection as `sorted(items, key=count, reverse=True)[:k]`: Python's
    sort is stable even when reversed, so entries with equal counts keep the
    order they had in the input. */
module Ranking {
  import opened Counting

  predicate NonIncreasing(s: seq<Entry>) {
    forall i, j :: 0 <= i < j < |s| ==> s[i].1 >= s[j].1
  }

  /** The entries of `s` whose count is `c`, in their order in `s`. */
  function WithCount(s: seq<Entry>, c: nat): seq<Entry> {
    if s == [] then []
    else if s[0].1 == c then [s[0]] + WithCount(s[1..], c)
    else WithCount(s[1..], c)
  }

  /** Places `e` into the non-increasing `s` before the first entry whose
      count is not larger than its own. */
  function InsertDescending(e: Entry, s: seq<Entry>): (r: seq<Entry>)
    ensures |r| == |s| + 1
    ensures multiset(r) == multiset(s) + multiset{e}
    ensures r[0] == e || (s != [] && r[0] == s[0])
  {
    if s == [] || s[0].1 <= e.1 then [e] + s
    else
      assert s == [s[0]] + s[1..];
      [s[0]] + InsertDescending(e, s[1..])
  }

  /** A stable sort of `s` by count, largest first. */
  function SortDescending(s: seq<Entry>): (r: seq<Entry>)
    ensures |r| == |s|
    ensures multiset(r) == multiset(s)
  {
    if s == [] then []
    else
      assert s == [s[0]] + s[1..];
      InsertDescending(s[0], SortDescending(s[1..]))
  }

  function Min(a: nat, b: nat): nat {
    if a < b then a else b
  }

  /** The first `k` entries of the sorted list. */
  function TopK(s: seq<Entry>, k: nat): (r: seq<Entry>)
    ensures |r| == Min(k, |s|)
  {
    SortDescending(s)[..Min(k, |s|)]
  }

  lemma {:induction false} InsertKeepsOrder(e: Entry, s: seq<Entry>)
    requires NonIncreasing(s)
    ensures NonIncreasing(InsertDescending(e, s))
  {
    if s != [] && s[0].1 > e.1 {
      InsertKeepsOrder(e, s[1..]);
      var r := InsertDescending(e, s[1..]);
      assert s[0].1 >= r[0].1;
    }
  }

  /** The sorted list is ordered by count, largest first. */
  lemma {:induction false} SortIsOrdered(s: seq<Entry>)
    ensures NonIncreasing(SortDescending(s))
  {
    if s != [] {
      SortIsOrdered(s[1..]);
      InsertKeepsOrder(s[0], SortDescending(s[1..]));
    }
  }

  lemma {:induction false} InsertIsStable(e: Entry, s: seq<Entry>, c: nat)
    requires NonIncreasing(s)
    ensures WithCount(InsertDescending(e, s), c) == if e.1 == c then [e] + WithCount(s, c) else WithCount(s, c)
  {
    if s != [] && s[0].1 > e.1 {
      InsertIsStable(e, s[1..], c);
      if e.1 == c {
        assert s[0].1 != c;
      }
    }
  }

  /** Stability: for every count, the entries with that count appear in the
      sorted list in the same order as in the input. */
  lemma {:induction false} SortIsStable(s: seq<Entry>, c: nat)
    ensures WithCount(SortDescending(s), c) == WithCount(s, c)
  {
    if s != [] {
      SortIsStable(s[1..], c);
      SortIsOrdered(s[1..]);
      InsertIsStable(s[0], SortDescending(s[1..]), c);
    }
  }

  predicate IsPrefix(p: seq<Entry>, s: seq<Entry>) {
    |p| <= |s| && p == s[..|p|]
  }

  lemma {:induction false} WithCountOfPrefix(s: seq<Entry>, n: nat, c: nat)
    requires n <= |s|
    ensures IsPrefix(WithCount(s[..n], c), WithCount(s, c))
  {
    if n > 0 {
      assert s[..n][1..] == s[1..][..n - 1];
      WithCountOfPrefix(s[1..], n - 1, c);
    }
  }

  /** The selection has min(k, |s|) entries, all taken from `s`, largest
      count first. */
  lemma TopKSelects(s: seq<Entry>, k: nat)
    ensures |TopK(s, k)| == Min(k, |s|)
    ensures multiset(TopK(s, k)) <= multiset(s)
    ensures NonIncreasing(TopK(s, k))
  {
    var sorted := SortDescending(s);
    SortIsOrdered(s);
    assert sorted == TopK(s, k) + sorted[Min(k, |s|)..];
  }

  /** No entry left out has a larger count than an entry selected. */
  lemma TopKExcludesSmaller(s: seq<Entry>, k: nat)
    ensures forall e, x :: e in s && e !in TopK(s, k) && x in TopK(s, k) ==> e.1 <= x.1
  {
    var sorted, m := SortDescending(s), Min(k, |s|);
    SortIsOrdered(s);
    forall e, x | e in s && e !in TopK(s, k) && x in TopK(s, k) ensures e.1 <= x.1 {
      assert e in multiset(sorted);
      var i :| 0 <= i < |sorted| && sorted[i] == e;
      var j :| 0 <= j < m && sorted[..m][j] == x;
    }
  }

  /** Ties keep first-seen order: for every count, the selected entries with
      that count are the first ones with that count in `s`. */
  lemma TopKKeepsTieOrder(s: seq<Entry>, k: nat, c: nat)
    ensures IsPrefix(WithCount(TopK(s, k), c), WithCount(s, c))
  {
    WithCountOfPrefix(SortDescending(s), Min(k, |s|), c);
    SortIsStable(s, c);
  }
}
