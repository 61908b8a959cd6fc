/** Occurrence counts kept the way a `defaultdict(int)` keeps them: a list of
    (key, count) entries in the order the keys were first seen. */
module Counting {

  type Entry = (string, nat)

  function Keys(counts: seq<Entry>): (ks: seq<string>)
    ensures |ks| == |counts|
    ensures forall i :: 0 <= i < |counts| ==> ks[i] == counts[i].0
  {
    if counts == [] then [] else [counts[0].0] + Keys(counts[1..])
  }

  predicate Distinct(ks: seq<string>) {
    forall i, j :: 0 <= i < j < |ks| ==> ks[i] != ks[j]
  }

  /** `counts[key]` of a defaultdict: the count of the key's entry, 0 when the
      key has none. */
  function Get(counts: seq<Entry>, key: string): nat {
    if counts == [] then 0
    else if counts[0].0 == key then counts[0].1
    else Get(counts[1..], key)
  }

  function SumCounts(counts: seq<Entry>): nat {
    if counts == [] then 0 else counts[0].1 + SumCounts(counts[1..])
  }

  /** `counts[key] += 1` on a defaultdict. */
  function Increment(counts: seq<Entry>, key: string): seq<Entry> {
    if counts == [] then [(key, 1)]
    else if counts[0].0 == key then [(key, counts[0].1 + 1)] + counts[1..]
    else [counts[0]] + Increment(counts[1..], key)
  }

  /** An existing key keeps its place and a new key is appended; the key's
      count goes up by one and no other count changes. */
  lemma {:induction false} IncrementSpec(counts: seq<Entry>, key: string)
    ensures Keys(Increment(counts, key)) == if key in Keys(counts) then Keys(counts) else Keys(counts) + [key]
    ensures forall k :: Get(Increment(counts, key), k) == Get(counts, k) + (if k == key then 1 else 0)
    ensures SumCounts(Increment(counts, key)) == SumCounts(counts) + 1
  {
    if counts != [] && counts[0].0 != key {
      var rest := Increment(counts[1..], key);
      IncrementSpec(counts[1..], key);
      assert Increment(counts, key)[1..] == rest;
      assert Keys([counts[0]] + rest) == [counts[0].0] + Keys(rest);
    }
  }

  /** The counts after incrementing once per key of `ks`, in order, starting
      from an empty dictionary. */
  function Tally(ks: seq<string>): seq<Entry> {
    if ks == [] then [] else Increment(Tally(ks[..|ks| - 1]), ks[|ks| - 1])
  }

  /** Counting one key more is one Increment. */
  lemma TallyStep(ks: seq<string>, i: nat)
    requires i < |ks|
    ensures Tally(ks[..i + 1]) == Increment(Tally(ks[..i]), ks[i])
  {
    assert ks[..i + 1][..i] == ks[..i];
  }

  /** The index of the first occurrence of `k` in `ks`. */
  function FirstIndex(ks: seq<string>, k: string): (n: nat)
    requires k in ks
    ensures n < |ks| && ks[n] == k
    ensures forall i :: 0 <= i < n ==> ks[i] != k
  {
    if ks[0] == k then 0 else 1 + FirstIndex(ks[1..], k)
  }

  lemma FirstIndexExtend(ks: seq<string>, x: string, k: string)
    requires k in ks + [x]
    ensures FirstIndex(ks + [x], k) == if k in ks then FirstIndex(ks, k) else |ks|
  {
    var n := FirstIndex(ks + [x], k);
    if k in ks {
      var m := FirstIndex(ks, k);
      assert (ks + [x])[m] == k;
      assert n <= m;
    } else {
      assert forall i :: 0 <= i < |ks| ==> (ks + [x])[i] != k;
    }
  }

  /** Every key is counted by the number of its occurrences. */
  lemma {:induction false} TallyCounts(ks: seq<string>)
    ensures forall k :: Get(Tally(ks), k) == multiset(ks)[k]
  {
    if ks != [] {
      var init, last := ks[..|ks| - 1], ks[|ks| - 1];
      assert ks == init + [last];
      TallyCounts(init);
      IncrementSpec(Tally(init), last);
    }
  }

  /** The keys are exactly the distinct elements of `ks`, each once, in the
      order of their first occurrence. */
  lemma {:induction false} TallyKeys(ks: seq<string>)
    ensures forall k :: k in Keys(Tally(ks)) <==> k in ks
    ensures Distinct(Keys(Tally(ks)))
    ensures forall i, j :: 0 <= i < j < |Tally(ks)| ==>
      FirstIndex(ks, Tally(ks)[i].0) < FirstIndex(ks, Tally(ks)[j].0)
  {
    if ks != [] {
      var init, last := ks[..|ks| - 1], ks[|ks| - 1];
      assert ks == init + [last];
      TallyKeys(init);
      IncrementSpec(Tally(init), last);
      var before, after := Keys(Tally(init)), Keys(Tally(ks));
      forall i, j | 0 <= i < j < |after|
        ensures FirstIndex(ks, after[i]) < FirstIndex(ks, after[j])
      {
        FirstIndexExtend(init, last, after[i]);
        FirstIndexExtend(init, last, after[j]);
        if j < |before| {
          assert after[i] == before[i] && after[j] == before[j];
        } else {
          assert after[i] == before[i] && after[j] == last && last !in init;
        }
      }
    }
  }

  /** In a table with distinct keys, an entry's count is what Get returns for
      its key. */
  lemma {:induction false} GetEntry(counts: seq<Entry>, i: nat)
    requires Distinct(Keys(counts)) && i < |counts|
    ensures Get(counts, counts[i].0) == counts[i].1
  {
    if i > 0 {
      assert Keys(counts)[0] != Keys(counts)[i];
      var tail := counts[1..];
      assert Distinct(Keys(tail)) by {
        forall a, b | 0 <= a < b < |tail| ensures Keys(tail)[a] != Keys(tail)[b] {
          assert Keys(counts)[a + 1] != Keys(counts)[b + 1];
        }
      }
      GetEntry(tail, i - 1);
    }
  }

  /** Each entry holds its key and the number of times the key occurs. */
  lemma TallyEntries(ks: seq<string>)
    ensures forall i :: 0 <= i < |Tally(ks)| ==> Tally(ks)[i].1 == multiset(ks)[Tally(ks)[i].0] > 0
  {
    TallyCounts(ks);
    TallyKeys(ks);
    forall i | 0 <= i < |Tally(ks)| ensures Tally(ks)[i].1 == multiset(ks)[Tally(ks)[i].0] > 0 {
      GetEntry(Tally(ks), i);
      assert Keys(Tally(ks))[i] == Tally(ks)[i].0;
    }
  }

  /** The counts add up to the number of keys counted. */
  lemma {:induction false} TallySum(ks: seq<string>)
    ensures SumCounts(Tally(ks)) == |ks|
  {
    if ks != [] {
      TallySum(ks[..|ks| - 1]);
      IncrementSpec(Tally(ks[..|ks| - 1]), ks[|ks| - 1]);
    }
  }

  lemma {:induction false} DistinctCardinality(ks: seq<string>)
    requires Distinct(ks)
    ensures |set k | k in ks| == |ks|
  {
    if ks != [] {
      var tail := ks[1..];
      assert Distinct(tail) by {
        forall a, b | 0 <= a < b < |tail| ensures tail[a] != tail[b] {
          assert ks[a + 1] != ks[b + 1];
        }
      }
      DistinctCardinality(tail);
      assert (set k | k in ks) == (set k | k in tail) + {ks[0]};
      assert ks[0] !in tail by {
        forall a | 0 <= a < |tail| ensures tail[a] != ks[0] {
          assert ks[a + 1] != ks[0];
        }
      }
    }
  }

  /** There is one entry per distinct key. */
  lemma TallySize(ks: seq<string>)
    ensures |Tally(ks)| == |set k | k in ks|
  {
    TallyKeys(ks);
    DistinctCardinality(Keys(Tally(ks)));
    assert (set k | k in Keys(Tally(ks))) == (set k | k in ks);
  }
}
