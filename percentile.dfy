/**
 * Python's `sorted()` on a list of integers and the nearest-rank p95 that
 * the metrics and alert tools both compute from it:
 * `sorted(v)[max(0, int(len(v) * 0.95) - 1)]`.
 */
module Percentile {

  predicate Sorted(s: seq<int>) {
    forall i, j :: 0 <= i < j < |s| ==> s[i] <= s[j]
  }

  function Insert(x: int, s: seq<int>): (r: seq<int>)
    requires Sorted(s)
    ensures Sorted(r) && multiset(r) == multiset(s) + multiset{x}
  {
    if s == [] then [x]
    else if x <= s[0] then [x] + s
    else
      var rest := Insert(x, s[1..]);
      assert s == [s[0]] + s[1..];
      HeadBelowInsert(s, x, rest);
      [s[0]] + rest
  }

  /** The head of a sorted list stays in front when a larger value goes into its tail. */
  lemma HeadBelowInsert(s: seq<int>, x: int, rest: seq<int>)
    requires Sorted(s) && s != [] && s[0] < x
    requires Sorted(rest) && multiset(rest) == multiset(s[1..]) + multiset{x}
    ensures Sorted([s[0]] + rest)
  {
    forall j | 0 <= j < |rest| ensures s[0] <= rest[j] {
      assert rest[j] in multiset(rest);
      if rest[j] != x {
        assert rest[j] in s[1..];
      }
    }
  }

  /** `sorted(s)`: the ascending permutation of `s`. */
  function SortAsc(s: seq<int>): (r: seq<int>)
    ensures Sorted(r) && multiset(r) == multiset(s) && |r| == |s|
  {
    if s == [] then []
    else
      assert s == [s[0]] + s[1..];
      Insert(s[0], SortAsc(s[1..]))
  }

  /** Number of samples strictly below `v`. */
  function CountLess(s: seq<int>, v: int): nat {
    if s == [] then 0 else (if s[0] < v then 1 else 0) + CountLess(s[1..], v)
  }

  /** Number of samples at most `v`. */
  function CountAtMost(s: seq<int>, v: int): nat {
    if s == [] then 0 else (if s[0] <= v then 1 else 0) + CountAtMost(s[1..], v)
  }

  /**
   * The p95 index `max(0, int(n * 0.95) - 1)`, with the float product
   * `n * 0.95` taken as the exact rational `n * 95 / 100`.
   */
  function NearestRankIndex(n: nat): (i: nat)
    requires n > 0
    ensures i < n
    ensures 100 * i < 95 * n
  {
    var k := n * 95 / 100;
    if k - 1 > 0 then k - 1 else 0
  }

  /** The nearest-rank 95th percentile of a non-empty sample list. */
  function NearestRank(s: seq<int>): (r: int)
    requires |s| > 0
    ensures r in s
  {
    var t := SortAsc(s);
    assert t[NearestRankIndex(|s|)] in multiset(t);
    t[NearestRankIndex(|s|)]
  }

  // ---------------------------------------------------------------------------
  // Lemmas
  // ---------------------------------------------------------------------------

  lemma {:induction false} InsertCounts(x: int, s: seq<int>, v: int)
    requires Sorted(s)
    ensures CountLess(Insert(x, s), v) == CountLess(s, v) + (if x < v then 1 else 0)
    ensures CountAtMost(Insert(x, s), v) == CountAtMost(s, v) + (if x <= v then 1 else 0)
  {
    var r := Insert(x, s);
    if s == [] {
      assert r == [x] && r[1..] == [];
    } else if x <= s[0] {
      assert r == [x] + s;
      assert r[0] == x && r[1..] == s;
    } else {
      var t := s[1..];
      assert Sorted(t);
      assert r == [s[0]] + Insert(x, t);
      assert r[0] == s[0] && r[1..] == Insert(x, t);
      InsertCounts(x, t, v);
    }
  }

  /** Sorting keeps the number of samples below / at most any value. */
  lemma {:induction false} SortKeepsCounts(s: seq<int>, v: int)
    ensures CountLess(SortAsc(s), v) == CountLess(s, v)
    ensures CountAtMost(SortAsc(s), v) == CountAtMost(s, v)
  {
    if s != [] {
      SortKeepsCounts(s[1..], v);
      InsertCounts(s[0], SortAsc(s[1..]), v);
    }
  }

  lemma {:induction false} SortedRank(t: seq<int>, k: nat)
    requires Sorted(t) && k < |t|
    ensures CountLess(t, t[k]) <= k
    ensures CountAtMost(t, t[k]) >= k + 1
  {
    if k == 0 {
      NoneLess(t[1..], t[0]);
    } else {
      SortedRank(t[1..], k - 1);
    }
  }

  lemma {:induction false} NoneLess(s: seq<int>, v: int)
    requires forall j :: 0 <= j < |s| ==> v <= s[j]
    ensures CountLess(s, v) == 0
  {
    if s != [] {
      NoneLess(s[1..], v);
    }
  }

  /**
   * The reported p95 is a nearest-rank percentile: fewer than `idx + 1`
   * samples lie strictly below it, and at least `idx + 1` lie at or below it.
   */
  lemma NearestRankIsRank(s: seq<int>)
    requires |s| > 0
    ensures CountLess(s, NearestRank(s)) <= NearestRankIndex(|s|) < CountAtMost(s, NearestRank(s))
  {
    var t := SortAsc(s);
    var k := NearestRankIndex(|s|);
    SortedRank(t, k);
    SortKeepsCounts(s, t[k]);
  }

  /** Sorting an already sorted list changes nothing. */
  lemma {:induction false} SortOfSorted(s: seq<int>)
    requires Sorted(s)
    ensures SortAsc(s) == s
  {
    if s != [] {
      SortOfSorted(s[1..]);
      assert s == [s[0]] + s[1..];
    }
  }

  /** Sorting is determined by the multiset: two sorted permutations of each other are equal. */
  lemma {:induction false} SortedUnique(p: seq<int>, q: seq<int>)
    requires Sorted(p) && Sorted(q) && multiset(p) == multiset(q)
    ensures p == q
  {
    if p != [] {
      assert q != [] by {
        assert p[0] in multiset(q);
      }
      assert p[0] in multiset(q) && q[0] in multiset(p);
      assert p[0] == q[0];
      assert p == [p[0]] + p[1..] && q == [q[0]] + q[1..];
      assert multiset(p) == multiset{p[0]} + multiset(p[1..]);
      assert multiset(q) == multiset{q[0]} + multiset(q[1..]);
      forall x
        ensures multiset(p[1..])[x] == multiset(q[1..])[x]
      {
        assert multiset(p)[x] == multiset{p[0]}[x] + multiset(p[1..])[x];
        assert multiset(q)[x] == multiset{q[0]}[x] + multiset(q[1..])[x];
      }
      assert multiset(p[1..]) == multiset(q[1..]);
      SortedUnique(p[1..], q[1..]);
    }
  }
}
