/**
 * The two duplicate finders: the quadratic one compares every pair of
 * positions and appends each duplicated value once, in order of first
 * occurrence; the linear one keeps a set of values seen so far and a set of
 * values seen twice. Both report the same values.
 */
module Duplicates {
  import opened Percentile

  /** `xs[i]` occurs at some other position as well. */
  predicate DupAt(xs: seq<int>, i: nat)
    requires i < |xs|
  {
    exists j :: 0 <= j < |xs| && j != i && xs[j] == xs[i]
  }

  /** `x` occurs at two distinct positions of `xs`. */
  predicate IsDup(xs: seq<int>, x: int) {
    exists i, j :: 0 <= i < j < |xs| && xs[i] == x && xs[j] == x
  }

  predicate NoRepeats(s: seq<int>) {
    forall a, b :: 0 <= a < b < |s| ==> s[a] != s[b]
  }

  /**
   * The list the quadratic finder holds once it has finished the outer
   * loop for the first `n` positions.
   */
  function DupsUpTo(xs: seq<int>, n: nat): seq<int>
    requires n <= |xs|
  {
    if n == 0 then []
    else
      var d := DupsUpTo(xs, n - 1);
      if DupAt(xs, n - 1) && xs[n - 1] !in d then d + [xs[n - 1]] else d
  }

  /** The result of `find_duplicates_slow`. */
  function SlowDuplicates(xs: seq<int>): seq<int> {
    DupsUpTo(xs, |xs|)
  }

  /** Position `i` has met an equal value at another position below `j`. */
  predicate HitBefore(xs: seq<int>, i: nat, j: nat)
    requires i < |xs| && j <= |xs|
  {
    exists k :: 0 <= k < j && k != i && xs[k] == xs[i]
  }

  /** `find_duplicates_slow`: every ordered pair of distinct positions. */
  method FindDuplicatesSlow(numbers: seq<int>) returns (duplicates: seq<int>)
    ensures duplicates == SlowDuplicates(numbers)
  {
    duplicates := [];
    for i := 0 to |numbers|
      invariant duplicates == DupsUpTo(numbers, i)
    {
      for j := 0 to |numbers|
        invariant duplicates == if HitBefore(numbers, i, j) then DupsUpTo(numbers, i + 1) else DupsUpTo(numbers, i)
      {
        if i != j && numbers[i] == numbers[j] {
          if numbers[i] !in duplicates {
            duplicates := duplicates + [numbers[i]];
          }
        }
      }
    }
  }

  /** The values of the processed prefix that occur twice in it. */
  function DupsOf(xs: seq<int>): set<int> {
    set x | x in xs && IsDup(xs, x)
  }

  /** `find_duplicates_fast`: the two sets, then `list(duplicates)` in some order. */
  method FindDuplicatesFast(numbers: seq<int>) returns (result: seq<int>)
    ensures NoRepeats(result)
    ensures forall x :: x in result <==> IsDup(numbers, x)
  {
    var seen: set<int> := {};
    var duplicates: set<int> := {};
    for n := 0 to |numbers|
      invariant seen == set x | x in numbers[..n]
      invariant duplicates == DupsOf(numbers[..n])
    {
      var num := numbers[n];
      assert numbers[..n + 1] == numbers[..n] + [num];
      DupsOfSnoc(numbers[..n], num);
      if num in seen {
        duplicates := duplicates + {num};
      } else {
        seen := seen + {num};
      }
    }
    assert numbers[..|numbers|] == numbers;
    result := ListOf(duplicates);
  }

  /** `list(s)`: the elements of a set, each once, in an order the model leaves open. */
  method ListOf(s: set<int>) returns (r: seq<int>)
    ensures NoRepeats(r) && |r| == |s|
    ensures forall x :: x in r <==> x in s
  {
    r := [];
    var rest := s;
    while rest != {}
      invariant rest <= s && NoRepeats(r)
      invariant forall x :: x in r <==> x in s && x !in rest
      invariant |r| + |rest| == |s|
      decreases |rest|
    {
      var x := Pick(rest);
      r := r + [x];
      rest := rest - {x};
    }
  }

  /** Some element of a non-empty set. */
  method Pick(s: set<int>) returns (x: int)
    requires s != {}
    ensures x in s
  {
    EmptyWithoutElements(s);
    x :| x in s;
  }

  lemma EmptyWithoutElements(s: set<int>)
    ensures (forall x :: x !in s) ==> s == {}
  {
    if forall x :: x !in s {
      assert s == {};
    }
  }

  /** The consistency check `sorted(dups_slow) == sorted(dups_fast)`. */
  method CompareFinders(numbers: seq<int>) returns (slow: seq<int>, fast: seq<int>)
    ensures slow == SlowDuplicates(numbers)
    ensures NoRepeats(fast) && forall x :: x in fast <==> IsDup(numbers, x)
    ensures SortAsc(slow) == SortAsc(fast)
    ensures multiset(slow) == multiset(fast)
  {
    slow := FindDuplicatesSlow(numbers);
    fast := FindDuplicatesFast(numbers);
    FindersAgree(numbers, fast);
  }

  /**
   * Any list holding each duplicated value once, in whatever order
   * `list(set)` produces, is the slow finder's result up to order.
   */
  lemma FindersAgree(numbers: seq<int>, fast: seq<int>)
    requires NoRepeats(fast) && forall x :: x in fast <==> IsDup(numbers, x)
    ensures multiset(SlowDuplicates(numbers)) == multiset(fast)
    ensures SortAsc(SlowDuplicates(numbers)) == SortAsc(fast)
  {
    var slow := SlowDuplicates(numbers);
    SlowMembers(numbers);
    SlowNoRepeats(numbers);
    SameElementsSameMultiset(slow, fast);
    SortedUnique(SortAsc(slow), SortAsc(fast));
  }

  // ---------------------------------------------------------------------------
  // Lemmas
  // ---------------------------------------------------------------------------

  /** Appending one value to the processed prefix. */
  lemma DupsOfSnoc(xs: seq<int>, v: int)
    ensures DupsOf(xs + [v]) == DupsOf(xs) + (if v in xs then {v} else {})
  {
    var ys := xs + [v];
    forall x | IsDup(ys, x)
      ensures IsDup(xs, x) || (x == v && v in xs)
    {
      var i, j :| 0 <= i < j < |ys| && ys[i] == x && ys[j] == x;
      if j < |xs| {
        assert xs[i] == x && xs[j] == x;
      } else {
        assert xs[i] == v;
      }
    }
    forall x | IsDup(xs, x)
      ensures IsDup(ys, x)
    {
      var i, j :| 0 <= i < j < |xs| && xs[i] == x && xs[j] == x;
      assert ys[i] == x && ys[j] == x;
    }
    if v in xs {
      var i :| 0 <= i < |xs| && xs[i] == v;
      assert ys[i] == v && ys[|xs|] == v;
    }
  }

  /** After `n` outer rounds the list holds exactly the duplicated values among the first `n` positions. */
  lemma {:induction false} DupsUpToMembers(xs: seq<int>, n: nat)
    requires n <= |xs|
    ensures forall x :: x in DupsUpTo(xs, n) <==> exists i :: 0 <= i < n && xs[i] == x && DupAt(xs, i)
  {
    if n > 0 {
      DupsUpToMembers(xs, n - 1);
    }
  }

  /** `v in find_duplicates_slow(xs)` exactly when `v` occurs at two distinct positions. */
  lemma SlowMembers(xs: seq<int>)
    ensures forall x :: x in SlowDuplicates(xs) <==> IsDup(xs, x)
  {
    DupsUpToMembers(xs, |xs|);
    forall x
      ensures (exists i :: 0 <= i < |xs| && xs[i] == x && DupAt(xs, i)) <==> IsDup(xs, x)
    {
      if exists i :: 0 <= i < |xs| && xs[i] == x && DupAt(xs, i) {
        var i :| 0 <= i < |xs| && xs[i] == x && DupAt(xs, i);
        var j :| 0 <= j < |xs| && j != i && xs[j] == xs[i];
        if i < j {
          assert 0 <= i < j < |xs| && xs[i] == x && xs[j] == x;
        } else {
          assert 0 <= j < i < |xs| && xs[j] == x && xs[i] == x;
        }
      }
      if IsDup(xs, x) {
        var i, j :| 0 <= i < j < |xs| && xs[i] == x && xs[j] == x;
        assert DupAt(xs, i);
      }
    }
  }

  lemma {:induction false} DupsUpToNoRepeats(xs: seq<int>, n: nat)
    requires n <= |xs|
    ensures NoRepeats(DupsUpTo(xs, n))
  {
    if n > 0 {
      DupsUpToNoRepeats(xs, n - 1);
    }
  }

  /** The slow result holds no value twice. */
  lemma SlowNoRepeats(xs: seq<int>)
    ensures NoRepeats(SlowDuplicates(xs))
  {
    DupsUpToNoRepeats(xs, |xs|);
  }

  /** The first position at which `x` occurs. */
  function FirstIndex(xs: seq<int>, x: int): (i: nat)
    requires x in xs
    ensures i < |xs| && xs[i] == x
    ensures forall k :: 0 <= k < i ==> xs[k] != x
  {
    if xs[0] == x then 0 else 1 + FirstIndex(xs[1..], x)
  }

  /** Every value of `d` first occurs in `xs` before position `n`. */
  predicate FirstBefore(xs: seq<int>, d: seq<int>, n: nat) {
    forall x :: x in d ==> x in xs && FirstIndex(xs, x) < n
  }

  /** The values of `d` are listed in order of their first occurrence in `xs`. */
  predicate InFirstOccurrenceOrder(xs: seq<int>, d: seq<int>) {
    forall a, b :: 0 <= a < b < |d| ==> d[a] in xs && d[b] in xs && FirstIndex(xs, d[a]) < FirstIndex(xs, d[b])
  }

  /** Each value of the list first occurs among the first `n` positions, and the list is ordered by first occurrence. */
  lemma {:induction false} DupsUpToOrder(xs: seq<int>, n: nat)
    requires n <= |xs|
    ensures FirstBefore(xs, DupsUpTo(xs, n), n)
    ensures InFirstOccurrenceOrder(xs, DupsUpTo(xs, n))
  {
    if n > 0 {
      DupsUpToOrder(xs, n - 1);
      var d := DupsUpTo(xs, n - 1);
      var v := xs[n - 1];
      if DupAt(xs, n - 1) && v !in d {
        DupsUpToMembers(xs, n - 1);
        var f := FirstIndex(xs, v);
        assert f == n - 1 by {
          if f < n - 1 {
            assert xs[n - 1] == xs[f];
            assert 0 <= f < n - 1 && xs[f] == v && DupAt(xs, f);
          }
        }
        var e := d + [v];
        assert e == DupsUpTo(xs, n);
        forall a, b | 0 <= a < b < |e|
          ensures e[a] in xs && e[b] in xs && FirstIndex(xs, e[a]) < FirstIndex(xs, e[b])
        {
          assert e[a] == d[a] && d[a] in d;
          if b == |d| {
            assert e[b] == v;
          } else {
            assert e[b] == d[b];
          }
        }
        forall x | x in e
          ensures x in xs && FirstIndex(xs, x) < n
        {
          if x != v {
            assert x in d;
          }
        }
      } else {
        assert DupsUpTo(xs, n) == d;
        assert FirstBefore(xs, d, n);
      }
    }
  }

  /** The slow result lists the duplicated values in order of their first occurrence. */
  lemma SlowInFirstOccurrenceOrder(xs: seq<int>)
    ensures InFirstOccurrenceOrder(xs, SlowDuplicates(xs))
  {
    DupsUpToOrder(xs, |xs|);
  }

  lemma {:induction false} NoRepeatsCounts(s: seq<int>, x: int)
    requires NoRepeats(s)
    ensures multiset(s)[x] <= 1
    ensures x in s ==> multiset(s)[x] == 1
  {
    if s != [] {
      var t := s[..|s| - 1];
      assert s == t + [s[|s| - 1]];
      assert NoRepeats(t);
      NoRepeatsCounts(t, x);
      if s[|s| - 1] == x {
        assert x !in t;
      }
    }
  }

  /** A value at two distinct positions is counted twice. */
  lemma DupCount(xs: seq<int>, x: int)
    requires IsDup(xs, x)
    ensures multiset(xs)[x] >= 2
  {
    var i, j :| 0 <= i < j < |xs| && xs[i] == x && xs[j] == x;
    assert xs == xs[..j] + xs[j..];
    assert xs[..j][i] == x;
    assert xs[j..][0] == x;
  }

  /** Each reported value takes at least two input positions: the result is at most half as long. */
  lemma SlowAtMostHalf(xs: seq<int>)
    ensures 2 * |SlowDuplicates(xs)| <= |xs|
  {
    var d := SlowDuplicates(xs);
    SlowMembers(xs);
    SlowNoRepeats(xs);
    var m := multiset(d) + multiset(d);
    forall x
      ensures m[x] <= multiset(xs)[x]
    {
      NoRepeatsCounts(d, x);
      if x in d {
        DupCount(xs, x);
      }
    }
    assert m <= multiset(xs);
    assert multiset(xs) == m + (multiset(xs) - m);
    assert |m| == 2 * |d|;
  }

  /** Two repeat-free lists with the same values are permutations of each other. */
  lemma SameElementsSameMultiset(a: seq<int>, b: seq<int>)
    requires NoRepeats(a) && NoRepeats(b)
    requires forall x :: x in a <==> x in b
    ensures multiset(a) == multiset(b)
  {
    forall x
      ensures multiset(a)[x] == multiset(b)[x]
    {
      NoRepeatsCounts(a, x);
      NoRepeatsCounts(b, x);
    }
  }
}
