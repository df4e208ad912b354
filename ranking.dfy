/**
 * Ordering of scored tasks by priority, highest first, as Python's stable
 * `list.sort(key=..., reverse=True)` leaves them: equal scores keep their
 * relative order. `SortDesc` is the reference definition; `SortByScore`
 * sorts an array in place and is proved to produce it.
 */
module Ranking {
  import opened TaskModel

  predicate SortedDesc(s: seq<ScoredTask>) {
    forall i, j :: 0 <= i < j < |s| ==> s[i].priorityScore >= s[j].priorityScore
  }

  /** The elements of score `v`, in their order in `s`. */
  function WithScore(s: seq<ScoredTask>, v: real): seq<ScoredTask>
    decreases |s|
  {
    if s == [] then []
    else WithScore(s[..|s| - 1], v) + (if s[|s| - 1].priorityScore == v then [s[|s| - 1]] else [])
  }

  /** Places `x` after every element whose score is at least its own. */
  function InsertDesc(s: seq<ScoredTask>, x: ScoredTask): seq<ScoredTask>
    decreases |s|
  {
    if s == [] then [x]
    else if s[|s| - 1].priorityScore < x.priorityScore then InsertDesc(s[..|s| - 1], x) + [s[|s| - 1]]
    else s + [x]
  }

  /** Stable insertion sort, highest score first. */
  function SortDesc(s: seq<ScoredTask>): seq<ScoredTask>
    decreases |s|
  {
    if s == [] then [] else InsertDesc(SortDesc(s[..|s| - 1]), s[|s| - 1])
  }

  /** The first `n` elements, or all of them when there are fewer (`s[:n]`). */
  function Take(s: seq<ScoredTask>, n: nat): (r: seq<ScoredTask>)
    ensures |r| == if |s| < n then |s| else n
    ensures r <= s
  {
    if |s| <= n then s else s[..n]
  }

  // ---------------------------------------------------------------------
  // Properties of the reference sort
  // ---------------------------------------------------------------------

  lemma {:induction false} InsertDescPermutation(s: seq<ScoredTask>, x: ScoredTask)
    ensures multiset(InsertDesc(s, x)) == multiset(s) + multiset{x}
    decreases |s|
  {
    if s != [] && s[|s| - 1].priorityScore < x.priorityScore {
      var init := s[..|s| - 1];
      InsertDescPermutation(init, x);
      assert s == init + [s[|s| - 1]];
    }
  }

  lemma {:induction false} InsertDescSorted(s: seq<ScoredTask>, x: ScoredTask)
    requires SortedDesc(s)
    ensures SortedDesc(InsertDesc(s, x))
    decreases |s|
  {
    if s != [] {
      var last := s[|s| - 1];
      var init := s[..|s| - 1];
      if last.priorityScore < x.priorityScore {
        InsertDescSorted(init, x);
        InsertDescBound(init, x, last.priorityScore);
      }
    }
  }

  /** A lower bound on the scores of `s` and of `x` bounds the scores after insertion. */
  lemma {:induction false} InsertDescBound(s: seq<ScoredTask>, x: ScoredTask, b: real)
    requires forall k :: 0 <= k < |s| ==> s[k].priorityScore >= b
    requires x.priorityScore >= b
    ensures forall k :: 0 <= k < |InsertDesc(s, x)| ==> InsertDesc(s, x)[k].priorityScore >= b
    decreases |s|
  {
    if s != [] && s[|s| - 1].priorityScore < x.priorityScore {
      InsertDescBound(s[..|s| - 1], x, b);
    }
  }

  lemma {:induction false} InsertDescStable(s: seq<ScoredTask>, x: ScoredTask, v: real)
    ensures WithScore(InsertDesc(s, x), v) == WithScore(s, v) + (if x.priorityScore == v then [x] else [])
    decreases |s|
  {
    if s == [] {
      assert InsertDesc(s, x) == [x];
      assert [x][..0] == [];
    } else {
      var last := s[|s| - 1];
      var init := s[..|s| - 1];
      if last.priorityScore < x.priorityScore {
        var r := InsertDesc(init, x);
        InsertDescStable(init, x, v);
        assert (r + [last])[..|r|] == r;
      } else {
        assert (s + [x])[..|s|] == s;
      }
    }
  }

  /** The reference sort orders by score, highest first. */
  lemma {:induction false} SortDescSorted(s: seq<ScoredTask>)
    ensures SortedDesc(SortDesc(s))
    decreases |s|
  {
    if s != [] {
      SortDescSorted(s[..|s| - 1]);
      InsertDescSorted(SortDesc(s[..|s| - 1]), s[|s| - 1]);
    }
  }

  /** The reference sort is a permutation of its input. */
  lemma {:induction false} SortDescPermutation(s: seq<ScoredTask>)
    ensures multiset(SortDesc(s)) == multiset(s)
    decreases |s|
  {
    if s != [] {
      var init := s[..|s| - 1];
      SortDescPermutation(init);
      InsertDescPermutation(SortDesc(init), s[|s| - 1]);
      assert s == init + [s[|s| - 1]];
    }
  }

  /** The reference sort is stable: tasks of equal score keep their order. */
  lemma {:induction false} SortDescStable(s: seq<ScoredTask>, v: real)
    ensures WithScore(SortDesc(s), v) == WithScore(s, v)
    decreases |s|
  {
    if s != [] {
      var init := s[..|s| - 1];
      SortDescStable(init, v);
      InsertDescStable(SortDesc(init), s[|s| - 1], v);
    }
  }

  /** The first `n` of a sorted list score at least as high as all the rest. */
  lemma TakeIsHighest(s: seq<ScoredTask>, n: nat)
    requires SortedDesc(s)
    ensures SortedDesc(Take(s, n))
    ensures forall i, j :: 0 <= i < |Take(s, n)| <= j < |s| ==> s[j].priorityScore <= Take(s, n)[i].priorityScore
  {
  }

  /** The first `n` elements are a sub-multiset of the list. */
  lemma TakeSubMultiset(s: seq<ScoredTask>, n: nat)
    ensures multiset(Take(s, n)) <= multiset(s)
  {
    var top := Take(s, n);
    assert s == top + s[|top|..];
    assert multiset(s) == multiset(top) + multiset(s[|top|..]);
  }

  // ---------------------------------------------------------------------
  // In-place sort
  // ---------------------------------------------------------------------

  /** Sorts `a` in place, highest score first, keeping equal scores in order. */
  method SortByScore(a: array<ScoredTask>)
    modifies a
    ensures a[..] == SortDesc(old(a[..]))
  {
    ghost var input := a[..];
    var i := 0;
    while i < a.Length
      invariant 0 <= i <= a.Length
      invariant a[..i] == SortDesc(input[..i])
      invariant a[i..] == input[i..]
    {
      assert input[..i + 1][..i] == input[..i];
      assert a[i] == input[i];
      InsertAt(a, i);
      assert a[i + 1..] == input[i + 1..];
      i := i + 1;
    }
    assert a[..] == a[..a.Length];
    assert input[..a.Length] == input;
  }

  /** Moves `a[i]` down into the sorted prefix `a[..i]`, as the inner loop does. */
  method InsertAt(a: array<ScoredTask>, i: nat)
    requires i < a.Length
    modifies a
    ensures a[..i + 1] == InsertDesc(old(a[..i]), old(a[i]))
    ensures a[i + 1..] == old(a[i + 1..])
  {
    var x := a[i];
    ghost var sorted := a[..i];
    var j := ShiftLower(a, i, x);
    a[j] := x;
    InsertDescAt(sorted, x, j);
    InsertDescAssemble(sorted, x, j, a[..]);
    assert a[i + 1..] == old(a[i + 1..]);
  }

  /**
   * Shifts the elements of `a[..i]` that score below `x` one place up,
   * from the top down, and returns the cell left free for `x`.
   */
  method ShiftLower(a: array<ScoredTask>, i: nat, x: ScoredTask) returns (j: nat)
    requires i < a.Length
    modifies a
    ensures j <= i
    ensures forall k :: 0 <= k <= j ==> a[k] == old(a[k])
    ensures forall k :: j < k <= i ==> a[k] == old(a[k - 1])
    ensures forall k :: i < k < a.Length ==> a[k] == old(a[k])
    ensures forall k :: j <= k < i ==> old(a[k]).priorityScore < x.priorityScore
    ensures j == 0 || old(a[j - 1]).priorityScore >= x.priorityScore
  {
    ghost var orig := a[..];
    j := i;
    while j > 0 && a[j - 1].priorityScore < x.priorityScore
      invariant 0 <= j <= i
      invariant forall k :: 0 <= k <= j ==> a[k] == orig[k]
      invariant forall k :: j < k <= i ==> a[k] == orig[k - 1]
      invariant forall k :: i < k < a.Length ==> a[k] == orig[k]
      invariant forall k :: j <= k < i ==> orig[k].priorityScore < x.priorityScore
    {
      a[j] := a[j - 1];
      j := j - 1;
    }
  }

  /** Where `InsertDesc` puts `x`: after the last element scoring at least as high. */
  lemma {:induction false} InsertDescAt(s: seq<ScoredTask>, x: ScoredTask, j: nat)
    requires j <= |s|
    requires forall k :: j <= k < |s| ==> s[k].priorityScore < x.priorityScore
    requires j == 0 || s[j - 1].priorityScore >= x.priorityScore
    ensures InsertDesc(s, x) == s[..j] + [x] + s[j..]
    decreases |s|
  {
    if j < |s| {
      var last := s[|s| - 1];
      var init := s[..|s| - 1];
      assert last.priorityScore < x.priorityScore;
      assert InsertDesc(s, x) == InsertDesc(init, x) + [last];
      assert forall k :: j <= k < |init| ==> init[k] == s[k];
      assert j == 0 || init[j - 1] == s[j - 1];
      InsertDescAt(init, x, j);
      assert init[..j] == s[..j];
      assert init[j..] + [last] == s[j..];
    } else {
      assert s[..j] == s;
    }
  }

  /** The array after the inner loop holds `InsertDesc(sorted, x)` in its first `|sorted| + 1` cells. */
  lemma InsertDescAssemble(sorted: seq<ScoredTask>, x: ScoredTask, j: nat, b: seq<ScoredTask>)
    requires j <= |sorted| < |b|
    requires forall k :: 0 <= k < j ==> b[k] == sorted[k]
    requires b[j] == x
    requires forall k :: j < k <= |sorted| ==> b[k] == sorted[k - 1]
    requires InsertDesc(sorted, x) == sorted[..j] + [x] + sorted[j..]
    ensures b[..|sorted| + 1] == InsertDesc(sorted, x)
  {
    var r := sorted[..j] + [x] + sorted[j..];
    forall k | 0 <= k <= |sorted|
      ensures b[k] == r[k]
    {
      if k < j {
        assert r[k] == sorted[k];
      } else if j < k {
        assert r[k] == sorted[k - 1];
      }
    }
    assert b[..|sorted| + 1] == r;
  }
}
