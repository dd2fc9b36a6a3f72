/** The partial bubble sort of example/bubble_sort_curve.py: `steps` passes
    over the list, each carrying the largest element not yet placed to the
    end of the unsorted part. */
module BubbleSortCurve {
  import opened Wrappers

  /** Every element from position `p` on is in non-decreasing order. */
  ghost predicate SortedFrom(a: seq<int>, p: int) {
    forall i, j :: 0 <= p <= i < j < |a| ==> a[i] <= a[j]
  }

  /** No element before position `p` exceeds an element at or after it. */
  ghost predicate Partitioned(a: seq<int>, p: int) {
    forall i, j :: 0 <= i < p <= j < |a| ==> a[i] <= a[j]
  }

  function Min(x: int, y: int): int {
    if x <= y then x else y
  }

  /** The number of passes `range(steps)` makes: `len(data)` when `steps` is
      not given, none for a negative count. */
  function Passes(steps: Option<int>, n: nat): (k: nat)
    ensures steps.None? ==> k == n
    ensures steps.Some? ==> (k == 0 <==> steps.value <= 0) && (steps.value >= 0 ==> k == steps.value)
  {
    match steps
    case None => n
    case Some(s) => if s <= 0 then 0 else s
  }

  /** Reordering the first `p` elements keeps every one of them at most
      every element from `p` on. */
  lemma PrefixPermutedKeepsPartition(before: seq<int>, after: seq<int>, p: int)
    requires 0 <= p <= |before| == |after|
    requires multiset(after) == multiset(before)
    requires after[p..] == before[p..]
    requires Partitioned(before, p)
    ensures Partitioned(after, p)
  {
    assert before == before[..p] + before[p..];
    assert after == after[..p] + after[p..];
    assert multiset(after[..p]) + multiset(after[p..]) == multiset(before[..p]) + multiset(before[p..]);
    forall x
      ensures multiset(after[..p])[x] == multiset(before[..p])[x]
    {
      assert (multiset(after[..p]) + multiset(after[p..]))[x] == (multiset(before[..p]) + multiset(before[p..]))[x];
    }
    assert multiset(after[..p]) == multiset(before[..p]);
    forall i, j | 0 <= i < p <= j < |after|
      ensures after[i] <= after[j]
    {
      assert after[i] in multiset(before[..p]) by {
        assert after[i] == after[..p][i];
      }
      var k :| 0 <= k < p && before[..p][k] == after[i];
      assert after[j] == before[p..][j - p];
    }
  }

  /** A pass that stopped at `p - 1`, moved nothing from `p` on and left
      there the largest of the first `p` elements grows the sorted tail by
      one. */
  lemma PassGrowsTail(before: seq<int>, after: seq<int>, p: int)
    requires 1 <= p <= |before| == |after|
    requires multiset(after) == multiset(before)
    requires forall k :: p <= k < |after| ==> after[k] == before[k]
    requires forall k :: 0 <= k < p - 1 ==> after[k] <= after[p - 1]
    requires SortedFrom(before, p) && Partitioned(before, p)
    ensures SortedFrom(after, p - 1) && Partitioned(after, p - 1)
  {
    assert after[p..] == before[p..];
    PrefixPermutedKeepsPartition(before, after, p);
  }

  /** `if data[i] > data[i+1]: swap them`: afterwards the pair is in order
      and its larger element sits at `i + 1`; nothing else moves. */
  method SwapIfGreater(data: array<int>, i: int)
    requires 0 <= i < data.Length - 1
    modifies data
    ensures multiset(data[..]) == multiset(old(data[..]))
    ensures data[i] <= data[i + 1] && old(data[i]) <= data[i + 1]
    ensures forall k :: 0 <= k < data.Length && k != i && k != i + 1 ==> data[k] == old(data[k])
    ensures old(data[i]) <= old(data[i + 1]) ==> data[..] == old(data[..])
  {
    if data[i] > data[i + 1] {
      data[i], data[i + 1] := data[i + 1], data[i];
    }
  }

  /** Pass number `it` (counting from 0) grows the sorted tail from
      `min(it, len)` to `min(it + 1, len)` elements. */
  lemma NextPass(before: seq<int>, after: seq<int>, it: int)
    requires 0 <= it && |after| == |before|
    requires multiset(after) == multiset(before)
    requires forall k :: 0 <= k < |after| && |after| - it - 1 < k ==> after[k] == before[k]
    requires |after| - it - 1 >= 0 ==> forall k :: 0 <= k < |after| - it - 1 ==> after[k] <= after[|after| - it - 1]
    requires SortedFrom(before, |before| - Min(it, |before|)) && Partitioned(before, |before| - Min(it, |before|))
    ensures SortedFrom(after, |after| - Min(it + 1, |after|)) && Partitioned(after, |after| - Min(it + 1, |after|))
  {
    if it < |before| {
      PassGrowsTail(before, after, |before| - it);
    } else {
      assert after == before;
    }
  }

  /** A sorted tail that leaves at most one element before it, that element
      no larger than the tail, makes the whole list sorted. */
  lemma SortedWhenTailCovers(a: seq<int>, p: int)
    requires 0 <= p <= 1 && SortedFrom(a, p) && Partitioned(a, p)
    ensures SortedFrom(a, 0)
  {
    forall i, j | 0 <= i < j < |a|
      ensures a[i] <= a[j]
    {
      if i < p {
        assert i == 0 && p <= j;
      }
    }
  }

  /** One pass `for i in range(0, hi)`: swaps each out-of-order neighbour
      pair, so the largest of the first `hi + 1` elements ends at `hi`; the
      elements after `hi` are not touched. */
  method BubblePass(data: array<int>, hi: int)
    requires hi < data.Length
    modifies data
    ensures multiset(data[..]) == multiset(old(data[..]))
    ensures forall k :: 0 <= k < data.Length && hi < k ==> data[k] == old(data[k])
    ensures hi >= 0 ==> forall k :: 0 <= k < hi ==> data[k] <= data[hi]
    ensures SortedFrom(old(data[..]), 0) ==> data[..] == old(data[..])
  {
    var i := 0;
    while i < hi
      invariant 0 <= i && (hi >= 0 ==> i <= hi)
      invariant hi >= 0 ==> forall k :: 0 <= k < i ==> data[k] <= data[i]
      invariant multiset(data[..]) == multiset(old(data[..]))
      invariant forall k :: 0 <= k < data.Length && i < k ==> data[k] == old(data[k])
      invariant hi < 0 ==> data[..] == old(data[..])
      invariant SortedFrom(old(data[..]), 0) ==> data[..] == old(data[..])
    {
      SwapIfGreater(data, i);
      i := i + 1;
    }
  }

  /** The outer loop `for iteration in range(passes)`: each pass grows the
      sorted, partitioned tail by one element. */
  method SortPasses(data: array<int>, passes: nat)
    modifies data
    ensures multiset(data[..]) == multiset(old(data[..]))
    ensures SortedFrom(data[..], data.Length - Min(passes, data.Length))
    ensures Partitioned(data[..], data.Length - Min(passes, data.Length))
    ensures SortedFrom(old(data[..]), 0) ==> data[..] == old(data[..])
  {
    var n := data.Length;
    var iteration := 0;
    while iteration < passes
      invariant 0 <= iteration <= passes
      invariant multiset(data[..]) == multiset(old(data[..]))
      invariant SortedFrom(data[..], n - Min(iteration, n))
      invariant Partitioned(data[..], n - Min(iteration, n))
      invariant SortedFrom(old(data[..]), 0) ==> data[..] == old(data[..])
    {
      ghost var before := data[..];
      BubblePass(data, n - iteration - 1);
      NextPass(before, data[..], iteration);
      iteration := iteration + 1;
    }
  }

  /** `bubblesort_steps(data, steps)`: after the passes the list is a
      permutation of what it was, its last `min(passes, len)` elements are in
      order and none of them is smaller than an element before them; with no
      `steps`, or with `len - 1` of them, the whole list is sorted; a sorted
      list is left alone. */
  method BubblesortSteps(data: array<int>, steps: Option<int>)
    modifies data
    ensures multiset(data[..]) == multiset(old(data[..]))
    ensures var m := Min(Passes(steps, data.Length), data.Length);
            SortedFrom(data[..], data.Length - m) && Partitioned(data[..], data.Length - m)
    ensures steps.None? || steps.value >= data.Length - 1 ==> SortedFrom(data[..], 0)
    ensures SortedFrom(old(data[..]), 0) ==> data[..] == old(data[..])
  {
    var n := data.Length;
    var passes := Passes(steps, n);
    SortPasses(data, passes);
    if steps.None? || steps.value >= n - 1 {
      assert Min(passes, n) >= n - 1;
      SortedWhenTailCovers(data[..], n - Min(passes, n));
    }
  }
}
