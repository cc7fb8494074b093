/** In-place sorting of an array by a comparator, as `Array.prototype.sort`
    does to the page of products. `before(x, y)` holds when the comparator
    puts `x` no later than `y` (`compare(x, y) <= 0`). */
module Sorting {

  /** The comparator orders every pair and is transitive (ties allowed). */
  ghost predicate TotalPreorder<T(!new)>(before: (T, T) -> bool) {
    && (forall x, y :: before(x, y) || before(y, x))
    && (forall x, y, z :: before(x, y) && before(y, z) ==> before(x, z))
  }

  /** Every element comes no later than every element after it. */
  ghost predicate SortedBy<T>(s: seq<T>, before: (T, T) -> bool) {
    forall i, j :: 0 <= i < j < |s| ==> before(s[i], s[j])
  }

  /** Insertion sort: sorted by `before` and a permutation of the input. */
  method InsertionSort<T(!new)>(a: array<T>, before: (T, T) -> bool)
    requires TotalPreorder(before)
    modifies a
    ensures SortedBy(a[..], before)
    ensures multiset(a[..]) == old(multiset(a[..]))
  {
    if a.Length == 0 {
      return;
    }
    var i := 1;
    while i < a.Length
      invariant 1 <= i <= a.Length
      invariant SortedBy(a[..i], before)
      invariant multiset(a[..]) == old(multiset(a[..]))
    {
      Insert(a, i, before);
      i := i + 1;
    }
  }

  /** One step of insertion sort: `a[i]` sinks into the sorted prefix
      `a[..i]` by swaps with its left neighbour. */
  method Insert<T(!new)>(a: array<T>, i: nat, before: (T, T) -> bool)
    requires TotalPreorder(before)
    requires i < a.Length && SortedBy(a[..i], before)
    modifies a
    ensures SortedBy(a[..i + 1], before)
    ensures multiset(a[..]) == old(multiset(a[..]))
  {
    var j := i;
    while j > 0 && !before(a[j - 1], a[j])
      invariant 0 <= j <= i
      invariant forall p, q :: 0 <= p < q <= i && p != j && q != j ==> before(a[p], a[q])
      invariant forall p, q :: 0 <= p < j < q <= i ==> before(a[p], a[q])
      invariant forall q :: j < q <= i ==> before(a[j], a[q])
      invariant multiset(a[..]) == old(multiset(a[..]))
    {
      a[j - 1], a[j] := a[j], a[j - 1];
      j := j - 1;
    }
  }
}
