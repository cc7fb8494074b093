/** `Array.prototype.filter` and `findIndex` over sequences. */
module Seqs {

  /** The elements of `s` that `keep` accepts, in their original order. */
  function Filter<T>(s: seq<T>, keep: T -> bool): (r: seq<T>)
    ensures |r| <= |s|
    ensures forall i :: 0 <= i < |r| ==> r[i] in s && keep(r[i])
    ensures forall i :: 0 <= i < |s| && keep(s[i]) ==> s[i] in r
    ensures multiset(r) <= multiset(s)
  {
    if s == [] then []
    else
      assert s == [s[0]] + s[1..];
      (if keep(s[0]) then [s[0]] else []) + Filter(s[1..], keep)
  }

  /** Filtering distributes over concatenation, so the kept elements keep
      their relative order. */
  lemma {:induction false} FilterConcat<T>(a: seq<T>, b: seq<T>, keep: T -> bool)
    ensures Filter(a + b, keep) == Filter(a, keep) + Filter(b, keep)
  {
    if a == [] {
      assert a + b == b;
    } else {
      assert (a + b)[1..] == a[1..] + b;
      FilterConcat(a[1..], b, keep);
    }
  }

  /** When every element is kept, filtering changes nothing. */
  lemma {:induction false} FilterAll<T>(s: seq<T>, keep: T -> bool)
    requires forall i :: 0 <= i < |s| ==> keep(s[i])
    ensures Filter(s, keep) == s
  {
    if s != [] {
      FilterAll(s[1..], keep);
    }
  }

  /** The position of the first element `found` accepts, or `|s|` when there
      is none (`findIndex`, with the length in place of `-1`). */
  function FirstIndex<T>(s: seq<T>, found: T -> bool): (i: nat)
    ensures i <= |s|
    ensures i < |s| ==> found(s[i])
    ensures forall k :: 0 <= k < i ==> !found(s[k])
  {
    if s == [] || found(s[0]) then 0 else 1 + FirstIndex(s[1..], found)
  }

  /** An accepted element with no accepted element before it is the one
      `FirstIndex` finds. */
  lemma {:induction false} FirstIndexIsFirst<T>(s: seq<T>, found: T -> bool, i: nat)
    requires i < |s| && found(s[i])
    requires forall k :: 0 <= k < i ==> !found(s[k])
    ensures FirstIndex(s, found) == i
  {
    if i > 0 {
      FirstIndexIsFirst(s[1..], found, i - 1);
    }
  }
}
