/**
 * The in-place slice sort that `sort.Strings` and `sort.Slice` perform,
 * for any comparison that is a total preorder. Go's sorts are not stable,
 * so the model promises only what every correct sort gives: a sorted
 * permutation of the input.
 */
module Sorting {

  ghost predicate TotalPreorder<T(!new)>(le: (T, T) -> bool) {
    && (forall x, y :: le(x, y) || le(y, x))
    && (forall x, y, z :: le(x, y) && le(y, z) ==> le(x, z))
  }

  ghost predicate SortedBy<T>(s: seq<T>, le: (T, T) -> bool) {
    forall i, j :: 0 <= i < j < |s| ==> le(s[i], s[j])
  }

  /** Each element occurs at most once. */
  ghost predicate NoDuplicates<T(!new)>(s: seq<T>) {
    forall x :: multiset(s)[x] <= 1
  }

  /** Two positions of a duplicate-free sequence hold different elements. */
  lemma NoDuplicatesDistinct<T(!new)>(s: seq<T>, i: int, j: int)
    requires NoDuplicates(s) && 0 <= i < j < |s|
    ensures s[i] != s[j]
  {
    var x := s[j];
    assert s == s[..j] + [x] + s[j + 1..];
    assert multiset(s)[x] == multiset(s[..j])[x] + 1 + multiset(s[j + 1..])[x];
    assert s[..j][i] == s[i];
    assert s[i] in multiset(s[..j]);
  }

  /** Insertion sort by adjacent swaps. */
  method SortBy<T(!new)>(a: array<T>, le: (T, T) -> bool)
    requires TotalPreorder(le)
    modifies a
    ensures SortedBy(a[..], le)
    ensures multiset(a[..]) == multiset(old(a[..]))
  {
    var i := 0;
    while i < a.Length
      invariant 0 <= i <= a.Length
      invariant forall k, l :: 0 <= k < l < i ==> le(a[k], a[l])
      invariant multiset(a[..]) == multiset(old(a[..]))
    {
      Sink(a, le, i);
      i := i + 1;
    }
  }

  /** Moves a[i] down into the sorted prefix a[..i], so that a[..i + 1] is sorted. */
  method Sink<T(!new)>(a: array<T>, le: (T, T) -> bool, i: int)
    requires TotalPreorder(le)
    requires 0 <= i < a.Length
    requires forall k, l :: 0 <= k < l < i ==> le(a[k], a[l])
    modifies a
    ensures forall k, l :: 0 <= k < l <= i ==> le(a[k], a[l])
    ensures multiset(a[..]) == multiset(old(a[..]))
  {
    var j := i;
    while 0 < j && !le(a[j - 1], a[j])
      invariant 0 <= j <= i
      invariant forall k, l :: 0 <= k < l <= i && k != j && l != j ==> le(a[k], a[l])
      invariant forall l :: j < l <= i ==> le(a[j], a[l])
      invariant multiset(a[..]) == multiset(old(a[..]))
    {
      a[j - 1], a[j] := a[j], a[j - 1];
      j := j - 1;
    }
  }
}
