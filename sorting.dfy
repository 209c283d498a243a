/** The in-place sorts the providers call. Go's `sort.Sort` and `sort.Slice`
    are not stable, so all that callers may use of a sort is its contract:
    afterwards the array is ordered by the key and holds the same elements. */
module Sorting {

  /** The keys of `s` never increase from left to right. */
  predicate Descending<T>(s: seq<T>, key: T -> real)
  {
    forall i, j :: 0 <= i < j < |s| ==> key(s[i]) >= key(s[j])
  }

  /** Sorts `a` in place so that `key` never increases (insertion sort). */
  method SortDescending<T>(a: array<T>, key: T -> real)
    modifies a
    ensures Descending(a[..], key)
    ensures multiset(a[..]) == old(multiset(a[..]))
  {
    var i := 0;
    while i < a.Length
      invariant 0 <= i <= a.Length
      invariant forall p, q :: 0 <= p < q < i ==> key(a[p]) >= key(a[q])
      invariant multiset(a[..]) == old(multiset(a[..]))
    {
      InsertDown(a, key, i);
      i := i + 1;
    }
  }

  /** Moves `a[i]` left past every smaller key, so that the ordered prefix
      `a[..i]` grows into the ordered prefix `a[..i + 1]`. */
  method InsertDown<T>(a: array<T>, key: T -> real, i: nat)
    requires i < a.Length
    requires forall p, q :: 0 <= p < q < i ==> key(a[p]) >= key(a[q])
    modifies a
    ensures forall p, q :: 0 <= p < q <= i ==> key(a[p]) >= key(a[q])
    ensures multiset(a[..]) == old(multiset(a[..]))
  {
    var j := i;
    while j > 0 && key(a[j - 1]) < key(a[j])
      invariant 0 <= j <= i
      invariant forall p, q :: 0 <= p < q <= i && p != j && q != j ==> key(a[p]) >= key(a[q])
      invariant forall q :: j < q <= i ==> key(a[j]) > key(a[q])
      invariant multiset(a[..]) == old(multiset(a[..]))
    {
      Swap(a, j - 1, j);
      j := j - 1;
    }
  }

  /** Exchanges two elements. */
  method Swap<T>(a: array<T>, i: nat, j: nat)
    requires i < j < a.Length
    modifies a
    ensures a[i] == old(a[j]) && a[j] == old(a[i])
    ensures forall k :: 0 <= k < a.Length && k != i && k != j ==> a[k] == old(a[k])
    ensures multiset(a[..]) == old(multiset(a[..]))
  {
    a[i], a[j] := a[j], a[i];
  }

  /** A fresh array holding `s`, as a Go slice literal would. */
  method ToArray<T>(s: seq<T>) returns (a: array<T>)
    ensures fresh(a) && a[..] == s
  {
    a := new T[|s|](i requires 0 <= i < |s| => s[i]);
  }

  /** A prefix of a descending sequence dominates the rest of it. */
  lemma PrefixDominates<T>(s: seq<T>, key: T -> real, n: nat, x: T, y: T)
    requires Descending(s, key) && n <= |s|
    requires x in s[..n] && y in s[n..]
    ensures key(x) >= key(y)
  {
    var i :| 0 <= i < n && s[..n][i] == x;
    var j :| 0 <= j < |s| - n && s[n..][j] == y;
    assert s[i] == x && s[n + j] == y;
  }
}
