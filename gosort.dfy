/**
 * The sorts the core asks of Go's `sort` package. sort.Slice and
 * sort.Strings promise only that the result is ordered and a permutation of
 * the input (sort.Slice is not stable), so each is modelled by an insertion
 * sort whose contract says exactly that and nothing about the order of ties.
 */
module GoSort {
  import opened GoStrings

  /** The string a path is compared by: its base name, or the whole path. */
  function Key(p: string, byBase: bool): string {
    if byBase then Base(p) else p
  }

  /** `x` may stand before `y`: keys ascending, or descending when `desc`. */
  predicate InOrder(x: string, y: string, byBase: bool, desc: bool) {
    if desc then Le(Key(y, byBase), Key(x, byBase)) else Le(Key(x, byBase), Key(y, byBase))
  }

  predicate AdjSorted(s: seq<string>, byBase: bool, desc: bool) {
    forall i :: 0 <= i < |s| - 1 ==> InOrder(s[i], s[i + 1], byBase, desc)
  }

  predicate Sorted(s: seq<string>, byBase: bool, desc: bool) {
    forall i, j :: 0 <= i < j < |s| ==> InOrder(s[i], s[j], byBase, desc)
  }

  lemma InOrderTotal(x: string, y: string, byBase: bool, desc: bool)
    ensures InOrder(x, y, byBase, desc) || InOrder(y, x, byBase, desc)
  {
    LeTotal(Key(x, byBase), Key(y, byBase));
  }

  lemma InOrderTrans(x: string, y: string, z: string, byBase: bool, desc: bool)
    requires InOrder(x, y, byBase, desc) && InOrder(y, z, byBase, desc)
    ensures InOrder(x, z, byBase, desc)
  {
    if desc {
      LeTrans(Key(z, byBase), Key(y, byBase), Key(x, byBase));
    } else {
      LeTrans(Key(x, byBase), Key(y, byBase), Key(z, byBase));
    }
  }

  /** Ordered neighbours make an ordered sequence. */
  lemma {:induction false} AdjSortedIsSorted(s: seq<string>, byBase: bool, desc: bool)
    requires AdjSorted(s, byBase, desc)
    ensures Sorted(s, byBase, desc)
  {
    if |s| > 1 {
      AdjSortedIsSorted(s[1..], byBase, desc);
      forall j | 1 < j < |s|
        ensures InOrder(s[0], s[j], byBase, desc)
      {
        assert InOrder(s[1..][0], s[1..][j - 1], byBase, desc);
        InOrderTrans(s[0], s[1], s[j], byBase, desc);
      }
    }
  }

  /**
   * sort.Slice / sort.Strings over strings, in place: afterwards `a` holds
   * the same strings, ordered by `Key`.
   */
  method SortStrings(a: array<string>, byBase: bool, desc: bool)
    modifies a
    ensures AdjSorted(a[..], byBase, desc)
    ensures multiset(a[..]) == multiset(old(a[..]))
  {
    var i := 0;
    while i < a.Length
      invariant 0 <= i <= a.Length
      invariant AdjSorted(a[..i], byBase, desc)
      invariant multiset(a[..]) == multiset(old(a[..]))
    {
      InsertLast(a, i, byBase, desc);
      i := i + 1;
    }
    assert a[..] == a[..a.Length];
  }

  /** Moves `a[i]` down into the ordered prefix `a[..i]`. */
  method InsertLast(a: array<string>, i: nat, byBase: bool, desc: bool)
    requires i < a.Length
    requires AdjSorted(a[..i], byBase, desc)
    modifies a
    ensures AdjSorted(a[..i + 1], byBase, desc)
    ensures multiset(a[..]) == multiset(old(a[..]))
  {
    var j := i;
    forall k | 0 <= k < i - 1
      ensures InOrder(a[k], a[k + 1], byBase, desc)
    {
      assert a[k] == a[..i][k] && a[k + 1] == a[..i][k + 1];
    }
    while j > 0 && !InOrder(a[j - 1], a[j], byBase, desc)
      invariant 0 <= j <= i
      invariant forall k :: 0 <= k < j - 1 ==> InOrder(a[k], a[k + 1], byBase, desc)
      invariant forall k :: j <= k < i ==> InOrder(a[k], a[k + 1], byBase, desc)
      invariant 0 < j < i ==> InOrder(a[j - 1], a[j + 1], byBase, desc)
      invariant multiset(a[..]) == multiset(old(a[..]))
    {
      InOrderTotal(a[j - 1], a[j], byBase, desc);
      if j > 1 {
        assert InOrder(a[j - 2], a[j - 1], byBase, desc);
      }
      Swap(a, j);
      j := j - 1;
    }
    ghost var s := a[..i + 1];
    forall k | 0 <= k < |s| - 1
      ensures InOrder(s[k], s[k + 1], byBase, desc)
    {
      assert s[k] == a[k] && s[k + 1] == a[k + 1];
    }
  }

  /** Exchanges `a[j - 1]` and `a[j]`, which keeps the same elements. */
  method Swap<T>(a: array<T>, j: nat)
    requires 0 < j < a.Length
    modifies a
    ensures a[j - 1] == old(a[j]) && a[j] == old(a[j - 1])
    ensures forall k :: 0 <= k < a.Length && k != j - 1 && k != j ==> a[k] == old(a[k])
    ensures multiset(a[..]) == multiset(old(a[..]))
  {
    a[j - 1], a[j] := a[j], a[j - 1];
  }

  /** Modification times ordered oldest first, or newest first when `desc`. */
  predicate TimesInOrder(x: int, y: int, desc: bool) {
    if desc then y <= x else x <= y
  }

  predicate TimesSorted(s: seq<int>, desc: bool) {
    forall i, j :: 0 <= i < j < |s| ==> TimesInOrder(s[i], s[j], desc)
  }

  /** sort.Slice over modification times with Before (or After when `desc`). */
  method SortTimes(a: array<int>, desc: bool)
    modifies a
    ensures TimesSorted(a[..], desc)
    ensures multiset(a[..]) == multiset(old(a[..]))
  {
    var i := 0;
    while i < a.Length
      invariant 0 <= i <= a.Length
      invariant TimesSorted(a[..i], desc)
      invariant multiset(a[..]) == multiset(old(a[..]))
    {
      InsertTime(a, i, desc);
      i := i + 1;
    }
    assert a[..] == a[..a.Length];
  }

  /** Moves `a[i]` down into the ordered prefix `a[..i]`. */
  method InsertTime(a: array<int>, i: nat, desc: bool)
    requires i < a.Length
    requires TimesSorted(a[..i], desc)
    modifies a
    ensures TimesSorted(a[..i + 1], desc)
    ensures multiset(a[..]) == multiset(old(a[..]))
  {
    forall k, l | 0 <= k < l < i
      ensures TimesInOrder(a[k], a[l], desc)
    {
      assert a[k] == a[..i][k] && a[l] == a[..i][l];
    }
    var j := i;
    while j > 0 && !TimesInOrder(a[j - 1], a[j], desc)
      invariant 0 <= j <= i
      invariant forall k, l :: 0 <= k < l <= i && l != j ==> TimesInOrder(a[k], a[l], desc)
      invariant forall k, l :: 0 <= k < j < l <= i ==> TimesInOrder(a[k], a[l], desc)
      invariant multiset(a[..]) == multiset(old(a[..]))
    {
      Swap(a, j);
      j := j - 1;
    }
    ghost var s := a[..i + 1];
    forall k, l | 0 <= k < l < |s|
      ensures TimesInOrder(s[k], s[l], desc)
    {
      assert s[k] == a[k] && s[l] == a[l];
    }
  }
}
