/** `Array.prototype.sort` with a descending numeric comparator
    (`(a, b) => key(b) - key(a)`), as an in-place insertion sort. */
module Sorting {

  /** Every element's key is at least that of every later element. */
  ghost predicate SortedDesc<T>(s: seq<T>, key: T -> int) {
    forall i, j :: 0 <= i < j < |s| ==> key(s[i]) >= key(s[j])
  }

  method SortDescending<T>(a: array<T>, key: T -> int)
    modifies a
    ensures SortedDesc(a[..], key)
    ensures multiset(a[..]) == multiset(old(a[..]))
  {
    if a.Length == 0 {
      return;
    }
    var i := 1;
    while i < a.Length
      invariant 1 <= i <= a.Length
      invariant SortedDesc(a[..i], key)
      invariant multiset(a[..]) == multiset(old(a[..]))
    {
      InsertDown(a, i, key);
      i := i + 1;
    }
    assert a[..i] == a[..];
  }

  /** Moves `a[i]` down past every smaller key before it, so that the
      first `i + 1` elements are sorted. */
  method InsertDown<T>(a: array<T>, i: int, key: T -> int)
    requires 1 <= i < a.Length
    requires SortedDesc(a[..i], key)
    modifies a
    ensures SortedDesc(a[..i + 1], key)
    ensures multiset(a[..]) == multiset(old(a[..]))
  {
    var j := i;
    InsertionStarts(a[..], key, i);
    while j > 0 && key(a[j - 1]) < key(a[j])
      invariant 0 <= j <= i
      invariant Inserting(a[..], key, j, i)
      invariant multiset(a[..]) == multiset(old(a[..]))
    {
      ghost var before := a[..];
      a[j - 1], a[j] := a[j], a[j - 1];
      assert a[..] == before[j - 1 := before[j]][j := before[j - 1]];
      InsertionStep(before, key, j, i);
      j := j - 1;
    }
    InsertionEnds(a[..], key, j, i);
  }

  /** Midway through inserting `s[j]`: the first `i + 1` elements other
      than the one being moved are in order, and it outranks all after it. */
  ghost predicate Inserting<T>(s: seq<T>, key: T -> int, j: int, i: int) {
    && 0 <= j <= i < |s|
    && (forall k, l :: 0 <= k < l <= i && k != j && l != j ==> key(s[k]) >= key(s[l]))
    && (forall l :: j < l <= i ==> key(s[j]) > key(s[l]))
  }

  lemma InsertionStarts<T>(s: seq<T>, key: T -> int, i: int)
    requires 0 <= i < |s| && SortedDesc(s[..i], key)
    ensures Inserting(s, key, i, i)
  {
    forall k, l | 0 <= k < l <= i && k != i && l != i
      ensures key(s[k]) >= key(s[l])
    {
      assert s[k] == s[..i][k] && s[l] == s[..i][l];
    }
  }

  /** Exchanging the moved element with a smaller predecessor keeps the
      insertion in progress and the elements unchanged. */
  lemma InsertionStep<T>(s: seq<T>, key: T -> int, j: int, i: int)
    requires Inserting(s, key, j, i) && 0 < j && key(s[j - 1]) < key(s[j])
    ensures Inserting(s[j - 1 := s[j]][j := s[j - 1]], key, j - 1, i)
    ensures multiset(s[j - 1 := s[j]][j := s[j - 1]]) == multiset(s)
  {
  }

  /** Once the moved element meets a predecessor at least as large, or the
      front, the first `i + 1` elements are in order. */
  lemma InsertionEnds<T>(s: seq<T>, key: T -> int, j: int, i: int)
    requires Inserting(s, key, j, i) && (j == 0 || key(s[j - 1]) >= key(s[j]))
    ensures SortedDesc(s[..i + 1], key)
  {
    var t := s[..i + 1];
    forall k, l | 0 <= k < l < |t|
      ensures key(t[k]) >= key(t[l])
    {
      if l == j && k < j - 1 {
        assert key(s[k]) >= key(s[j - 1]);
      }
    }
  }
}
