/** Stable insertion sort by an integer key: the in-place loop and the list it leaves. */
module Sorting {

  /** `x` goes behind every element that is not above it: equal keys keep their order. */
  function Insert<T>(s: seq<T>, x: T, key: T -> int): (r: seq<T>)
    ensures |r| == |s| + 1
  {
    if s == [] || key(s[|s| - 1]) <= key(x) then s + [x]
    else Insert(s[..|s| - 1], x, key) + [s[|s| - 1]]
  }

  function SortBy<T>(s: seq<T>, key: T -> int): (r: seq<T>)
    ensures |r| == |s|
  {
    if s == [] then [] else Insert(SortBy(s[..|s| - 1], key), s[|s| - 1], key)
  }

  ghost predicate Ascending<T>(s: seq<T>, key: T -> int) {
    forall i, j | 0 <= i < j < |s| :: key(s[i]) <= key(s[j])
  }

  ghost predicate Below<T>(s: seq<T>, bound: int, key: T -> int) {
    forall i | 0 <= i < |s| :: key(s[i]) <= bound
  }

  lemma {:induction false} InsertBelow<T>(s: seq<T>, x: T, key: T -> int, bound: int)
    requires Below(s, bound, key) && key(x) <= bound
    ensures Below(Insert(s, x, key), bound, key)
  {
    if s != [] && key(s[|s| - 1]) > key(x) {
      InsertBelow(s[..|s| - 1], x, key, bound);
    }
  }

  lemma {:induction false} InsertAscends<T>(s: seq<T>, x: T, key: T -> int)
    requires Ascending(s, key)
    ensures Ascending(Insert(s, x, key), key)
  {
    if s != [] && key(s[|s| - 1]) > key(x) {
      InsertAscends(s[..|s| - 1], x, key);
      InsertBelow(s[..|s| - 1], x, key, key(s[|s| - 1]));
    }
  }

  lemma {:induction false} SortAscends<T>(s: seq<T>, key: T -> int)
    ensures Ascending(SortBy(s, key), key)
  {
    if s != [] {
      SortAscends(s[..|s| - 1], key);
      InsertAscends(SortBy(s[..|s| - 1], key), s[|s| - 1], key);
    }
  }

  lemma {:induction false} InsertPermutes<T>(s: seq<T>, x: T, key: T -> int)
    ensures multiset(Insert(s, x, key)) == multiset(s) + multiset{x}
  {
    if s != [] && key(s[|s| - 1]) > key(x) {
      InsertPermutes(s[..|s| - 1], x, key);
      assert s == s[..|s| - 1] + [s[|s| - 1]];
    }
  }

  lemma {:induction false} SortPermutes<T>(s: seq<T>, key: T -> int)
    ensures multiset(SortBy(s, key)) == multiset(s)
  {
    if s != [] {
      SortPermutes(s[..|s| - 1], key);
      InsertPermutes(SortBy(s[..|s| - 1], key), s[|s| - 1], key);
      assert s == s[..|s| - 1] + [s[|s| - 1]];
    }
  }

  lemma {:induction false} SortedIsFixed<T>(s: seq<T>, key: T -> int)
    requires Ascending(s, key)
    ensures SortBy(s, key) == s
  {
    if s != [] {
      SortedIsFixed(s[..|s| - 1], key);
      assert s == s[..|s| - 1] + [s[|s| - 1]];
    }
  }

  /** The in-place insertion sort both call sites use. */
  method InsertionSort<T>(a: array<T>, key: T -> int)
    modifies a
    ensures a[..] == SortBy(old(a[..]), key)
  {
    var i := 0;
    while i < a.Length
      invariant 0 <= i <= a.Length
      invariant a[..i] == SortBy(old(a[..])[..i], key)
      invariant a[i..] == old(a[..])[i..]
    {
      ghost var all := old(a[..]);
      assert all[..i + 1][..i] == all[..i] && a[i] == all[i];
      Sift(a, i, key);
      i := i + 1;
    }
    assert a[..] == a[..i] && old(a[..])[..i] == old(a[..]);
  }

  /** Moves element `i` down into the sorted prefix before it. */
  method Sift<T>(a: array<T>, i: nat, key: T -> int)
    requires i < a.Length
    modifies a
    ensures a[..i + 1] == Insert(old(a[..i]), old(a[i]), key)
    ensures a[i + 1..] == old(a[i + 1..])
  {
    ghost var prefix := a[..i];
    var value := a[i];
    var j := ShiftUp(a, i, value, key);
    InsertAt(prefix, value, key, j);
    assert a[..i + 1] == a[..j] + [value] + a[j + 1..i + 1];
  }

  /** Moves every element above `value` up by one and puts `value` below them. */
  method ShiftUp<T>(a: array<T>, i: nat, value: T, key: T -> int) returns (j: nat)
    requires i < a.Length
    modifies a
    ensures j <= i && a[j] == value
    ensures a[..j] == old(a[..i])[..j] && a[j + 1..i + 1] == old(a[..i])[j..] && a[i + 1..] == old(a[i + 1..])
    ensures j > 0 ==> key(old(a[j - 1])) <= key(value)
    ensures forall k | j <= k < i :: key(old(a[..i])[k]) > key(value)
  {
    ghost var prefix := a[..i];
    j := i;
    while j > 0 && key(a[j - 1]) > key(value)
      invariant 0 <= j <= i
      invariant forall k | 0 <= k < j :: a[k] == prefix[k]
      invariant forall k | j <= k < i :: prefix[k] == a[k + 1] && key(prefix[k]) > key(value)
      invariant a[i + 1..] == old(a[i + 1..])
    {
      a[j] := a[j - 1];
      j := j - 1;
    }
    assert j > 0 ==> a[j - 1] == prefix[j - 1];
    a[j] := value;
  }

  /** Where Insert puts its element. */
  lemma {:induction false} InsertAt<T>(s: seq<T>, x: T, key: T -> int, j: nat)
    requires j <= |s| && (j > 0 ==> key(s[j - 1]) <= key(x)) && forall k | j <= k < |s| :: key(s[k]) > key(x)
    ensures Insert(s, x, key) == s[..j] + [x] + s[j..]
  {
    if j < |s| {
      var front := s[..|s| - 1];
      InsertAt(front, x, key, j);
      assert front[..j] == s[..j] && front[j..] + [s[|s| - 1]] == s[j..];
    }
  }

  /** Copies a list into a buffer and sorts it there. */
  method Sorted<T>(s: seq<T>, key: T -> int) returns (r: seq<T>)
    ensures r == SortBy(s, key)
  {
    if s == [] {
      return [];
    }
    var a := new T[|s|](i requires 0 <= i < |s| => s[i]);
    assert a[..] == s;
    InsertionSort(a, key);
    return a[..];
  }
}
