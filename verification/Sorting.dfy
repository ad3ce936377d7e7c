/** Sorting distinct items by a caller-supplied strict order, as Go's sort.Slice is used on map keys. */
module Sorting {

  predicate Distinct<T(==)>(s: seq<T>) {
    forall i, j :: 0 <= i < j < |s| ==> s[i] != s[j]
  }

  ghost predicate StrictOrder<T(!new)>(less: (T, T) -> bool) {
    && (forall a, b, c :: less(a, b) && less(b, c) ==> less(a, c))
    && (forall a :: !less(a, a))
  }

  /** Any two items at different places are ordered one way or the other. */
  ghost predicate Comparable<T>(less: (T, T) -> bool, s: seq<T>) {
    forall i, j :: 0 <= i < j < |s| ==> less(s[i], s[j]) || less(s[j], s[i])
  }

  ghost predicate Ascending<T>(less: (T, T) -> bool, s: seq<T>) {
    forall i, j :: 0 <= i < j < |s| ==> less(s[i], s[j])
  }

  ghost predicate SameItems<T(!new)>(s: seq<T>, t: seq<T>) {
    forall x :: x in s <==> x in t
  }

  lemma InsertAt<T(!new)>(less: (T, T) -> bool, s: seq<T>, k: nat, x: T)
    requires StrictOrder(less) && Ascending(less, s) && k <= |s|
    requires forall i :: 0 <= i < k ==> less(s[i], x)
    requires k < |s| ==> less(x, s[k])
    ensures Ascending(less, s[..k] + [x] + s[k..])
    ensures forall y :: y in s[..k] + [x] + s[k..] <==> y == x || y in s
  {
    var r := s[..k] + [x] + s[k..];
    forall j | k <= j < |s| ensures less(x, s[j]) {
      if j > k { assert less(s[k], s[j]); }
    }
    forall y | y in s ensures y in r {
      var i :| 0 <= i < |s| && s[i] == y;
      assert r[if i < k then i else i + 1] == y;
    }
    assert r[k] == x;
  }

  /** Sorts a list of pairwise comparable items. */
  method SortBy<T(==, !new)>(s: seq<T>, less: (T, T) -> bool) returns (r: seq<T>)
    requires StrictOrder(less) && Comparable(less, s)
    ensures Ascending(less, r) && SameItems(r, s) && |r| == |s|
  {
    r := [];
    for n := 0 to |s|
      invariant Ascending(less, r) && SameItems(r, s[..n]) && |r| == n
    {
      var x := s[n];
      assert forall i :: 0 <= i < |r| ==> r[i] in s[..n];
      var k := 0;
      while k < |r| && less(r[k], x)
        invariant k <= |r| && forall i :: 0 <= i < k ==> less(r[i], x)
      {
        k := k + 1;
      }
      InsertAt(less, r, k, x);
      assert s[..n + 1] == s[..n] + [x];
      r := r[..k] + [x] + r[k..];
    }
    assert s[..|s|] == s;
  }

  /** A set's members as a list, in no particular order. */
  method ListOf<T(==)>(items: set<T>) returns (r: seq<T>)
    ensures Distinct(r) && |r| == |items| && forall x :: x in r <==> x in items
  {
    r := [];
    var rest := items;
    while rest != {}
      invariant rest <= items && |r| + |rest| == |items|
      invariant Distinct(r) && forall x :: x in r <==> x in items && x !in rest
      decreases |rest|
    {
      var x :| x in rest;
      r, rest := r + [x], rest - {x};
    }
  }

  lemma {:induction false} DistinctCount<T>(s: seq<T>)
    requires Distinct(s)
    ensures |set x | x in s| == |s|
  {
    if s == [] {
      assert (set x | x in s) == {};
    } else {
      var init := s[..|s| - 1];
      DistinctCount(init);
      assert (set x | x in s) == (set x | x in init) + {s[|s| - 1]};
    }
  }

  /** A list in strict order has no repetitions, and its members determine it. */
  lemma {:induction false} AscendingUnique<T(!new)>(less: (T, T) -> bool, s: seq<T>, t: seq<T>)
    requires StrictOrder(less) && Ascending(less, s) && Ascending(less, t) && SameItems(s, t)
    ensures s == t
  {
    if t != [] { Occupied(t, s); }
    if s != [] {
      assert s[0] in s;
      var a :| 0 <= a < |t| && t[a] == s[0];
      assert t[0] in t;
      var b :| 0 <= b < |s| && s[b] == t[0];
      assert s[0] == t[0];
      forall x ensures x in s[1..] <==> x in t[1..] {
        TailItems(less, s, x);
        TailItems(less, t, x);
      }
      AscendingUnique(less, s[1..], t[1..]);
      assert s == [s[0]] + s[1..] && t == [t[0]] + t[1..];
    }
  }

  lemma Occupied<T(!new)>(s: seq<T>, t: seq<T>)
    requires SameItems(s, t) && s != []
    ensures t != []
  {
    assert s[0] in s;
  }

  lemma TailItems<T(!new)>(less: (T, T) -> bool, s: seq<T>, x: T)
    requires StrictOrder(less) && Ascending(less, s) && s != []
    ensures x in s[1..] <==> x in s && x != s[0]
  {
    if x in s && x != s[0] {
      var i :| 0 <= i < |s| && s[i] == x;
      assert s[1..][i - 1] == x;
    }
    if x in s[1..] {
      var i :| 0 <= i < |s[1..]| && s[1..][i] == x;
      assert s[i + 1] == x && less(s[0], s[i + 1]);
    }
  }
}
