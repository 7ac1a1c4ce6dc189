/** Go's sort.Slice and sort.Strings: the result is some sorted permutation, with ties in any order. */
module Sorting {

  ghost predicate WeakOrder<T(!new)>(less: (T, T) -> bool) {
    && (forall x, y :: less(x, y) ==> !less(y, x))
    && (forall x, y, z :: !less(y, x) && !less(z, y) ==> !less(z, x))
  }

  ghost predicate Sorted<T>(less: (T, T) -> bool, s: seq<T>) {
    forall i, j | 0 <= i < j < |s| :: !less(s[j], s[i])
  }

  /** Elements that no comparison separates are equal. */
  ghost predicate Separates<T(!new)>(less: (T, T) -> bool, s: seq<T>) {
    forall x, y | x in s && y in s && !less(x, y) && !less(y, x) :: x == y
  }

  method SortSlice<T(!new)>(s: seq<T>, less: (T, T) -> bool) returns (r: seq<T>)
    requires WeakOrder(less)
    ensures Sorted(less, r)
    ensures multiset(r) == multiset(s)
  {
    r := [];
    for n := 0 to |s|
      invariant Sorted(less, r)
      invariant multiset(r) == multiset(s[..n])
    {
      var x := s[n];
      var k := |r|;
      while k > 0 && less(x, r[k - 1])
        invariant 0 <= k <= |r|
        invariant forall j | k <= j < |r| :: less(x, r[j])
      {
        k := k - 1;
      }
      assert s[..n + 1] == s[..n] + [x];
      Inserted(less, r, x, k);
      r := r[..k] + [x] + r[k..];
    }
    assert s[..|s|] == s;
  }

  /** An element put before all larger ones. */
  lemma Inserted<T(!new)>(less: (T, T) -> bool, r: seq<T>, x: T, k: nat)
    requires WeakOrder(less) && Sorted(less, r) && k <= |r| && (k > 0 ==> !less(x, r[k - 1])) && forall j | k <= j < |r| :: less(x, r[j])
    ensures Sorted(less, r[..k] + [x] + r[k..]) && multiset(r[..k] + [x] + r[k..]) == multiset(r) + multiset{x}
  {
    hide Sorted, WeakOrder;
    assert r == r[..k] + r[k..];
    NotBefore(less, r, x, k);
    Joined(less, r[..k], x, r[k..]);
  }

  lemma NotBefore<T(!new)>(less: (T, T) -> bool, r: seq<T>, x: T, k: nat)
    requires WeakOrder(less) && Sorted(less, r) && k <= |r| && (k > 0 ==> !less(x, r[k - 1])) && forall j | k <= j < |r| :: less(x, r[j])
    ensures Sorted(less, r[..k]) && Sorted(less, r[k..])
    ensures (forall i | 0 <= i < k :: !less(x, r[..k][i])) && (forall j | 0 <= j < |r| - k :: !less(r[k..][j], x))
    ensures forall i, j | 0 <= i < k && 0 <= j < |r| - k :: !less(r[k..][j], r[..k][i])
  {
    forall i | 0 <= i < k ensures !less(x, r[i]) {
      assert i == k - 1 || !less(r[k - 1], r[i]);
    }
  }

  lemma Joined<T>(less: (T, T) -> bool, a: seq<T>, x: T, b: seq<T>)
    requires Sorted(less, a) && Sorted(less, b)
    requires (forall i | 0 <= i < |a| :: !less(x, a[i])) && forall j | 0 <= j < |b| :: !less(b[j], x)
    requires forall i, j | 0 <= i < |a| && 0 <= j < |b| :: !less(b[j], a[i])
    ensures Sorted(less, a + [x] + b)
  {
  }

  lemma SameFirst<T(!new)>(less: (T, T) -> bool, s: seq<T>, t: seq<T>)
    requires Sorted(less, s) && Sorted(less, t) && Separates(less, s) && s != [] && t != [] && multiset(s) == multiset(t)
    ensures s[0] == t[0]
  {
    assert s[0] in multiset(t) && t[0] in multiset(s);
    assert s[0] in t && t[0] in s;
  }

  lemma RestOf<T>(s: seq<T>)
    requires s != []
    ensures s == [s[0]] + s[1..] && multiset(s[1..]) == multiset(s) - multiset{s[0]}
  {
    assert s == [s[0]] + s[1..];
  }

  /** A sorted list over separated elements is determined by what it contains. */
  lemma {:induction false} SortedIsUnique<T(!new)>(less: (T, T) -> bool, s: seq<T>, t: seq<T>)
    requires Sorted(less, s) && Sorted(less, t) && Separates(less, s)
    requires multiset(s) == multiset(t)
    ensures s == t
  {
    assert |s| == |multiset(s)| && |t| == |multiset(t)|;
    if s != [] {
      SameFirst(less, s, t);
      RestOf(s);
      RestOf(t);
      SortedIsUnique(less, s[1..], t[1..]);
    }
  }

  function Insert<T>(less: (T, T) -> bool, x: T, s: seq<T>): (r: seq<T>)
    ensures multiset(r) == multiset(s) + multiset{x}
  {
    if s == [] || !less(s[0], x) then [x] + s
    else
      assert s == [s[0]] + s[1..];
      [s[0]] + Insert(less, x, s[1..])
  }

  /** A sorted permutation chosen once and for all. */
  function Sort<T>(less: (T, T) -> bool, s: seq<T>): (r: seq<T>)
    ensures multiset(r) == multiset(s)
  {
    if s == [] then []
    else
      assert s == [s[0]] + s[1..];
      Insert(less, s[0], Sort(less, s[1..]))
  }

  lemma {:induction false} InsertIsSorted<T(!new)>(less: (T, T) -> bool, x: T, s: seq<T>)
    requires WeakOrder(less) && Sorted(less, s)
    ensures Sorted(less, Insert(less, x, s))
  {
    if s != [] && less(s[0], x) {
      InsertIsSorted(less, x, s[1..]);
      var r := Insert(less, x, s[1..]);
      forall y | y in r
        ensures !less(y, s[0])
      {
        assert y in multiset(r);
        assert y == x || y in s[1..];
      }
    } else if s != [] {
      forall j | 0 <= j < |s|
        ensures !less(s[j], x)
      {
        assert !less(s[0], x) && !less(s[j], s[0]);
      }
    }
  }

  lemma {:induction false} SortIsSorted<T(!new)>(less: (T, T) -> bool, s: seq<T>)
    requires WeakOrder(less)
    ensures Sorted(less, Sort(less, s))
  {
    if s != [] {
      SortIsSorted(less, s[1..]);
      InsertIsSorted(less, s[0], Sort(less, s[1..]));
    }
  }
}
