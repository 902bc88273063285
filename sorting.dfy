/**
 * Array.prototype.sort with a comparator that returns a number: an element
 * is placed before another when the comparator says it is less. The model
 * is a stable insertion sort, the order a stable sort produces whenever the
 * comparator is consistent.
 */
module Sorting {

  /** Places `x` after every leading element that it does not compare below. */
  function Insert<T>(x: T, t: seq<T>, cmp: (T, T) -> int): (r: seq<T>)
    ensures multiset(r) == multiset(t) + multiset{x}
  {
    if t == [] then [x]
    else if cmp(x, t[0]) < 0 then [x] + t
    else
      assert t == [t[0]] + t[1..];
      [t[0]] + Insert(x, t[1..], cmp)
  }

  /** The sorted copy: the same elements, reordered by `cmp`. */
  function Sort<T>(s: seq<T>, cmp: (T, T) -> int): (r: seq<T>)
    ensures multiset(r) == multiset(s)
  {
    if s == [] then []
    else
      assert s == s[..|s| - 1] + [s[|s| - 1]];
      Insert(s[|s| - 1], Sort(s[..|s| - 1], cmp), cmp)
  }

  /** No element compares above a later one. */
  predicate Sorted<T>(r: seq<T>, cmp: (T, T) -> int) {
    forall i, j :: 0 <= i < j < |r| ==> cmp(r[i], r[j]) <= 0
  }

  /**
   * On the elements of `s`, `cmp` behaves as an order: swapping the operands
   * flips the sign, and "not above" is transitive.
   */
  ghost predicate ConsistentOn<T(!new)>(s: seq<T>, cmp: (T, T) -> int) {
    (forall a, b | a in s && b in s :: cmp(a, b) < 0 <==> cmp(b, a) > 0)
    && (forall a, b, c | a in s && b in s && c in s :: cmp(a, b) <= 0 && cmp(b, c) <= 0 ==> cmp(a, c) <= 0)
  }

  /** An element not above any element of a sorted sequence can lead it. */
  lemma SortedCons<T>(y: T, rest: seq<T>, cmp: (T, T) -> int)
    requires Sorted(rest, cmp)
    requires forall j :: 0 <= j < |rest| ==> cmp(y, rest[j]) <= 0
    ensures Sorted([y] + rest, cmp)
  {
    var r := [y] + rest;
    forall i, j | 0 <= i < j < |r|
      ensures cmp(r[i], r[j]) <= 0
    {
      assert r[j] == rest[j - 1];
      if i > 0 {
        assert r[i] == rest[i - 1];
      }
    }
  }

  lemma {:induction false} InsertSorted<T(!new)>(x: T, t: seq<T>, cmp: (T, T) -> int, s: seq<T>)
    requires x in s && forall a :: a in t ==> a in s
    requires ConsistentOn(s, cmp) && Sorted(t, cmp)
    ensures Sorted(Insert(x, t, cmp), cmp)
  {
    if t == [] {
    } else if cmp(x, t[0]) < 0 {
      forall j | 0 <= j < |t|
        ensures cmp(x, t[j]) <= 0
      {
        if j > 0 {
          assert t[0] in s && t[j] in s;
          assert cmp(t[0], t[j]) <= 0;
        }
      }
      SortedCons(x, t, cmp);
    } else {
      assert t[0] in s;
      assert cmp(t[0], x) <= 0;
      InsertSorted(x, t[1..], cmp, s);
      var rest := Insert(x, t[1..], cmp);
      forall j | 0 <= j < |rest|
        ensures cmp(t[0], rest[j]) <= 0
      {
        var y := rest[j];
        assert y in multiset(rest);
        if y != x {
          assert y in multiset(t[1..]);
          var k :| 0 <= k < |t[1..]| && t[1..][k] == y;
          assert t[k + 1] == y;
        }
      }
      SortedCons(t[0], rest, cmp);
    }
  }

  /** A consistent comparator yields a sorted result. */
  lemma {:induction false} SortSorted<T(!new)>(s: seq<T>, cmp: (T, T) -> int)
    requires ConsistentOn(s, cmp)
    ensures Sorted(Sort(s, cmp), cmp)
  {
    if s != [] {
      var p := s[..|s| - 1];
      assert forall a :: a in p ==> a in s;
      SortSorted(p, cmp);
      forall a | a in Sort(p, cmp)
        ensures a in s
      {
        assert a in multiset(Sort(p, cmp));
      }
      InsertSorted(s[|s| - 1], Sort(p, cmp), cmp, s);
    }
  }
}
