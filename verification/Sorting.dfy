/** `Array.prototype.sort` with a numeric comparator `key(a) - key(b)`: a stable sort. */
module Sorting {
  import opened Sequences

  ghost predicate SortedBy<T>(key: T -> int, s: seq<T>) {
    forall i, j :: 0 <= i < j < |s| ==> key(s[i]) <= key(s[j])
  }

  /** Puts `x` before the first element whose key is not smaller. */
  function Insert<T>(key: T -> int, x: T, s: seq<T>): (r: seq<T>)
    ensures multiset(r) == multiset(s) + multiset{x}
    ensures |r| == |s| + 1
  {
    if s == [] || key(x) <= key(s[0]) then
      [x] + s
    else
      assert s == [s[0]] + s[1..];
      [s[0]] + Insert(key, x, s[1..])
  }

  function SortBy<T>(key: T -> int, s: seq<T>): (r: seq<T>)
    ensures multiset(r) == multiset(s)
    ensures |r| == |s|
  {
    if s == [] then
      []
    else
      assert s == [s[0]] + s[1..];
      Insert(key, s[0], SortBy(key, s[1..]))
  }

  /** The elements of `s` with key `k`, in order. */
  ghost function OfKey<T>(key: T -> int, k: int, s: seq<T>): seq<T> {
    if s == [] then [] else (if key(s[0]) == k then [s[0]] else []) + OfKey(key, k, s[1..])
  }

  lemma {:induction false} InsertSorted<T>(key: T -> int, x: T, s: seq<T>)
    requires SortedBy(key, s)
    ensures SortedBy(key, Insert(key, x, s))
  {
    if s == [] || key(x) <= key(s[0]) {
    } else {
      InsertSorted(key, x, s[1..]);
      var r := Insert(key, x, s[1..]);
      forall j | 0 <= j < |r|
        ensures key(s[0]) <= key(r[j])
      {
        assert r[j] in multiset(r);
        if r[j] != x {
          assert r[j] in s[1..];
        }
      }
    }
  }

  /** The result is in key order. */
  lemma {:induction false} SortBySorts<T>(key: T -> int, s: seq<T>)
    ensures SortedBy(key, SortBy(key, s))
  {
    if s != [] {
      SortBySorts(key, s[1..]);
      InsertSorted(key, s[0], SortBy(key, s[1..]));
    }
  }

  lemma {:induction false} InsertOfKey<T>(key: T -> int, k: int, x: T, s: seq<T>)
    ensures OfKey(key, k, Insert(key, x, s)) == (if key(x) == k then [x] else []) + OfKey(key, k, s)
  {
    if s == [] || key(x) <= key(s[0]) {
      assert ([x] + s)[1..] == s;
    } else {
      InsertOfKey(key, k, x, s[1..]);
      assert ([s[0]] + Insert(key, x, s[1..]))[1..] == Insert(key, x, s[1..]);
    }
  }

  /** Stability: elements with equal keys keep their relative order. */
  lemma {:induction false} SortByIsStable<T>(key: T -> int, k: int, s: seq<T>)
    ensures OfKey(key, k, SortBy(key, s)) == OfKey(key, k, s)
  {
    if s != [] {
      SortByIsStable(key, k, s[1..]);
      InsertOfKey(key, k, s[0], SortBy(key, s[1..]));
    }
  }

  /** A list already in key order is left alone. */
  lemma {:induction false} SortByFixesSorted<T>(key: T -> int, s: seq<T>)
    requires SortedBy(key, s)
    ensures SortBy(key, s) == s
  {
    if s != [] {
      HeadAndTail(s);
      SortByFixesSorted(key, s[1..]);
      if |s| > 1 {
        assert key(s[0]) <= key(s[1]);
        assert s[1..][0] == s[1];
      }
    }
  }

  lemma SortByMembers<T>(key: T -> int, s: seq<T>)
    ensures forall x :: x in SortBy(key, s) <==> x in s
  {
    forall x
      ensures x in SortBy(key, s) <==> x in s
    {
      assert x in SortBy(key, s) <==> x in multiset(SortBy(key, s));
    }
  }
}
