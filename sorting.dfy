/**
 * A stable sort by an integer key, standing for Python's `sorted(..., key=)`
 * and JavaScript's `Array.prototype.sort` with a numeric comparator.
 */
module Sorting {
  predicate SortedBy<T>(key: T -> int, s: seq<T>)
  {
    forall i, j :: 0 <= i < j < |s| ==> key(s[i]) <= key(s[j])
  }

  /** Inserts `x` before the first element whose key is not lower, so after exactly the lower ones. */
  function InsertBy<T>(key: T -> int, x: T, s: seq<T>): (r: seq<T>)
    requires SortedBy(key, s)
    ensures SortedBy(key, r) && multiset(r) == multiset(s) + multiset{x}
    ensures forall y :: y in r ==> y == x || y in s
  {
    if s == [] then [x]
    else if key(x) <= key(s[0]) then [x] + s
    else
      assert s == [s[0]] + s[1..];
      var rest := InsertBy(key, x, s[1..]);
      assert forall y :: y in rest ==> key(s[0]) <= key(y);
      ConsSorted(key, s[0], rest);
      [s[0]] + rest
  }

  /** A sorted sequence stays sorted with a smaller-or-equal head in front. */
  lemma ConsSorted<T>(key: T -> int, h: T, s: seq<T>)
    requires SortedBy(key, s) && forall y :: y in s ==> key(h) <= key(y)
    ensures SortedBy(key, [h] + s)
  {
    forall i, j | 0 <= i < j < |[h] + s|
      ensures key(([h] + s)[i]) <= key(([h] + s)[j])
    {
      if i > 0 {
        assert ([h] + s)[i] == s[i - 1] && ([h] + s)[j] == s[j - 1];
      } else {
        assert ([h] + s)[j] == s[j - 1] && s[j - 1] in s;
      }
    }
  }

  /** A sorted permutation of `s`. */
  function SortBy<T>(key: T -> int, s: seq<T>): (r: seq<T>)
    ensures SortedBy(key, r) && multiset(r) == multiset(s) && |r| == |s|
  {
    if s == [] then []
    else
      assert s == [s[0]] + s[1..];
      InsertBy(key, s[0], SortBy(key, s[1..]))
  }

  /** Sorting keeps exactly the elements it was given. */
  lemma SortByMembers<T>(key: T -> int, s: seq<T>, x: T)
    ensures x in SortBy(key, s) <==> x in s
  {
    assert x in SortBy(key, s) <==> x in multiset(SortBy(key, s));
    assert x in s <==> x in multiset(s);
  }

  /** The elements of `s` whose key is `k`, in their order in `s`. */
  function WithKey<T>(key: T -> int, k: int, s: seq<T>): seq<T>
  {
    if s == [] then [] else (if key(s[0]) == k then [s[0]] else []) + WithKey(key, k, s[1..])
  }

  lemma WithKeyCons<T>(key: T -> int, k: int, h: T, t: seq<T>)
    ensures WithKey(key, k, [h] + t) == (if key(h) == k then [h] else []) + WithKey(key, k, t)
  {
    assert ([h] + t)[0] == h && ([h] + t)[1..] == t;
  }

  /** Inserting `x` puts it ahead of every element with the same key. */
  lemma {:induction false} InsertByWithKey<T>(key: T -> int, x: T, s: seq<T>, k: int)
    requires SortedBy(key, s)
    ensures WithKey(key, k, InsertBy(key, x, s)) == (if key(x) == k then [x] else []) + WithKey(key, k, s)
    decreases |s|
  {
    if s == [] || key(x) <= key(s[0]) {
      assert InsertBy(key, x, s) == [x] + s;
      WithKeyCons(key, k, x, s);
    } else {
      var rest := InsertBy(key, x, s[1..]);
      assert InsertBy(key, x, s) == [s[0]] + rest;
      InsertByWithKey(key, x, s[1..], k);
      WithKeyCons(key, k, s[0], rest);
      WithKeyCons(key, k, s[0], s[1..]);
      assert s == [s[0]] + s[1..];
      var tail := WithKey(key, k, s[1..]);
      if key(x) == k {
        assert key(s[0]) != k;
        assert WithKey(key, k, [s[0]] + rest) == WithKey(key, k, rest) == [x] + tail;
        assert WithKey(key, k, s) == tail;
      } else {
        var head := if key(s[0]) == k then [s[0]] else [];
        assert WithKey(key, k, [s[0]] + rest) == head + WithKey(key, k, rest);
        assert WithKey(key, k, rest) == tail;
        assert WithKey(key, k, s) == head + tail;
      }
    }
  }

  /** The sort is stable: the elements with any one key keep their order. */
  lemma {:induction false} SortByStable<T>(key: T -> int, s: seq<T>, k: int)
    ensures WithKey(key, k, SortBy(key, s)) == WithKey(key, k, s)
    decreases |s|
  {
    if s != [] {
      SortByStable(key, s[1..], k);
      InsertByWithKey(key, s[0], SortBy(key, s[1..]), k);
    }
  }
}
