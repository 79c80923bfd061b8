/**
 * Python's built-in `sorted(xs, key=...)` and `list.sort(key=...)` are stable sorts. The model
 * uses one stable insertion sort for all of them; only its result matters, and the lemmas below
 * pin that result down completely: sorted by the key, a permutation of the input, and equal keys
 * kept in input order.
 */
module Sorting {

  /** Non-decreasing by `key`. */
  ghost predicate SortedBy<T>(s: seq<T>, key: T -> int)
  {
    forall i, j :: 0 <= i < j < |s| ==> key(s[i]) <= key(s[j])
  }

  /** The elements of `s` whose key is `k`, in their order in `s`. */
  function WithKey<T>(s: seq<T>, key: T -> int, k: int): seq<T>
  {
    if s == [] then []
    else (if key(s[0]) == k then [s[0]] else []) + WithKey(s[1..], key, k)
  }

  /** Places `x` before the first element whose key is at least `x`'s. */
  function Insert<T>(x: T, r: seq<T>, key: T -> int): seq<T>
  {
    if r == [] || key(x) <= key(r[0]) then [x] + r
    else [r[0]] + Insert(x, r[1..], key)
  }

  /** Stable sort by ascending `key`. */
  function SortBy<T>(s: seq<T>, key: T -> int): seq<T>
  {
    if s == [] then [] else Insert(s[0], SortBy(s[1..], key), key)
  }

  lemma {:induction false} InsertPermutes<T>(x: T, r: seq<T>, key: T -> int)
    ensures multiset(Insert(x, r, key)) == multiset(r) + multiset{x}
    ensures |Insert(x, r, key)| == |r| + 1
  {
    if r != [] && key(x) > key(r[0]) {
      InsertPermutes(x, r[1..], key);
      assert r == [r[0]] + r[1..];
    }
  }

  lemma {:induction false} InsertLowerBound<T>(x: T, r: seq<T>, key: T -> int, b: int)
    requires b <= key(x)
    requires forall i :: 0 <= i < |r| ==> b <= key(r[i])
    ensures forall i :: 0 <= i < |Insert(x, r, key)| ==> b <= key(Insert(x, r, key)[i])
  {
    if r != [] && key(x) > key(r[0]) {
      InsertLowerBound(x, r[1..], key, b);
    }
  }

  lemma {:induction false} InsertSorted<T>(x: T, r: seq<T>, key: T -> int)
    requires SortedBy(r, key)
    ensures SortedBy(Insert(x, r, key), key)
  {
    if r != [] && key(x) > key(r[0]) {
      InsertSorted(x, r[1..], key);
      InsertLowerBound(x, r[1..], key, key(r[0]));
    }
  }

  /** The result is sorted by the key and is a permutation of the input. */
  lemma {:induction false} SortByPermutes<T>(s: seq<T>, key: T -> int)
    ensures SortedBy(SortBy(s, key), key)
    ensures multiset(SortBy(s, key)) == multiset(s)
    ensures |SortBy(s, key)| == |s|
  {
    if s != [] {
      SortByPermutes(s[1..], key);
      InsertSorted(s[0], SortBy(s[1..], key), key);
      InsertPermutes(s[0], SortBy(s[1..], key), key);
      assert s == [s[0]] + s[1..];
    }
  }

  /** Sorting adds no element: everything in the result comes from the input. */
  lemma SortByDrawsFromInput<T>(s: seq<T>, key: T -> int)
    ensures forall i :: 0 <= i < |SortBy(s, key)| ==> SortBy(s, key)[i] in s
  {
    SortByPermutes(s, key);
    forall i | 0 <= i < |SortBy(s, key)| ensures SortBy(s, key)[i] in s {
      assert SortBy(s, key)[i] in multiset(SortBy(s, key));
    }
  }

  lemma {:induction false} WithKeyAppend<T>(a: seq<T>, b: seq<T>, key: T -> int, k: int)
    ensures WithKey(a + b, key, k) == WithKey(a, key, k) + WithKey(b, key, k)
  {
    if a != [] {
      assert (a + b)[1..] == a[1..] + b;
      WithKeyAppend(a[1..], b, key, k);
    } else {
      assert a + b == b;
    }
  }

  lemma WithKeyCons<T>(y: T, t: seq<T>, key: T -> int, k: int)
    ensures WithKey([y] + t, key, k) == (if key(y) == k then [y] else []) + WithKey(t, key, k)
  {
    assert ([y] + t)[1..] == t;
  }

  lemma {:induction false} InsertWithKey<T>(x: T, r: seq<T>, key: T -> int, k: int)
    ensures WithKey(Insert(x, r, key), key, k) == (if key(x) == k then [x] else []) + WithKey(r, key, k)
  {
    if r == [] || key(x) <= key(r[0]) {
      WithKeyCons(x, r, key, k);
    } else {
      var t := Insert(x, r[1..], key);
      assert Insert(x, r, key) == [r[0]] + t;
      InsertWithKey(x, r[1..], key, k);
      WithKeyCons(r[0], t, key, k);
      WithKeyCons(r[0], r[1..], key, k);
      assert r == [r[0]] + r[1..];
      var cx: seq<T> := if key(x) == k then [x] else [];
      var cr: seq<T> := if key(r[0]) == k then [r[0]] else [];
      assert cx == [] || cr == [];
      calc {
        WithKey(Insert(x, r, key), key, k);
        cr + (cx + WithKey(r[1..], key, k));
        { assert cr + cx == cx + cr; }
        cx + (cr + WithKey(r[1..], key, k));
        cx + WithKey(r, key, k);
      }
    }
  }

  /** Stability: for every key, the elements carrying it appear in the same order as in the input. */
  lemma {:induction false} SortByStable<T>(s: seq<T>, key: T -> int, k: int)
    ensures WithKey(SortBy(s, key), key, k) == WithKey(s, key, k)
  {
    if s != [] {
      SortByStable(s[1..], key, k);
      InsertWithKey(s[0], SortBy(s[1..], key), key, k);
    }
  }

  /** Sorting an already sorted sequence leaves it as it is. */
  lemma {:induction false} SortBySortedIsIdentity<T>(s: seq<T>, key: T -> int)
    requires SortedBy(s, key)
    ensures SortBy(s, key) == s
  {
    if s != [] {
      assert SortedBy(s[1..], key);
      SortBySortedIsIdentity(s[1..], key);
      assert s == [s[0]] + s[1..];
    }
  }
}
