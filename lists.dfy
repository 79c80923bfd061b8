/** Python list operations the domain model relies on: `x in xs`, `xs.remove(x)` and slicing. */
module Lists {

  /** No element occurs twice. */
  ghost predicate NoDuplicates<T>(s: seq<T>)
  {
    forall i, j :: 0 <= i < j < |s| ==> s[i] != s[j]
  }

  /** Index of the first occurrence of `x` in `s`. */
  function FirstIndex<T(==)>(s: seq<T>, x: T): (i: nat)
    requires x in s
    ensures i < |s| && s[i] == x && x !in s[..i]
  {
    if s[0] == x then 0 else 1 + FirstIndex(s[1..], x)
  }

  /**
   * Python's `list.remove(x)` guarded by `x in list`: drops the first occurrence of `x` and keeps
   * everything else in order; a list without `x` is returned as it is.
   */
  function RemoveFirst<T(==)>(s: seq<T>, x: T): (r: seq<T>)
    ensures x !in s ==> r == s
  {
    if s == [] then []
    else if s[0] == x then s[1..]
    else [s[0]] + RemoveFirst(s[1..], x)
  }

  /** A present element is cut out at its first occurrence; the parts before and after are kept. */
  lemma {:induction false} RemoveFirstSplits<T>(s: seq<T>, x: T)
    requires x in s
    ensures RemoveFirst(s, x) == s[..FirstIndex(s, x)] + s[FirstIndex(s, x) + 1..]
  {
    if s[0] != x {
      var t := s[1..];
      RemoveFirstSplits(t, x);
      var i := FirstIndex(t, x);
      assert FirstIndex(s, x) == i + 1;
      assert s[..i + 1] == [s[0]] + t[..i];
      assert s[i + 2..] == t[i + 1..];
    }
  }

  /** Removing a present element shortens the list by one and takes exactly that element out. */
  lemma {:induction false} RemoveFirstCounts<T>(s: seq<T>, x: T)
    requires x in s
    ensures |RemoveFirst(s, x)| == |s| - 1
    ensures multiset(RemoveFirst(s, x)) == multiset(s) - multiset{x}
  {
    var i := FirstIndex(s, x);
    var a, b := s[..i], s[i + 1..];
    RemoveFirstSplits(s, x);
    assert s == a + [x] + b;
    assert multiset(s) == multiset(a) + multiset{x} + multiset(b);
  }

  /** Removing an element keeps a duplicate-free list duplicate-free, and removes it entirely. */
  lemma {:induction false} RemoveFirstKeepsNoDuplicates<T>(s: seq<T>, x: T)
    requires NoDuplicates(s)
    ensures NoDuplicates(RemoveFirst(s, x))
    ensures x !in RemoveFirst(s, x)
  {
    if x in s {
      var i := FirstIndex(s, x);
      var r := RemoveFirst(s, x);
      RemoveFirstSplits(s, x);
      assert forall a :: 0 <= a < |r| ==> r[a] == s[if a < i then a else a + 1];
      forall a, b | 0 <= a < b < |r| ensures r[a] != r[b] {
        assert r[a] == s[if a < i then a else a + 1];
        assert r[b] == s[if b < i then b else b + 1];
      }
      forall a | 0 <= a < |r| ensures r[a] != x {
        assert r[a] == s[if a < i then a else a + 1];
      }
    }
  }

  /**
   * Python's `s[start:]`: a negative start counts from the end and is clamped at 0, a start past
   * the end gives the empty list.
   */
  function SliceFrom<T>(s: seq<T>, start: int): (r: seq<T>)
    ensures |r| <= |s| && r == s[|s| - |r|..]
    ensures start >= 0 ==> |r| == (if start < |s| then |s| - start else 0)
    ensures start < 0 ==> |r| == (if -start < |s| then -start else |s|)
  {
    if start >= 0 then (if start < |s| then s[start..] else [])
    else (if |s| + start > 0 then s[|s| + start..] else s)
  }
}
