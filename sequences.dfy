/** Python's `sorted(xs, key=..., reverse=True)` and list-comprehension filtering,
    over sequences, with what each promises: a stable, non-increasing permutation,
    and an order-preserving subsequence. */
module Sequences {

  /** `s` is sorted from the largest key to the smallest. */
  ghost predicate NonIncreasing<T>(s: seq<T>, key: T -> real)
  {
    forall i, j :: 0 <= i < j < |s| ==> key(s[i]) >= key(s[j])
  }

  /** The elements of `s` whose key is `v`, in their order in `s`. */
  function WithKey<T>(s: seq<T>, key: T -> real, v: real): seq<T>
  {
    if s == [] then []
    else (if key(s[0]) == v then [s[0]] else []) + WithKey(s[1..], key, v)
  }

  /** `a` is `b` with some elements left out and the rest in their order. */
  ghost predicate IsSubsequence<T>(a: seq<T>, b: seq<T>)
    decreases |b|
  {
    || a == []
    || (b != [] && ((a[0] == b[0] && IsSubsequence(a[1..], b[1..])) || IsSubsequence(a, b[1..])))
  }

  /** Puts `x` in front of the first element of `s` whose key is not above its own:
      one step of a stable sort from the largest key down. */
  function InsertDesc<T>(x: T, s: seq<T>, key: T -> real): (r: seq<T>)
    ensures multiset(r) == multiset(s) + multiset{x}
  {
    if s == [] || key(x) >= key(s[0]) then [x] + s
    else
      var r := [s[0]] + InsertDesc(x, s[1..], key);
      assert s == [s[0]] + s[1..];
      r
  }

  /** A key no smaller than every key of a non-increasing `t` can go in front. */
  lemma ConsNonIncreasing<T>(a: T, t: seq<T>, key: T -> real)
    requires NonIncreasing(t, key)
    requires forall y :: y in t ==> key(a) >= key(y)
    ensures NonIncreasing([a] + t, key)
  {
    var r := [a] + t;
    forall i, j | 0 <= i < j < |r|
      ensures key(r[i]) >= key(r[j])
    {
      assert r[j] == t[j - 1];
      if i > 0 {
        assert r[i] == t[i - 1];
      }
    }
  }

  lemma {:induction false} InsertDescNonIncreasing<T>(x: T, s: seq<T>, key: T -> real)
    requires NonIncreasing(s, key)
    ensures NonIncreasing(InsertDesc(x, s, key), key)
  {
    if s == [] || key(x) >= key(s[0]) {
      forall y | y in s
        ensures key(x) >= key(y)
      {
        var j :| 0 <= j < |s| && s[j] == y;
      }
      ConsNonIncreasing(x, s, key);
    } else {
      var rest := InsertDesc(x, s[1..], key);
      InsertDescNonIncreasing(x, s[1..], key);
      forall y | y in rest
        ensures key(s[0]) >= key(y)
      {
        assert y in multiset(rest);
        if y != x {
          assert y in multiset(s[1..]);
          var j :| 0 <= j < |s[1..]| && s[1..][j] == y;
          assert s[j + 1] == y;
        }
      }
      ConsNonIncreasing(s[0], rest, key);
    }
  }

  /** Filtering `[h] + s` keeps `h` if its key is `v`, then filters `s`. */
  lemma WithKeyCons<T>(h: T, s: seq<T>, key: T -> real, v: real)
    ensures WithKey([h] + s, key, v) == (if key(h) == v then [h] else []) + WithKey(s, key, v)
  {
    assert ([h] + s)[0] == h && ([h] + s)[1..] == s;
  }

  /** Two elements with different keys can swap places without changing any
      filter by key. */
  lemma WithKeySwap<T>(x: T, y: T, rest: seq<T>, t: seq<T>, key: T -> real, v: real)
    requires key(x) != key(y)
    requires WithKey(rest, key, v) == WithKey([x] + t, key, v)
    ensures WithKey([y] + rest, key, v) == WithKey([x] + ([y] + t), key, v)
  {
    var hx: seq<T> := if key(x) == v then [x] else [];
    var hy: seq<T> := if key(y) == v then [y] else [];
    var w := WithKey(t, key, v);
    WithKeyCons(y, rest, key, v);
    WithKeyCons(x, t, key, v);
    WithKeyCons(y, t, key, v);
    WithKeyCons(x, [y] + t, key, v);
    ConcatSwap(hx, hy, w);
  }

  /** Two pieces of which one is empty can be put in either order. */
  lemma ConcatSwap<T>(a: seq<T>, b: seq<T>, w: seq<T>)
    requires a == [] || b == []
    ensures b + (a + w) == a + (b + w)
  {
    if a == [] {
      assert a + w == w && a + (b + w) == b + w;
    } else {
      assert b + (a + w) == a + w && b + w == w;
    }
  }

  lemma {:induction false} InsertDescStable<T>(x: T, s: seq<T>, key: T -> real, v: real)
    ensures WithKey(InsertDesc(x, s, key), key, v) == WithKey([x] + s, key, v)
  {
    if s != [] && key(x) < key(s[0]) {
      var rest := InsertDesc(x, s[1..], key);
      assert InsertDesc(x, s, key) == [s[0]] + rest;
      InsertDescStable(x, s[1..], key, v);
      WithKeySwap(x, s[0], rest, s[1..], key, v);
      assert [s[0]] + s[1..] == s;
    }
  }

  /** Inserting `x` into a reordering of `t` that keeps every filter by key gives a
      reordering of `[x] + t` that keeps them too. */
  lemma InsertFirstStable<T>(x: T, rest: seq<T>, t: seq<T>, key: T -> real)
    requires forall v :: WithKey(rest, key, v) == WithKey(t, key, v)
    ensures forall v :: WithKey(InsertDesc(x, rest, key), key, v) == WithKey([x] + t, key, v)
  {
    forall v
      ensures WithKey(InsertDesc(x, rest, key), key, v) == WithKey([x] + t, key, v)
    {
      InsertDescStable(x, rest, key, v);
      WithKeyCons(x, rest, key, v);
      WithKeyCons(x, t, key, v);
    }
  }

  /** `sorted(s, key=key, reverse=True)`: the same elements, largest key first, and
      elements with equal keys in their order in `s` (Python's sort is stable, also
      in reverse). */
  function SortDesc<T>(s: seq<T>, key: T -> real): (r: seq<T>)
    ensures multiset(r) == multiset(s)
    ensures NonIncreasing(r, key)
    ensures forall v :: WithKey(r, key, v) == WithKey(s, key, v)
  {
    if s == [] then []
    else
      var rest := SortDesc(s[1..], key);
      var r := InsertDesc(s[0], rest, key);
      InsertDescNonIncreasing(s[0], rest, key);
      assert s == [s[0]] + s[1..];
      InsertFirstStable(s[0], rest, s[1..], key);
      r
  }

  /** `[x for x in s if p(x)]`: the elements of `s` that pass `p`, in order, each as
      often as it occurs in `s`. */
  function Filter<T>(s: seq<T>, p: T -> bool): (r: seq<T>)
    ensures IsSubsequence(r, s)
    ensures forall x :: x in r ==> p(x)
    ensures multiset(r) <= multiset(s)
    ensures forall x :: x in s && p(x) ==> multiset(r)[x] == multiset(s)[x]
  {
    if s == [] then []
    else
      var rest := Filter(s[1..], p);
      assert s == [s[0]] + s[1..];
      if p(s[0]) then
        var r := [s[0]] + rest;
        assert r[1..] == rest;
        r
      else
        rest
  }

  /** Every sequence is a subsequence of itself. */
  lemma {:induction false} SubsequenceOfSelf<T>(s: seq<T>)
    ensures IsSubsequence(s, s)
    decreases |s|
  {
    if s != [] {
      SubsequenceOfSelf(s[1..]);
    }
  }

  /** Leaving out one element leaves a subsequence. */
  lemma {:induction false} SkipOneIsSubsequence<T>(s: seq<T>, index: nat)
    requires index < |s|
    ensures IsSubsequence(s[..index] + s[index + 1..], s)
    decreases index
  {
    if index == 0 {
      assert s[..0] + s[1..] == s[1..];
      SubsequenceOfSelf(s[1..]);
    } else {
      var r := s[..index] + s[index + 1..];
      SkipOneIsSubsequence(s[1..], index - 1);
      assert r[0] == s[0];
      assert r[1..] == s[1..][..index - 1] + s[1..][index..];
    }
  }

  /** Every element of a subsequence is an element of the whole. */
  lemma {:induction false} SubsequenceMembers<T>(a: seq<T>, b: seq<T>)
    requires IsSubsequence(a, b)
    ensures forall x :: x in a ==> x in b
    decreases |b|
  {
    if a == [] {
    } else if a[0] == b[0] && IsSubsequence(a[1..], b[1..]) {
      SubsequenceMembers(a[1..], b[1..]);
      forall x | x in a
        ensures x in b
      {
        if x != a[0] {
          assert x in a[1..];
        }
      }
    } else {
      SubsequenceMembers(a, b[1..]);
    }
  }

  lemma TailNonIncreasing<T>(b: seq<T>, key: T -> real)
    requires b != [] && NonIncreasing(b, key)
    ensures NonIncreasing(b[1..], key)
    ensures forall y :: y in b[1..] ==> key(b[0]) >= key(y)
  {
    forall i, j | 0 <= i < j < |b| - 1
      ensures key(b[1..][i]) >= key(b[1..][j])
    {
      assert b[1..][i] == b[i + 1] && b[1..][j] == b[j + 1];
    }
    forall y | y in b[1..]
      ensures key(b[0]) >= key(y)
    {
      var k :| 0 <= k < |b| - 1 && b[1..][k] == y;
      assert b[k + 1] == y;
    }
  }

  /** Leaving elements out of a sequence sorted from the largest key down keeps it
      sorted. */
  lemma {:induction false} SubsequenceNonIncreasing<T>(a: seq<T>, b: seq<T>, key: T -> real)
    requires IsSubsequence(a, b) && NonIncreasing(b, key)
    ensures NonIncreasing(a, key)
    decreases |b|
  {
    if a == [] {
    } else if a[0] == b[0] && IsSubsequence(a[1..], b[1..]) {
      TailNonIncreasing(b, key);
      SubsequenceNonIncreasing(a[1..], b[1..], key);
      SubsequenceMembers(a[1..], b[1..]);
      ConsNonIncreasing(a[0], a[1..], key);
      assert [a[0]] + a[1..] == a;
    } else {
      TailNonIncreasing(b, key);
      SubsequenceNonIncreasing(a, b[1..], key);
    }
  }
}
