// Python's `sorted(xs, key=k)` / `list.sort(key=k, reverse=...)`: a stable
// sort by a key under a strict total order on keys. Descending order is the
// same sort under the flipped order, which keeps Python's stability promise
// for `reverse=True` (equal keys stay in their original order).
module Sorting {

  /** `less` is a strict total order on all keys. */
  ghost predicate StrictTotalOrder<K(!new)>(less: (K, K) -> bool)
  {
    (forall a :: !less(a, a)) &&
    (forall a, b, c :: less(a, b) && less(b, c) ==> less(a, c)) &&
    (forall a, b :: a == b || less(a, b) || less(b, a))
  }

  function Flip<K>(less: (K, K) -> bool): (K, K) -> bool
  {
    (a, b) => less(b, a)
  }

  lemma FlipStrictTotal<K(!new)>(less: (K, K) -> bool)
    requires StrictTotalOrder(less)
    ensures StrictTotalOrder(Flip(less))
  {
  }

  /** No later element's key comes strictly before an earlier one's. */
  ghost predicate SortedBy<T, K>(s: seq<T>, key: T -> K, less: (K, K) -> bool)
  {
    forall i, j :: 0 <= i < j < |s| ==> !less(key(s[j]), key(s[i]))
  }

  /** Place `x` before the first element whose key comes after x's. */
  function InsertBy<T, K>(x: T, s: seq<T>, key: T -> K, less: (K, K) -> bool): (r: seq<T>)
    ensures multiset(r) == multiset(s) + multiset{x}
    ensures |r| == |s| + 1
  {
    if s == [] then [x]
    else if less(key(x), key(s[0])) then [x] + s
    else
      assert s == [s[0]] + s[1..];
      [s[0]] + InsertBy(x, s[1..], key, less)
  }

  /** Stable insertion sort: each element is inserted after all those already placed with an equal key. */
  function SortBy<T, K>(s: seq<T>, key: T -> K, less: (K, K) -> bool): (r: seq<T>)
    ensures multiset(r) == multiset(s)
    ensures |r| == |s|
  {
    if s == [] then []
    else
      assert s == s[..|s| - 1] + [s[|s| - 1]];
      InsertBy(s[|s| - 1], SortBy(s[..|s| - 1], key, less), key, less)
  }

  lemma {:induction false} InsertSorted<T, K(!new)>(x: T, s: seq<T>, key: T -> K, less: (K, K) -> bool)
    requires StrictTotalOrder(less)
    requires SortedBy(s, key, less)
    ensures SortedBy(InsertBy(x, s, key, less), key, less)
  {
    if s != [] && !less(key(x), key(s[0])) {
      InsertSorted(x, s[1..], key, less);
      var r := InsertBy(x, s, key, less);
      var t := InsertBy(x, s[1..], key, less);
      assert r == [s[0]] + t;
      forall j | 0 < j < |r|
        ensures !less(key(r[j]), key(r[0]))
      {
        assert r[j] in multiset(t);
        assert r[j] in multiset(s[1..]) + multiset{x};
        if r[j] != x {
          assert r[j] in s[1..];
          var m :| 0 <= m < |s[1..]| && s[1..][m] == r[j];
          assert s[m + 1] == r[j];
        }
      }
    }
  }

  lemma {:induction false} SortBySorted<T, K(!new)>(s: seq<T>, key: T -> K, less: (K, K) -> bool)
    requires StrictTotalOrder(less)
    ensures SortedBy(SortBy(s, key, less), key, less)
  {
    if s != [] {
      SortBySorted(s[..|s| - 1], key, less);
      InsertSorted(s[|s| - 1], SortBy(s[..|s| - 1], key, less), key, less);
    }
  }

  /** The elements of `s` whose key is `k`, in order. */
  function WithKey<T, K(==)>(s: seq<T>, key: T -> K, k: K): (r: seq<T>)
    ensures |r| <= |s|
  {
    if s == [] then []
    else (if key(s[0]) == k then [s[0]] else []) + WithKey(s[1..], key, k)
  }

  lemma {:induction false} WithKeyAppend<T, K>(a: seq<T>, b: seq<T>, key: T -> K, k: K)
    ensures WithKey(a + b, key, k) == WithKey(a, key, k) + WithKey(b, key, k)
  {
    if a != [] {
      assert (a + b)[1..] == a[1..] + b;
      WithKeyAppend(a[1..], b, key, k);
    } else {
      assert a + b == b;
    }
  }

  lemma {:induction false} WithKeyNone<T, K>(s: seq<T>, key: T -> K, k: K)
    requires forall i :: 0 <= i < |s| ==> key(s[i]) != k
    ensures WithKey(s, key, k) == []
  {
    if s != [] {
      WithKeyNone(s[1..], key, k);
    }
  }

  lemma {:induction false} InsertWithKey<T, K(!new)>(x: T, s: seq<T>, key: T -> K, less: (K, K) -> bool, k: K)
    requires StrictTotalOrder(less)
    requires SortedBy(s, key, less)
    ensures WithKey(InsertBy(x, s, key, less), key, k)
         == WithKey(s, key, k) + (if key(x) == k then [x] else [])
  {
    if s == [] {
    } else if less(key(x), key(s[0])) {
      assert InsertBy(x, s, key, less) == [x] + s;
      WithKeyAppend([x], s, key, k);
      if key(x) == k {
        forall i | 0 <= i < |s|
          ensures key(s[i]) != k
        {
          if i > 0 {
            assert !less(key(s[i]), key(s[0]));
          }
        }
        WithKeyNone(s, key, k);
      }
    } else {
      InsertWithKey(x, s[1..], key, less, k);
      assert InsertBy(x, s, key, less) == [s[0]] + InsertBy(x, s[1..], key, less);
      WithKeyAppend([s[0]], InsertBy(x, s[1..], key, less), key, k);
      WithKeyAppend([s[0]], s[1..], key, k);
      HeadTail(s);
    }
  }

  /** Stability: among elements with the same key, the sorted order is the original order. */
  lemma {:induction false} SortByStable<T, K(!new)>(s: seq<T>, key: T -> K, less: (K, K) -> bool, k: K)
    requires StrictTotalOrder(less)
    ensures WithKey(SortBy(s, key, less), key, k) == WithKey(s, key, k)
  {
    if s != [] {
      var init := s[..|s| - 1];
      var x := s[|s| - 1];
      var sorted := SortBy(init, key, less);
      var tail := if key(x) == k then [x] else [];
      assert SortBy(s, key, less) == InsertBy(x, sorted, key, less);
      assert WithKey(InsertBy(x, sorted, key, less), key, k) == WithKey(sorted, key, k) + tail by {
        SortBySorted(init, key, less);
        InsertWithKey(x, sorted, key, less, k);
      }
      assert WithKey(sorted, key, k) == WithKey(init, key, k) by {
        SortByStable(init, key, less, k);
      }
      assert WithKey(s, key, k) == WithKey(init, key, k) + tail by {
        InitLast(s);
        WithKeyAppend(init, [x], key, k);
        assert WithKey([x], key, k) == tail;
      }
    }
  }

  /** A non-empty sequence is its first element followed by the rest. */
  lemma HeadTail<T>(s: seq<T>)
    requires s != []
    ensures [s[0]] + s[1..] == s
  {
  }

  /** A non-empty sequence is its front followed by its last element. */
  lemma InitLast<T>(s: seq<T>)
    requires s != []
    ensures s[..|s| - 1] + [s[|s| - 1]] == s
  {
  }

  /** Concatenation is associative. */
  lemma Assoc<T>(a: seq<T>, b: seq<T>, c: seq<T>)
    ensures a + (b + c) == a + b + c
  {
  }

  /** `xs[:n]`. */
  function Take<T>(s: seq<T>, n: nat): (r: seq<T>)
    ensures |r| == if |s| < n then |s| else n
    ensures r == s[..|r|]
  {
    if |s| <= n then s else s[..n]
  }

  /** Ascending order on reals, the order of Python's default `sorted` on floats. */
  function RealLess(): (real, real) -> bool
  {
    (a: real, b: real) => a < b
  }

  lemma RealLessTotal()
    ensures StrictTotalOrder(RealLess())
  {
  }

  /** Ascending order on integers. */
  function IntLess(): (int, int) -> bool
  {
    (a: int, b: int) => a < b
  }

  lemma IntLessTotal()
    ensures StrictTotalOrder(IntLess())
  {
  }

  /** Sorting keeps exactly the elements it was given. */
  lemma SortByMembers<T, K>(s: seq<T>, key: T -> K, less: (K, K) -> bool, x: T)
    ensures x in SortBy(s, key, less) <==> x in s
  {
    assert x in SortBy(s, key, less) <==> x in multiset(SortBy(s, key, less));
  }

  /** `[x for x in s if p(x)]`. */
  function Where<T>(s: seq<T>, p: T -> bool): (r: seq<T>)
    ensures |r| <= |s|
    ensures forall i :: 0 <= i < |r| ==> p(r[i])
  {
    if s == [] then []
    else Where(s[..|s| - 1], p) + (if p(s[|s| - 1]) then [s[|s| - 1]] else [])
  }

  /** The comprehension keeps exactly the elements that pass the test. */
  lemma {:induction false} WhereMembers<T>(s: seq<T>, p: T -> bool, x: T)
    ensures x in Where(s, p) <==> x in s && p(x)
  {
    if s != [] {
      WhereMembers(s[..|s| - 1], p, x);
      InitLast(s);
    }
  }

  /** The comprehension keeps the order of a sorted sequence. */
  lemma {:induction false} WhereSorted<T, K>(s: seq<T>, p: T -> bool, key: T -> K, less: (K, K) -> bool)
    requires SortedBy(s, key, less)
    ensures SortedBy(Where(s, p), key, less)
  {
    if s != [] {
      var init := s[..|s| - 1];
      var x := s[|s| - 1];
      WhereSorted(init, p, key, less);
      var w := Where(init, p);
      forall i | 0 <= i < |w|
        ensures !less(key(x), key(w[i]))
      {
        WhereMembers(init, p, w[i]);
        var k :| 0 <= k < |init| && init[k] == w[i];
        assert s[k] == w[i];
      }
    }
  }

  /** `reversed(s)`. */
  function Reversed<T>(s: seq<T>): (r: seq<T>)
    ensures |r| == |s|
  {
    seq(|s|, i requires 0 <= i < |s| => s[|s| - 1 - i])
  }

  /** Reversing keeps the elements. */
  lemma ReversedMembers<T>(s: seq<T>, x: T)
    ensures x in Reversed(s) <==> x in s
  {
    if x in s {
      var k :| 0 <= k < |s| && s[k] == x;
      assert Reversed(s)[|s| - 1 - k] == x;
    }
  }

  /** Reversing a sequence sorted under the flipped order sorts it under the order itself. */
  lemma ReversedSorted<T, K>(s: seq<T>, key: T -> K, less: (K, K) -> bool)
    requires SortedBy(s, key, Flip(less))
    ensures SortedBy(Reversed(s), key, less)
  {
    var r := Reversed(s);
    forall i, j | 0 <= i < j < |r|
      ensures !less(key(r[j]), key(r[i]))
    {
      assert r[i] == s[|s| - 1 - i] && r[j] == s[|s| - 1 - j];
    }
  }

  /** Cutting a sorted sequence keeps its head: an element left out never comes before one kept. */
  lemma TakeKeepsTop<T, K>(s: seq<T>, key: T -> K, less: (K, K) -> bool, n: nat, x: T)
    requires SortedBy(s, key, less) && x in s && x !in Take(s, n)
    ensures |Take(s, n)| == n
    ensures forall g :: g in Take(s, n) ==> !less(key(x), key(g))
  {
    var j :| 0 <= j < |s| && s[j] == x;
    var t := Take(s, n);
    assert forall i :: 0 <= i < |t| ==> s[i] == t[i] != x;
    forall g | g in t
      ensures !less(key(x), key(g))
    {
      var i :| 0 <= i < |t| && t[i] == g;
      assert s[i] == g;
    }
  }
}
