/** Ordering used by both rankers: Python's `list.sort(key=k, reverse=True)`,
    which is a stable sort into non-increasing key order, and the slice
    `s[:n]` that truncates the ranking. The sort is given as a functional
    insertion sort; its three defining properties (sorted, a permutation of
    its input, and stable) are proved below. */
module Ranking {

  /** Keys never increase from left to right. */
  predicate SortedDesc<T>(s: seq<T>, key: T -> real) {
    forall i, j :: 0 <= i < j < |s| ==> key(s[i]) >= key(s[j])
  }

  /** Places `x` after every leading element whose key is at least `x`'s,
      so that `x` follows the elements with an equal key. */
  function Insert<T>(s: seq<T>, x: T, key: T -> real): seq<T> {
    if s == [] then [x]
    else if key(s[0]) >= key(x) then [s[0]] + Insert(s[1..], x, key)
    else [x] + s
  }

  /** `sorted(s, key=key, reverse=True)` */
  function SortDesc<T>(s: seq<T>, key: T -> real): seq<T> {
    if s == [] then [] else Insert(SortDesc(s[..|s| - 1], key), s[|s| - 1], key)
  }

  /** The elements of `s` whose key is `v`, in their order in `s`. */
  function WithKey<T>(s: seq<T>, key: T -> real, v: real): seq<T> {
    if s == [] then []
    else (if key(s[0]) == v then [s[0]] else []) + WithKey(s[1..], key, v)
  }

  /** `s[:n]` for any integer `n` (a negative `n` drops elements from the end). */
  function Take<T>(s: seq<T>, n: int): (r: seq<T>)
    ensures |r| <= |s| && r == s[..|r|]
    ensures n >= 0 ==> |r| == (if n < |s| then n else |s|)
  {
    if n >= 0 then (if n < |s| then s[..n] else s)
    else if |s| + n > 0 then s[..|s| + n]
    else []
  }

  lemma {:induction false} InsertPermutes<T>(s: seq<T>, x: T, key: T -> real)
    ensures multiset(Insert(s, x, key)) == multiset(s) + multiset{x}
  {
    if s != [] && key(s[0]) >= key(x) {
      InsertPermutes(s[1..], x, key);
      assert s == [s[0]] + s[1..];
    }
  }

  lemma {:induction false} InsertSorted<T>(s: seq<T>, x: T, key: T -> real)
    requires SortedDesc(s, key)
    ensures SortedDesc(Insert(s, x, key), key)
  {
    if s != [] && key(s[0]) >= key(x) {
      var rest := Insert(s[1..], x, key);
      InsertSorted(s[1..], x, key);
      InsertPermutes(s[1..], x, key);
      forall j | 0 <= j < |rest|
        ensures key(s[0]) >= key(rest[j])
      {
        assert rest[j] in multiset(rest);
        assert rest[j] in s[1..] || rest[j] == x;
      }
    }
  }

  lemma {:induction false} WithKeyAppend<T>(a: seq<T>, b: seq<T>, key: T -> real, v: real)
    ensures WithKey(a + b, key, v) == WithKey(a, key, v) + WithKey(b, key, v)
  {
    if a == [] {
      assert a + b == b;
    } else {
      var head := if key(a[0]) == v then [a[0]] else [];
      assert (a + b)[0] == a[0];
      assert (a + b)[1..] == a[1..] + b;
      assert WithKey(a + b, key, v) == head + WithKey(a[1..] + b, key, v);
      WithKeyAppend(a[1..], b, key, v);
      assert WithKey(a, key, v) == head + WithKey(a[1..], key, v);
    }
  }

  lemma {:induction false} WithKeyAbsent<T>(s: seq<T>, key: T -> real, v: real)
    requires forall i :: 0 <= i < |s| ==> key(s[i]) != v
    ensures WithKey(s, key, v) == []
  {
    if s != [] {
      WithKeyAbsent(s[1..], key, v);
    }
  }

  /** Inserting into a sorted sequence puts `x` after every element with the
      same key, and changes nothing for other keys. */
  lemma {:induction false} InsertWithKey<T>(s: seq<T>, x: T, key: T -> real, v: real)
    requires SortedDesc(s, key)
    ensures WithKey(Insert(s, x, key), key, v)
         == WithKey(s, key, v) + (if key(x) == v then [x] else [])
  {
    var tail := if key(x) == v then [x] else [];
    if s == [] {
      assert Insert(s, x, key) == [x];
      assert [x][1..] == [];
    } else if key(s[0]) >= key(x) {
      var rest := Insert(s[1..], x, key);
      assert Insert(s, x, key) == [s[0]] + rest;
      assert SortedDesc(s[1..], key);
      InsertWithKey(s[1..], x, key, v);
      WithKeyAppend([s[0]], rest, key, v);
      WithKeyAppend([s[0]], s[1..], key, v);
      assert [s[0]] + s[1..] == s;
    } else {
      assert Insert(s, x, key) == [x] + s;
      WithKeyAppend([x], s, key, v);
      assert [x][1..] == [];
      assert WithKey([x], key, v) == tail;
      if key(x) == v {
        assert forall i :: 0 <= i < |s| ==> key(s[i]) <= key(s[0]) < key(x);
        WithKeyAbsent(s, key, v);
      }
    }
  }

  /** The ranking is ordered by key. */
  lemma {:induction false} SortDescSorted<T>(s: seq<T>, key: T -> real)
    ensures SortedDesc(SortDesc(s, key), key)
  {
    if s != [] {
      SortDescSorted(s[..|s| - 1], key);
      InsertSorted(SortDesc(s[..|s| - 1], key), s[|s| - 1], key);
    }
  }

  /** The ranking holds exactly the input elements. */
  lemma {:induction false} SortDescPermutes<T>(s: seq<T>, key: T -> real)
    ensures multiset(SortDesc(s, key)) == multiset(s)
    ensures |SortDesc(s, key)| == |s|
  {
    if s != [] {
      SortDescPermutes(s[..|s| - 1], key);
      InsertPermutes(SortDesc(s[..|s| - 1], key), s[|s| - 1], key);
      assert s == s[..|s| - 1] + [s[|s| - 1]];
      assert |multiset(SortDesc(s, key))| == |multiset(s)|;
    }
  }

  lemma WithKeySnoc<T>(s: seq<T>, x: T, key: T -> real, v: real)
    ensures WithKey(s + [x], key, v) == WithKey(s, key, v) + (if key(x) == v then [x] else [])
  {
    WithKeyAppend(s, [x], key, v);
    assert [x][1..] == [];
  }

  /** Stability: elements with equal keys keep their input order. */
  lemma {:induction false} SortDescStable<T>(s: seq<T>, key: T -> real, v: real)
    ensures WithKey(SortDesc(s, key), key, v) == WithKey(s, key, v)
  {
    if s != [] {
      var init, last := s[..|s| - 1], s[|s| - 1];
      assert SortDesc(s, key) == Insert(SortDesc(init, key), last, key);
      SortDescStable(init, key, v);
      SortDescSorted(init, key);
      InsertWithKey(SortDesc(init, key), last, key, v);
      assert s == init + [last];
      WithKeySnoc(init, last, key, v);
    }
  }
}
