/** `sorted(xs, key=key, reverse=True)`: a stable sort into non-increasing key order.
    Python's sort keeps equal-key elements in their input order even with `reverse=True`;
    `SortDesc` is an insertion sort with that behaviour, and the lemmas below prove that its
    result is ordered, is a permutation of the input, and keeps every group of equal keys in
    input order. */
module Ranking {

  ghost predicate SortedDesc<T>(s: seq<T>, key: T -> real) {
    forall i, j :: 0 <= i < j < |s| ==> key(s[i]) >= key(s[j])
  }

  /** The elements of `s` whose key is `v`, in the order they appear in `s`. */
  function WithKey<T>(s: seq<T>, key: T -> real, v: real): seq<T>
  {
    if s == [] then [] else (if key(s[0]) == v then [s[0]] else []) + WithKey(s[1..], key, v)
  }

  /** Inserts `x` into `r` after every element whose key is at least `x`'s. */
  function Insert<T>(x: T, r: seq<T>, key: T -> real): (out: seq<T>)
    ensures |out| == |r| + 1
  {
    if r == [] then [x]
    else if key(r[0]) >= key(x) then [r[0]] + Insert(x, r[1..], key)
    else [x] + r
  }

  /** Inserting adds exactly the inserted element. */
  lemma {:induction false} InsertPermutes<T>(x: T, r: seq<T>, key: T -> real)
    ensures multiset(Insert(x, r, key)) == multiset(r) + multiset{x}
  {
    if r != [] && key(r[0]) >= key(x) {
      InsertPermutes(x, r[1..], key);
      assert r == [r[0]] + r[1..];
    }
  }

  function SortDesc<T>(s: seq<T>, key: T -> real): seq<T>
  {
    if s == [] then [] else Insert(s[|s| - 1], SortDesc(s[..|s| - 1], key), key)
  }

  lemma {:induction false} WithKeyAppend<T>(a: seq<T>, b: seq<T>, key: T -> real, v: real)
    ensures WithKey(a + b, key, v) == WithKey(a, key, v) + WithKey(b, key, v)
  {
    if a == [] {
      assert a + b == b;
    } else {
      var head := if key(a[0]) == v then [a[0]] else [];
      assert (a + b)[0] == a[0] && (a + b)[1..] == a[1..] + b;
      WithKeyAppend(a[1..], b, key, v);
      assert WithKey(a + b, key, v) == head + (WithKey(a[1..], key, v) + WithKey(b, key, v));
      assert WithKey(a, key, v) == head + WithKey(a[1..], key, v);
    }
  }

  lemma {:induction false} WithKeyNone<T>(s: seq<T>, key: T -> real, v: real)
    requires forall k :: 0 <= k < |s| ==> key(s[k]) < v
    ensures WithKey(s, key, v) == []
  {
    if s != [] { WithKeyNone(s[1..], key, v); }
  }

  lemma SortedTail<T>(r: seq<T>, key: T -> real)
    requires r != [] && SortedDesc(r, key)
    ensures SortedDesc(r[1..], key)
    ensures forall k :: 0 <= k < |r[1..]| ==> key(r[1..][k]) <= key(r[0])
  {
    forall i, j | 0 <= i < j < |r[1..]| ensures key(r[1..][i]) >= key(r[1..][j]) {
      assert r[1..][i] == r[i + 1] && r[1..][j] == r[j + 1];
    }
    forall k | 0 <= k < |r[1..]| ensures key(r[1..][k]) <= key(r[0]) {
      assert r[1..][k] == r[k + 1];
    }
  }

  /** Inserting below a bound that bounds every element keeps every element below it. */
  lemma {:induction false} InsertBounded<T>(x: T, r: seq<T>, key: T -> real, b: real)
    requires key(x) <= b && forall k :: 0 <= k < |r| ==> key(r[k]) <= b
    ensures forall k :: 0 <= k < |Insert(x, r, key)| ==> key(Insert(x, r, key)[k]) <= b
  {
    if r != [] && key(r[0]) >= key(x) {
      var tail := Insert(x, r[1..], key);
      forall k | 0 <= k < |r[1..]| ensures key(r[1..][k]) <= b {
        assert r[1..][k] == r[k + 1];
      }
      InsertBounded(x, r[1..], key, b);
      assert Insert(x, r, key) == [r[0]] + tail;
    }
  }

  lemma {:induction false} InsertSorted<T>(x: T, r: seq<T>, key: T -> real)
    requires SortedDesc(r, key)
    ensures SortedDesc(Insert(x, r, key), key)
  {
    if r != [] && key(r[0]) >= key(x) {
      var tail := Insert(x, r[1..], key);
      SortedTail(r, key);
      InsertSorted(x, r[1..], key);
      InsertBounded(x, r[1..], key, key(r[0]));
      var out := Insert(x, r, key);
      assert out == [r[0]] + tail;
      forall i, j | 0 <= i < j < |out| ensures key(out[i]) >= key(out[j]) {
        assert out[j] == tail[j - 1];
        if i > 0 { assert out[i] == tail[i - 1]; }
      }
    } else if r != [] {
      var out := Insert(x, r, key);
      assert out == [x] + r;
      forall i, j | 0 <= i < j < |out| ensures key(out[i]) >= key(out[j]) {
        assert out[j] == r[j - 1];
        if i > 0 { assert out[i] == r[i - 1]; }
      }
    }
  }

  lemma WithKeySingle<T>(x: T, key: T -> real, v: real)
    ensures WithKey([x], key, v) == if key(x) == v then [x] else []
  {
    assert [x][1..] == [];
  }

  lemma {:induction false} InsertStable<T>(x: T, r: seq<T>, key: T -> real, v: real)
    requires SortedDesc(r, key)
    ensures WithKey(Insert(x, r, key), key, v)
         == WithKey(r, key, v) + (if key(x) == v then [x] else [])
  {
    if r == [] {
      WithKeySingle(x, key, v);
    } else if key(r[0]) >= key(x) {
      var tail := Insert(x, r[1..], key);
      var head, rest := WithKey([r[0]], key, v), WithKey(r[1..], key, v);
      var t := if key(x) == v then [x] else [];
      SortedTail(r, key);
      InsertStable(x, r[1..], key, v);
      assert Insert(x, r, key) == [r[0]] + tail;
      WithKeyAppend([r[0]], tail, key, v);
      assert WithKey(Insert(x, r, key), key, v) == head + (rest + t);
      WithKeyAppend([r[0]], r[1..], key, v);
      assert [r[0]] + r[1..] == r;
      assert WithKey(r, key, v) == head + rest;
      assert head + (rest + t) == (head + rest) + t;
    } else {
      assert Insert(x, r, key) == [x] + r;
      WithKeyFront(x, r, key, v);
    }
  }

  /** An element put before a sorted list whose keys are all smaller than its own comes last
      among the elements with its key. */
  lemma WithKeyFront<T>(x: T, r: seq<T>, key: T -> real, v: real)
    requires SortedDesc(r, key) && r != [] && key(r[0]) < key(x)
    ensures WithKey([x] + r, key, v) == WithKey(r, key, v) + (if key(x) == v then [x] else [])
  {
    WithKeyAppend([x], r, key, v);
    WithKeySingle(x, key, v);
    if key(x) == v {
      forall k | 0 <= k < |r| ensures key(r[k]) < v {
        if k > 0 { assert key(r[0]) >= key(r[k]); }
      }
      WithKeyNone(r, key, v);
    }
  }

  /** The result of the sort is in non-increasing key order and is a permutation of its input. */
  lemma {:induction false} SortDescOrdered<T>(s: seq<T>, key: T -> real)
    ensures SortedDesc(SortDesc(s, key), key)
    ensures multiset(SortDesc(s, key)) == multiset(s)
    ensures |SortDesc(s, key)| == |s|
  {
    if s != [] {
      SortDescOrdered(s[..|s| - 1], key);
      InsertSorted(s[|s| - 1], SortDesc(s[..|s| - 1], key), key);
      InsertPermutes(s[|s| - 1], SortDesc(s[..|s| - 1], key), key);
      assert s == s[..|s| - 1] + [s[|s| - 1]];
    }
  }

  /** Stability: for every key value, the elements with that key appear in the result in
      exactly the order (and number) they appear in the input. */
  lemma {:induction false} SortDescStable<T>(s: seq<T>, key: T -> real, v: real)
    ensures WithKey(SortDesc(s, key), key, v) == WithKey(s, key, v)
  {
    if s != [] {
      var init, last := s[..|s| - 1], s[|s| - 1];
      var sortedInit := SortDesc(init, key);
      var tail := if key(last) == v then [last] else [];
      assert WithKey(SortDesc(s, key), key, v) == WithKey(sortedInit, key, v) + tail by {
        SortDescOrdered(init, key);
        InsertStable(last, sortedInit, key, v);
      }
      assert WithKey(s, key, v) == WithKey(init, key, v) + tail by {
        assert s == init + [last];
        WithKeyAppend(init, [last], key, v);
        assert [last][1..] == [];
      }
      SortDescStable(init, key, v);
    }
  }

  /** Cutting a list to a prefix cuts every equal-key group to a prefix. */
  lemma WithKeyPrefix<T>(a: seq<T>, b: seq<T>, key: T -> real, v: real)
    requires a <= b
    ensures WithKey(a, key, v) <= WithKey(b, key, v)
  {
    assert b == a + b[|a|..];
    WithKeyAppend(a, b[|a|..], key, v);
  }
}
