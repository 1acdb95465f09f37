/** Python's `list.sort(key=...)` for a real-valued key: a stable sort, given
    here as insertion of each element after every element whose key is not
    larger. */
module Sorting {

  predicate SortedBy<T>(s: seq<T>, key: T -> real) {
    forall i, j :: 0 <= i < j < |s| ==> key(s[i]) <= key(s[j])
  }

  /** Inserts `x` after every element whose key is at most `key(x)`. */
  function InsertBy<T>(x: T, s: seq<T>, key: T -> real): (r: seq<T>)
    ensures |r| == |s| + 1
    ensures multiset(r) == multiset(s) + multiset{x}
  {
    if s == [] then [x]
    else if key(x) < key(s[0]) then [x] + s
    else
      assert s == [s[0]] + s[1..];
      [s[0]] + InsertBy(x, s[1..], key)
  }

  lemma {:induction false} InsertKeepsSorted<T>(x: T, s: seq<T>, key: T -> real)
    requires SortedBy(s, key)
    ensures SortedBy(InsertBy(x, s, key), key)
  {
    if s != [] && !(key(x) < key(s[0])) {
      var rest := InsertBy(x, s[1..], key);
      InsertKeepsSorted(x, s[1..], key);
      forall k | 0 <= k < |rest|
        ensures key(s[0]) <= key(rest[k])
      {
        assert rest[k] in multiset(rest);
        if rest[k] != x {
          assert rest[k] in multiset(s[1..]);
          var m :| 0 <= m < |s[1..]| && s[1..][m] == rest[k];
          assert s[m + 1] == rest[k];
        }
      }
      var r := [s[0]] + rest;
      forall i, j | 0 <= i < j < |r|
        ensures key(r[i]) <= key(r[j])
      {
        if i > 0 { assert r[i] == rest[i - 1] && r[j] == rest[j - 1]; }
        else { assert r[j] == rest[j - 1]; }
      }
    }
  }

  /** `s.sort(key=key)`: the stable sort of `s`. */
  function SortBy<T>(s: seq<T>, key: T -> real): (r: seq<T>)
    ensures |r| == |s|
    ensures multiset(r) == multiset(s)
  {
    if s == [] then []
    else
      assert s == s[..|s| - 1] + [s[|s| - 1]];
      InsertBy(s[|s| - 1], SortBy(s[..|s| - 1], key), key)
  }

  /** The result of the sort is ordered by the key. */
  lemma {:induction false} SortBySorted<T>(s: seq<T>, key: T -> real)
    ensures SortedBy(SortBy(s, key), key)
  {
    if s != [] {
      SortBySorted(s[..|s| - 1], key);
      InsertKeepsSorted(s[|s| - 1], SortBy(s[..|s| - 1], key), key);
    }
  }

  /** The elements of `s` whose key is `v`, in their order in `s`. */
  function WithKey<T>(s: seq<T>, key: T -> real, v: real): seq<T> {
    if s == [] then []
    else (if key(s[0]) == v then [s[0]] else []) + WithKey(s[1..], key, v)
  }

  /** The part of `s` ahead of the rest: its first element when it has key `v`. */
  function Head<T>(s: seq<T>, key: T -> real, v: real): seq<T>
    requires s != []
  {
    if key(s[0]) == v then [s[0]] else []
  }

  lemma WithKeyCons<T>(s: seq<T>, key: T -> real, v: real)
    requires s != []
    ensures WithKey(s, key, v) == Head(s, key, v) + WithKey(s[1..], key, v)
  {
  }

  lemma {:induction false} WithKeyAppend<T>(a: seq<T>, b: seq<T>, key: T -> real, v: real)
    ensures WithKey(a + b, key, v) == WithKey(a, key, v) + WithKey(b, key, v)
  {
    if a == [] {
      assert a + b == b;
    } else {
      var ab := a + b;
      assert ab[1..] == a[1..] + b;
      assert Head(ab, key, v) == Head(a, key, v);
      WithKeyCons(ab, key, v);
      WithKeyCons(a, key, v);
      WithKeyAppend(a[1..], b, key, v);
    }
  }

  lemma {:induction false} WithKeyNone<T>(s: seq<T>, key: T -> real, v: real)
    requires forall i :: 0 <= i < |s| ==> key(s[i]) != v
    ensures WithKey(s, key, v) == []
  {
    if s != [] {
      WithKeyNone(s[1..], key, v);
      WithKeyCons(s, key, v);
    }
  }

  /** Inserting `x` into a sorted sequence puts it after every element of
      equal key. */
  lemma {:induction false} InsertStable<T>(x: T, s: seq<T>, key: T -> real, v: real)
    requires SortedBy(s, key)
    ensures WithKey(InsertBy(x, s, key), key, v)
            == WithKey(s, key, v) + (if key(x) == v then [x] else [])
  {
    if s == [] {
      WithKeyCons([x], key, v);
      assert [x][1..] == [];
    } else if key(x) < key(s[0]) {
      var r := [x] + s;
      assert InsertBy(x, s, key) == r;
      assert r[1..] == s;
      WithKeyCons(r, key, v);
      if key(x) == v {
        WithKeyNone(s, key, v);
      }
    } else {
      var rest := InsertBy(x, s[1..], key);
      var r := [s[0]] + rest;
      assert InsertBy(x, s, key) == r;
      assert r[1..] == rest;
      assert Head(r, key, v) == Head(s, key, v);
      WithKeyCons(r, key, v);
      WithKeyCons(s, key, v);
      InsertStable(x, s[1..], key, v);
    }
  }

  lemma {:induction false} WithKeyLast<T>(s: seq<T>, key: T -> real, v: real)
    requires s != []
    ensures WithKey(s, key, v)
            == WithKey(s[..|s| - 1], key, v) + (if key(s[|s| - 1]) == v then [s[|s| - 1]] else [])
  {
    var last := s[|s| - 1];
    assert s == s[..|s| - 1] + [last];
    WithKeyAppend(s[..|s| - 1], [last], key, v);
    WithKeyCons([last], key, v);
    assert [last][1..] == [];
  }

  lemma SortByLast<T>(s: seq<T>, key: T -> real)
    requires s != []
    ensures SortBy(s, key) == InsertBy(s[|s| - 1], SortBy(s[..|s| - 1], key), key)
  {
  }

  /** The sort is stable: the elements that share a key come out in the
      order they went in. */
  lemma {:induction false} SortByStable<T>(s: seq<T>, key: T -> real, v: real)
    ensures WithKey(SortBy(s, key), key, v) == WithKey(s, key, v)
  {
    if s != [] {
      var init, last := s[..|s| - 1], s[|s| - 1];
      SortByLast(s, key);
      SortByStable(init, key, v);
      SortBySorted(init, key);
      InsertStable(last, SortBy(init, key), key, v);
      WithKeyLast(s, key, v);
    }
  }

  /** Every element of a sort's result comes from its input. */
  lemma SortByElements<T>(s: seq<T>, key: T -> real, k: nat)
    requires k < |s|
    ensures SortBy(s, key)[k] in s
  {
    var r := SortBy(s, key);
    assert r[k] in multiset(r);
  }

  /** `a.sort(key=key)` on an array: its contents become their stable sort. */
  method SortInPlace<T>(a: array<T>, key: T -> real)
    modifies a
    ensures a[..] == SortBy(old(a[..]), key)
  {
    var sorted := SortBy(a[..], key);
    forall k | 0 <= k < a.Length {
      a[k] := sorted[k];
    }
    assert a[..] == sorted;
  }
}
