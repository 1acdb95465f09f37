/** A Python dict: lookups by key, and iteration in insertion order, where
    assigning to an existing key keeps its place and a new key goes last. */
module Dicts {
  import opened Base

  predicate Distinct<T(==)>(s: seq<T>) {
    forall i, j :: 0 <= i < j < |s| ==> s[i] != s[j]
  }

  /** The keys in insertion order, and the value stored under each key. */
  datatype Dict<K(==, !new), V> = Dict(order: seq<K>, entries: map<K, V>) {
    /** The order lists every stored key exactly once, as in every dict
        Python builds. */
    ghost predicate Valid() {
      Distinct(order) && forall k :: k in entries <==> k in order
    }
  }

  /** `{}`. */
  function Empty<K(==, !new), V>(): (r: Dict<K, V>)
    ensures r.order == [] && r.entries == map[]
  {
    Dict([], map[])
  }

  /** `d.get(k)`: the value stored under `k`, if any. */
  function Get<K(==, !new), V>(d: Dict<K, V>, k: K): (r: Option<V>)
    ensures r.Some? <==> k in d.entries
    ensures r.Some? ==> r.value == d.entries[k]
  {
    if k in d.entries then Some(d.entries[k]) else None
  }

  /** `d.get(k, default)`. */
  function GetOr<K(==, !new), V>(d: Dict<K, V>, k: K, default: V): (r: V)
    ensures k in d.entries ==> r == d.entries[k]
    ensures k !in d.entries ==> r == default
  {
    if k in d.entries then d.entries[k] else default
  }

  lemma AppendNewKeepsDistinct<K(!new)>(s: seq<K>, k: K)
    requires Distinct(s) && k !in s
    ensures Distinct(s + [k])
  {
    forall i, j | 0 <= i < j < |s + [k]| ensures (s + [k])[i] != (s + [k])[j] {
      if j == |s| {
        assert (s + [k])[i] == s[i];
        assert s[i] in s;
      }
    }
  }

  /** `d[k] = v`. */
  function Put<K(==, !new), V>(d: Dict<K, V>, k: K, v: V): (r: Dict<K, V>)
    ensures r.entries == d.entries[k := v]
    ensures r.order == if k in d.entries then d.order else d.order + [k]
  {
    if k in d.entries then Dict(d.order, d.entries[k := v])
    else Dict(d.order + [k], d.entries[k := v])
  }

  lemma PutKeepsValid<K(!new), V>(d: Dict<K, V>, k: K, v: V)
    requires d.Valid()
    ensures Put(d, k, v).Valid()
  {
    if k !in d.entries {
      AppendNewKeepsDistinct(d.order, k);
    }
  }

  /** `s` without `k`, order kept. */
  function Without<K(==, !new)>(s: seq<K>, k: K): (r: seq<K>)
    ensures forall x :: x in r <==> x in s && x != k
    ensures k !in s ==> r == s
  {
    if s == [] then []
    else
      var rest := Without(s[1..], k);
      assert forall x :: x in s <==> x == s[0] || x in s[1..] by {
        assert s == [s[0]] + s[1..];
      }
      if s[0] == k then rest
      else
        assert k !in s ==> s == [s[0]] + s[1..];
        [s[0]] + rest
  }

  lemma {:induction false} WithoutKeepsDistinct<K(!new)>(s: seq<K>, k: K)
    requires Distinct(s)
    ensures Distinct(Without(s, k))
  {
    if s != [] {
      assert s[0] !in s[1..] && Distinct(s[1..]) by {
        forall i | 0 <= i < |s[1..]| ensures s[1..][i] != s[0] {
          assert s[1..][i] == s[i + 1];
        }
      }
      WithoutKeepsDistinct(s[1..], k);
      var rest := Without(s[1..], k);
      if s[0] != k {
        var r := [s[0]] + rest;
        forall i, j | 0 <= i < j < |r| ensures r[i] != r[j] {
          if i == 0 { assert r[j] in rest; }
          else { assert r[i] == rest[i - 1] && r[j] == rest[j - 1]; }
        }
      }
    }
  }

  /** `d.pop(k, None)`: the dict without `k`. */
  function Remove<K(==, !new), V>(d: Dict<K, V>, k: K): (r: Dict<K, V>)
    ensures r.entries == d.entries - {k}
    ensures forall x :: x in r.order <==> x in d.order && x != k
  {
    Dict(Without(d.order, k), d.entries - {k})
  }

  lemma RemoveKeepsValid<K(!new), V>(d: Dict<K, V>, k: K)
    requires d.Valid()
    ensures Remove(d, k).Valid()
  {
    WithoutKeepsDistinct(d.order, k);
  }

  /** The keys from position `i` of the order on. */
  ghost function KeysFrom<K(!new), V>(d: Dict<K, V>, i: nat): (r: set<K>)
    ensures forall k :: k in r ==> k in d.order
    decreases |d.order| - i
  {
    if i >= |d.order| then {} else {d.order[i]} + KeysFrom(d, i + 1)
  }

  /** A key lies at or after position `i` exactly when some position from
      `i` on holds it. */
  lemma {:induction false} KeysFromPositions<K(!new), V>(d: Dict<K, V>, i: nat, k: K)
    ensures k in KeysFrom(d, i) <==> exists j :: i <= j < |d.order| && d.order[j] == k
    decreases |d.order| - i
  {
    if i < |d.order| {
      KeysFromPositions(d, i + 1, k);
      if d.order[i] != k && k in KeysFrom(d, i) {
        var j :| i + 1 <= j < |d.order| && d.order[j] == k;
      }
    }
  }

  /** From position 0 on, the keys are the stored keys. */
  lemma AllKeys<K(!new), V>(d: Dict<K, V>)
    requires d.Valid()
    ensures KeysFrom(d, 0) == d.entries.Keys
  {
    forall k ensures k in KeysFrom(d, 0) <==> k in d.entries {
      KeysFromPositions(d, 0, k);
    }
  }

  /** `sum(d.values())` over the keys from position `i` on. */
  function SumFrom<K(==, !new)>(d: Dict<K, real>, i: nat): real
    decreases |d.order| - i
  {
    if i >= |d.order| then 0.0 else GetOr(d, d.order[i], 0.0) + SumFrom(d, i + 1)
  }

  /** `sum(d.values())`. */
  function SumValues<K(==, !new)>(d: Dict<K, real>): real {
    SumFrom(d, 0)
  }

  /** Every value of `d` transformed by `f`, keys and order kept. */
  function MapValues<K(==, !new), V, W>(d: Dict<K, V>, f: V -> W): (r: Dict<K, W>)
    ensures r.order == d.order && r.entries.Keys == d.entries.Keys
    ensures forall k :: k in d.entries ==> r.entries[k] == f(d.entries[k])
  {
    Dict(d.order, map k | k in d.entries :: f(d.entries[k]))
  }

  /** Storing `v` under a stored key changes the sum from position `i` by
      what it replaces, when the key sits at or after `i`. */
  lemma {:induction false} SumFromAfterPut<K(!new)>(d: Dict<K, real>, k: K, v: real, i: nat)
    requires d.Valid() && k in d.entries && i <= |d.order|
    ensures SumFrom(Put(d, k, v), i)
            == SumFrom(d, i) + (if k in d.order[i..] then v - d.entries[k] else 0.0)
    decreases |d.order| - i
  {
    if i < |d.order| {
      SumFromAfterPut(d, k, v, i + 1);
      assert d.order[i..] == [d.order[i]] + d.order[i + 1..];
      if d.order[i] == k {
        assert k !in d.order[i + 1..] by {
          forall j | i + 1 <= j < |d.order| ensures d.order[j] != k {
            assert d.order[i] != d.order[j];
          }
        }
      }
    }
  }

  /** Storing under a new key adds its value to every sum that starts
      inside the old order. */
  lemma {:induction false} SumFromAfterAppend<K(!new)>(d: Dict<K, real>, k: K, v: real, i: nat)
    requires d.Valid() && k !in d.entries && i <= |d.order|
    ensures SumFrom(Put(d, k, v), i) == SumFrom(d, i) + v
    decreases |d.order| - i
  {
    var r := Put(d, k, v);
    if i < |d.order| {
      SumFromAfterAppend(d, k, v, i + 1);
      assert r.order[i] == d.order[i];
      assert d.order[i] in d.entries;
    } else {
      assert r.order[i] == k;
      assert SumFrom(r, i + 1) == 0.0;
    }
  }

  /** Storing under a key replaces that key's share of the total. */
  lemma SumAfterPut<K(!new)>(d: Dict<K, real>, k: K, v: real)
    requires d.Valid()
    ensures SumValues(Put(d, k, v)) == SumValues(d) + v - GetOr(d, k, 0.0)
  {
    if k in d.entries {
      SumFromAfterPut(d, k, v, 0);
      assert d.order[0..] == d.order;
    } else {
      SumFromAfterAppend(d, k, v, 0);
    }
  }
}
