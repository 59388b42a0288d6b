/**
 * Sums over Python lists and over the values of Python dicts.
 *
 * A list is a `seq`; its `sum(...)` is `SeqSum` (integers) or `RealSum`
 * (the float-valued Sankey weights). A dict is a `map`, and `sum(d.values())`
 * is `MapSum`, which adds the values in an unspecified key order; the lemma
 * `MapSumRemove` shows that the order does not matter.
 */
module Sums {

  /** No element of `s` occurs twice. */
  predicate Distinct<T(==)>(s: seq<T>)
  {
    forall i, j | 0 <= i < j < |s| :: s[i] != s[j]
  }

  /** The set of elements of a list. */
  function Elements<T>(s: seq<T>): set<T>
  {
    set x | x in s
  }

  /** `sum(s)` for a list of integers. */
  function SeqSum(s: seq<int>): int
  {
    if s == [] then 0 else s[0] + SeqSum(s[1..])
  }

  /** `sum(s)` for a list of (exact) reals. */
  function RealSum(s: seq<real>): real
  {
    if s == [] then 0.0 else s[0] + RealSum(s[1..])
  }

  lemma {:induction false} SeqSumAppend(a: seq<int>, b: seq<int>)
    ensures SeqSum(a + b) == SeqSum(a) + SeqSum(b)
  {
    if a == [] {
      assert a + b == b;
    } else {
      assert (a + b)[1..] == a[1..] + b;
      SeqSumAppend(a[1..], b);
    }
  }

  /** A list of `n` copies of `c` sums to `n * c`. */
  lemma {:induction false} RealSumConstant(s: seq<real>, c: real)
    requires forall i | 0 <= i < |s| :: s[i] == c
    ensures RealSum(s) == |s| as real * c
  {
    if s != [] {
      RealSumConstant(s[1..], c);
    }
  }

  /**
   * `sum(m.values())`: the values of `m`, added in some order of the keys.
   * Non-negative values give a sum that is non-negative and at least each value.
   */
  ghost function MapSum<K>(m: map<K, int>): (s: int)
    ensures (forall k | k in m :: m[k] >= 0) ==> s >= 0 && forall k | k in m :: m[k] <= s
    decreases |m|
  {
    if m == map[] then 0
    else
      var k :| k in m;
      var rest := m - {k};
      assert |rest| < |m| by {
        assert rest.Keys == m.Keys - {k};
      }
      var sum := m[k] + MapSum(rest);
      assert (forall j | j in m :: m[j] >= 0) ==> forall j | j in m :: m[j] <= sum by {
        if forall j | j in m :: m[j] >= 0 {
          assert forall j | j in rest :: rest[j] >= 0;
          forall j | j in m ensures m[j] <= sum {
            if j != k {
              assert j in rest;
            }
          }
        }
      }
      sum
  }

  /** Whichever key is taken out first, the sum is the same. */
  lemma {:induction false} MapSumRemove<K>(m: map<K, int>, k: K)
    requires k in m
    ensures MapSum(m) == m[k] + MapSum(m - {k})
    decreases |m|
  {
    var j :| j in m && MapSum(m) == m[j] + MapSum(m - {j});
    if j != k {
      var mj, mk := m - {j}, m - {k};
      assert |mj| < |m| by { assert mj.Keys == m.Keys - {j}; }
      assert |mk| < |m| by { assert mk.Keys == m.Keys - {k}; }
      MapSumRemove(mj, k);
      MapSumRemove(mk, j);
      assert mj - {k} == mk - {j};
    }
  }

  /** `[m[k] for k in keys]`. */
  function Lookups<K, V>(m: map<K, V>, keys: seq<K>): seq<V>
    requires forall k | k in keys :: k in m
  {
    seq(|keys|, j requires 0 <= j < |keys| => m[keys[j]])
  }

  /** Looking up the first key, then the rest. */
  lemma LookupsCons<K, V>(m: map<K, V>, keys: seq<K>)
    requires keys != [] && forall k | k in keys :: k in m
    ensures Lookups(m, keys) == [m[keys[0]]] + Lookups(m, keys[1..])
  {
  }

  /** Without repeats, the tail of a list holds every element but the head. */
  lemma ElementsOfTail<T>(s: seq<T>)
    requires Distinct(s) && s != []
    ensures Elements(s[1..]) == Elements(s) - {s[0]}
  {
    assert s == [s[0]] + s[1..];
  }

  /** Adding the values of a dict along a list of its keys, each key once, is `MapSum`. */
  lemma {:induction false} LookupsSumIsMapSum<K>(m: map<K, int>, keys: seq<K>)
    requires Distinct(keys) && m.Keys == Elements(keys)
    ensures SeqSum(Lookups(m, keys)) == MapSum(m)
    decreases |keys|
  {
    if keys == [] {
      assert m == map[];
    } else {
      var k := keys[0];
      var rest := keys[1..];
      MapSumRemove(m, k);
      ElementsOfTail(keys);
      assert (m - {k}).Keys == Elements(rest);
      LookupsSumIsMapSum(m - {k}, rest);
      LookupsCons(m, keys);
      assert Lookups(m, rest) == Lookups(m - {k}, rest);
    }
  }
}
