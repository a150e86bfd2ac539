/**
 Sums of a measure over the values of a dictionary, whatever order it is walked in.

 The sum takes out one key after the other, in an order nobody fixes; any key may be taken out first.
 From this follow the laws the ledger and the reducer use: what an update adds, and how a sum
 splits along a selection of keys.
 */
module Sums {

  ghost function PickKey<K, V>(m: map<K, V>): (k: K)
    requires m != map[]
    ensures k in m
  {
    var k :| k in m;
    k
  }

  // The measure of a plain count.
  function Itself(n: nat): int { n }

  ghost function Sum<K, V>(m: map<K, V>, f: V -> int): int
    decreases |m|
  {
    if m == map[] then 0
    else
      var k := PickKey(m);
      assert |m - {k}| < |m| by { SmallerWithout(m, k); }
      f(m[k]) + Sum(m - {k}, f)
  }

  lemma SmallerWithout<K, V>(m: map<K, V>, k: K)
    requires k in m
    ensures |m - {k}| == |m| - 1
  {
    assert (m - {k}).Keys == m.Keys - {k};
    assert |m.Keys| == |m| && |(m - {k}).Keys| == |m - {k}|;
  }

  // Any key may be taken out first.
  lemma {:induction false} SumWithout<K, V>(m: map<K, V>, k: K, f: V -> int)
    requires k in m
    ensures Sum(m, f) == f(m[k]) + Sum(m - {k}, f)
    decreases |m|
  {
    var j := PickKey(m);
    SmallerWithout(m, j);
    if j != k {
      SumWithout(m - {j}, k, f);
      SmallerWithout(m, k);
      SumWithout(m - {k}, j, f);
      assert m - {j} - {k} == m - {k} - {j};
    }
  }

  lemma {:induction false} SumUpdate<K, V>(m: map<K, V>, k: K, v: V, f: V -> int)
    ensures Sum(m[k := v], f) == Sum(m, f) - (if k in m then f(m[k]) else 0) + f(v)
  {
    SumWithout(m[k := v], k, f);
    if k in m {
      SumWithout(m, k, f);
      assert m[k := v] - {k} == m - {k};
    } else {
      assert m[k := v] - {k} == m;
    }
  }

  lemma SumZero<K, V>(m: map<K, V>, f: V -> int)
    requires forall k :: k in m ==> f(m[k]) == 0
    ensures Sum(m, f) == 0
    decreases |m|
  {
    if m != map[] {
      SmallerWithout(m, PickKey(m));
      SumZero(m - {PickKey(m)}, f);
    }
  }

  // The part of a dictionary whose keys are selected.
  function Only<K, V>(m: map<K, V>, keys: set<K>): map<K, V> {
    map k | k in m && k in keys :: m[k]
  }

  // Sums split along any selection of keys.
  lemma {:induction false} SumSplit<K, V>(m: map<K, V>, keys: set<K>, f: V -> int)
    ensures Sum(m, f) == Sum(Only(m, keys), f) + Sum(Only(m, m.Keys - keys), f)
    decreases |m|
  {
    var a, b := Only(m, keys), Only(m, m.Keys - keys);
    if m == map[] {
      assert a == map[] && b == map[];
    } else {
      var k := PickKey(m);
      var rest := m - {k};
      SmallerWithout(m, k);
      SumSplit(rest, keys, f);
      if k in keys {
        SumWithout(a, k, f);
        assert a - {k} == Only(rest, keys) && b == Only(rest, rest.Keys - keys);
      } else {
        SumWithout(b, k, f);
        assert b - {k} == Only(rest, rest.Keys - keys) && a == Only(rest, keys);
      }
    }
  }
}
