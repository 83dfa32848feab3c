/** Finite sums over maps, sequences and bags. */
module Sums {

  /** Sum of the values of a map. */
  ghost function MapSum<K>(m: map<K, int>): int {
    if m == map[] then 0
    else
      var k :| k in m;
      m[k] + MapSum(m - {k})
  }

  /** Any key may be taken out first. */
  lemma {:induction false} MapSumRemove<K>(m: map<K, int>, k: K)
    requires k in m
    ensures MapSum(m) == m[k] + MapSum(m - {k})
    decreases |m|
  {
    var first :| first in m && MapSum(m) == m[first] + MapSum(m - {first});
    if first != k {
      MapSumRemove(m - {first}, k);
      MapSumRemove(m - {k}, first);
      assert m - {first} - {k} == m - {k} - {first};
    }
  }

  lemma MapSumUpdate<K>(m: map<K, int>, k: K, v: int)
    ensures MapSum(m[k := v]) == MapSum(m) + v - (if k in m then m[k] else 0)
  {
    var m' := m[k := v];
    MapSumRemove(m', k);
    assert m' - {k} == m - {k};
    if k in m {
      MapSumRemove(m, k);
    } else {
      assert m - {k} == m;
    }
  }

  lemma {:induction false} MapSumDelete<K>(m: map<K, int>, k: K)
    ensures MapSum(m - {k}) == MapSum(m) - (if k in m then m[k] else 0)
  {
    if k in m {
      MapSumRemove(m, k);
    } else {
      assert m - {k} == m;
    }
  }

  /** Sum of a sequence of bags. */
  function BagSum<T>(bags: seq<multiset<T>>): multiset<T> {
    if bags == [] then multiset{} else BagSum(bags[..|bags| - 1]) + bags[|bags| - 1]
  }

  /** Replacing one bag changes the sum by the difference of the two bags. */
  lemma {:induction false} BagSumUpdate<T>(bags: seq<multiset<T>>, i: nat, b: multiset<T>)
    requires i < |bags|
    ensures BagSum(bags[i := b]) + bags[i] == BagSum(bags) + b
  {
    var last := |bags| - 1;
    if i < last {
      BagSumUpdate(bags[..last], i, b);
      assert bags[i := b][..last] == bags[..last][i := b];
      calc {
        BagSum(bags[i := b]) + bags[i];
        BagSum(bags[..last][i := b]) + bags[last] + bags[i];
        BagSum(bags[..last]) + b + bags[last];
        BagSum(bags) + b;
      }
    } else {
      assert bags[i := b][..last] == bags[..last];
    }
  }

  /** Adding bags pointwise adds the sums. */
  lemma {:induction false} BagSumAdd<T>(a: seq<multiset<T>>, b: seq<multiset<T>>, c: seq<multiset<T>>)
    requires |a| == |b| == |c|
    requires forall i | 0 <= i < |a| :: c[i] == a[i] + b[i]
    ensures BagSum(c) == BagSum(a) + BagSum(b)
  {
    if a != [] {
      var last := |a| - 1;
      BagSumAdd(a[..last], b[..last], c[..last]);
    }
  }

  lemma {:induction false} BagSumEmpty<T>(bags: seq<multiset<T>>)
    requires forall i | 0 <= i < |bags| :: bags[i] == multiset{}
    ensures BagSum(bags) == multiset{}
  {
    if bags != [] {
      BagSumEmpty(bags[..|bags| - 1]);
    }
  }

  // ----- sizes of sets -----

  lemma SubsetCard<T>(a: set<T>, b: set<T>)
    requires a <= b
    ensures |a| <= |b|
    ensures |a| == |b| ==> a == b
  {
    assert b == a + (b - a);
    assert |b| == |a| + |b - a|;
  }

  /** The numbers below n. */
  ghost function Upto(n: nat): (r: set<nat>)
    ensures |r| == n && forall p: nat :: p in r <==> p < n
  {
    if n == 0 then {} else Upto(n - 1) + {n - 1}
  }
}
