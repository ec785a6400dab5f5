/** Counters: maps from labels to totals that only grow. */
module Counters {

  function Get<K>(m: map<K, nat>, k: K): nat {
    if k in m then m[k] else 0
  }

  function Add<K>(m: map<K, nat>, k: K, amount: nat): map<K, nat> {
    m[k := Get(m, k) + amount]
  }

  /** The sum of all values. */
  ghost function Sum<K>(m: map<K, nat>): nat
    decreases |m|
  {
    if m == map[] then 0
    else
      var k :| k in m;
      m[k] + Sum(m - {k})
  }

  lemma {:induction false} SumWithout<K>(m: map<K, nat>, k: K)
    requires k in m
    ensures Sum(m) == m[k] + Sum(m - {k})
    decreases |m|
  {
    var first :| first in m && Sum(m) == m[first] + Sum(m - {first});
    if first != k {
      SumWithout(m - {first}, k);
      SumWithout(m - {k}, first);
      assert m - {first} - {k} == m - {k} - {first};
    }
  }

  /** Adding to one counter adds to the sum. */
  lemma SumAdd<K>(m: map<K, nat>, k: K, amount: nat)
    ensures Sum(Add(m, k, amount)) == Sum(m) + amount
  {
    var grown := Add(m, k, amount);
    SumWithout(grown, k);
    if k in m {
      SumWithout(m, k);
      assert grown - {k} == m - {k};
    } else {
      assert grown - {k} == m;
    }
  }
}
