/** Totals over the entries of a map, in no particular order. */
module Sums {

  ghost function Pick<K>(m: map<K, nat>): (k: K)
    requires m != map[]
    ensures k in m
  {
    assert m.Keys != {};
    var k :| k in m.Keys;
    k
  }

  ghost function Total<K>(m: map<K, nat>): nat
    decreases |m|
  {
    if m == map[] then 0
    else
      assert (m - {Pick(m)}).Keys == m.Keys - {Pick(m)};
      m[Pick(m)] + Total(m - {Pick(m)})
  }

  /** Any entry may be taken out first. */
  lemma {:induction false} TotalSplit<K>(m: map<K, nat>, k: K)
    requires k in m
    ensures Total(m) == m[k] + Total(m - {k})
    decreases |m|
  {
    var j := Pick(m);
    if j != k {
      assert (m - {j}).Keys == m.Keys - {j} && (m - {k}).Keys == m.Keys - {k};
      TotalSplit(m - {j}, k);
      TotalSplit(m - {k}, j);
      assert m - {j} - {k} == m - {k} - {j};
    }
  }

  /** Setting an entry changes the total by what the entry changes. */
  lemma TotalPut<K>(m: map<K, nat>, k: K, v: nat)
    ensures Total(m[k := v]) == Total(m) + v - (if k in m then m[k] else 0)
  {
    TotalSplit(m[k := v], k);
    assert m[k := v] - {k} == m - {k};
    if k in m {
      TotalSplit(m, k);
    } else {
      assert m - {k} == m;
    }
  }
}
