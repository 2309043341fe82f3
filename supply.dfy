/** The token supply: the sum of every balance held in a ledger map. */
module Supply {

  /** Sum of all values of `m`; a map with no entries sums to 0. */
  ghost function Total<K>(m: map<K, int>): int
    decreases |m|
  {
    if m.Keys == {} then 0
    else
      var k :| k in m;
      assert |m - {k}| < |m| by { assert (m - {k}).Keys == m.Keys - {k}; }
      m[k] + Total(m - {k})
  }

  /** Removing any one key takes exactly its value out of the sum,
      whichever key `Total` itself happened to pick. */
  lemma {:induction false} TotalRemove<K>(m: map<K, int>, j: K)
    requires j in m
    ensures Total(m) == m[j] + Total(m - {j})
    decreases |m|
  {
    var k :| k in m && Total(m) == m[k] + Total(m - {k});
    if k != j {
      assert (m - {k}).Keys == m.Keys - {k};
      assert (m - {j}).Keys == m.Keys - {j};
      TotalRemove(m - {k}, j);
      TotalRemove(m - {j}, k);
      assert (m - {k}) - {j} == (m - {j}) - {k};
    }
  }

  /** Writing `v` at key `k` changes the sum by `v` minus what `k` held before
      (an absent key held 0). */
  lemma TotalUpdate<K>(m: map<K, int>, k: K, v: int)
    ensures Total(m[k := v]) == Total(m) - (if k in m then m[k] else 0) + v
  {
    TotalRemove(m[k := v], k);
    if k in m {
      TotalRemove(m, k);
      assert m[k := v] - {k} == m - {k};
    } else {
      assert m[k := v] - {k} == m;
    }
  }
}
