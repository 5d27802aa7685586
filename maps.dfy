/**
 * Keyed integer storage as the contracts use it: a missing key reads as zero,
 * and the sum of all stored values is what running totals are compared with.
 */
module Maps {

  /** A read that falls back to zero for an absent key (`unwrap_or(Ok(0))`). */
  function Lookup<K(==)>(m: map<K, int>, k: K): (v: int)
    ensures k !in m ==> v == 0
    ensures k in m ==> v == m[k]
  {
    if k in m then m[k] else 0
  }

  /** The sum of every value stored in `m`. */
  ghost function Sum<K>(m: map<K, int>): int
    decreases |m|
  {
    if m == map[] then 0
    else
      var k :| k in m;
      m[k] + Sum(m - {k})
  }

  /** Any stored key may be taken out first: the sum does not depend on the order. */
  lemma {:induction false} SumRemove<K>(m: map<K, int>, k: K)
    requires k in m
    ensures Sum(m) == m[k] + Sum(m - {k})
    decreases |m|
  {
    var j :| j in m && Sum(m) == m[j] + Sum(m - {j});
    if j != k {
      var mj, mk := m - {j}, m - {k};
      assert k in mj && j in mk;
      assert |mj| < |m| && |mk| < |m|;
      SumRemove(mj, k);
      SumRemove(mk, j);
      assert mj - {k} == mk - {j};
    }
  }

  /** Overwriting one key moves the sum by exactly the change at that key. */
  lemma {:induction false} SumUpdate<K>(m: map<K, int>, k: K, v: int)
    ensures Sum(m[k := v]) == Sum(m) - Lookup(m, k) + v
  {
    var m' := m[k := v];
    SumRemove(m', k);
    assert m' - {k} == m - {k};
    if k in m {
      SumRemove(m, k);
    } else {
      assert m - {k} == m;
    }
  }

  /** Removing one key takes exactly its value out of the sum. */
  lemma {:induction false} SumDelete<K>(m: map<K, int>, k: K)
    ensures Sum(m - {k}) == Sum(m) - Lookup(m, k)
  {
    if k in m {
      SumRemove(m, k);
    } else {
      assert m - {k} == m;
    }
  }
}
