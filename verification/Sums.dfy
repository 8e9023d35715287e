/** Sums of integers over finite maps, independent of any enumeration order. */
module Sums {

  ghost function MapSum<K>(m: map<K, int>): int
    decreases |m|
  {
    if m.Keys == {} then 0
    else
      var k :| k in m.Keys;
      assert |m - {k}| < |m| by { assert (m - {k}).Keys == m.Keys - {k}; }
      m[k] + MapSum(m - {k})
  }

  /** Any key may be taken out first. */
  lemma {:induction false} MapSumExtract<K>(m: map<K, int>, k: K)
    requires k in m
    ensures MapSum(m) == m[k] + MapSum(m - {k})
    decreases |m|
  {
    var j :| j in m.Keys && MapSum(m) == m[j] + MapSum(m - {j});
    if j != k {
      assert |m - {j}| < |m| && |m - {k}| < |m| by {
        assert (m - {j}).Keys == m.Keys - {j} && (m - {k}).Keys == m.Keys - {k};
      }
      MapSumExtract(m - {j}, k);
      MapSumExtract(m - {k}, j);
      assert m - {j} - {k} == m - {k} - {j};
    }
  }

  /** Overwriting or adding one entry moves the sum by the difference. */
  lemma MapSumUpdate<K>(m: map<K, int>, k: K, v: int)
    ensures MapSum(m[k := v]) == MapSum(m) - (if k in m then m[k] else 0) + v
  {
    MapSumExtract(m[k := v], k);
    if k in m {
      MapSumExtract(m, k);
      assert m[k := v] - {k} == m - {k};
    } else {
      assert m[k := v] - {k} == m;
    }
  }

  ghost predicate NonNegative<K>(m: map<K, int>) {
    forall k :: k in m ==> m[k] >= 0
  }

  lemma {:induction false} MapSumNonNegative<K>(m: map<K, int>)
    requires NonNegative(m)
    ensures MapSum(m) >= 0
    decreases |m|
  {
    if m.Keys != {} {
      var k :| k in m.Keys && MapSum(m) == m[k] + MapSum(m - {k});
      assert |m - {k}| < |m| by { assert (m - {k}).Keys == m.Keys - {k}; }
      MapSumNonNegative(m - {k});
    }
  }

  /** In a sum of non-negative entries every entry is a lower bound. */
  lemma MapSumAtLeast<K>(m: map<K, int>, k: K)
    requires NonNegative(m) && k in m
    ensures MapSum(m) >= m[k]
  {
    MapSumExtract(m, k);
    MapSumNonNegative(m - {k});
  }

  /** Two different entries of a non-negative map are together a lower bound. */
  lemma MapSumAtLeastTwo<K>(m: map<K, int>, j: K, k: K)
    requires NonNegative(m) && j in m && k in m && j != k
    ensures MapSum(m) >= m[j] + m[k]
  {
    MapSumExtract(m, j);
    MapSumAtLeast(m - {j}, k);
  }

  /** Two maps that agree entry by entry, up to entries that are zero, have the same sum. */
  lemma {:induction false} MapSumZero<K>(m: map<K, int>)
    requires forall k :: k in m ==> m[k] == 0
    ensures MapSum(m) == 0
    decreases |m|
  {
    if m.Keys != {} {
      var k :| k in m.Keys && MapSum(m) == m[k] + MapSum(m - {k});
      assert |m - {k}| < |m| by { assert (m - {k}).Keys == m.Keys - {k}; }
      MapSumZero(m - {k});
    }
  }
}
