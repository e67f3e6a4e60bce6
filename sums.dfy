/** Order-independent sums of the values of a finite map.  They model the
    `stream().mapToDouble(...).sum()` folds over a `HashMap`, whose iteration
    order is unspecified: the sum is defined by picking an arbitrary key, and
    `SumOverRemove` shows that the choice does not matter. */
module Sums {

  ghost function Pick<K>(keys: set<K>): (k: K)
    requires keys != {}
    ensures k in keys
  {
    var k :| k in keys; k
  }

  /** The sum of `m[k]` over the keys `k` in `keys`. */
  ghost function SumOver<K>(m: map<K, real>, keys: set<K>): real
    requires keys <= m.Keys
    decreases keys
  {
    if keys == {} then 0.0
    else
      var k := Pick(keys);
      m[k] + SumOver(m, keys - {k})
  }

  /** The sum of all values of `m`. */
  ghost function Sum<K>(m: map<K, real>): real {
    SumOver(m, m.Keys)
  }

  /** Any key may be taken out first. */
  lemma {:induction false} SumOverRemove<K>(m: map<K, real>, keys: set<K>, k: K)
    requires keys <= m.Keys && k in keys
    ensures SumOver(m, keys) == m[k] + SumOver(m, keys - {k})
    decreases keys
  {
    var j := Pick(keys);
    if j != k {
      SumOverRemove(m, keys - {j}, k);
      SumOverRemove(m, keys - {k}, j);
      assert keys - {j} - {k} == keys - {k} - {j};
    }
  }

  /** The sum only depends on the values at the summed keys. */
  lemma {:induction false} SumOverAgree<K>(m: map<K, real>, m': map<K, real>, keys: set<K>)
    requires keys <= m.Keys && keys <= m'.Keys
    requires forall k :: k in keys ==> m[k] == m'[k]
    ensures SumOver(m, keys) == SumOver(m', keys)
    decreases keys
  {
    if keys != {} {
      SumOverAgree(m, m', keys - {Pick(keys)});
    }
  }

  /** Replacing or inserting one value changes the sum by exactly the difference. */
  lemma SumUpdate<K>(m: map<K, real>, k: K, v: real)
    ensures Sum(m[k := v]) == Sum(m) - (if k in m then m[k] else 0.0) + v
  {
    var m' := m[k := v];
    SumOverRemove(m', m'.Keys, k);
    if k in m {
      SumOverAgree(m, m', m.Keys - {k});
      SumOverRemove(m, m.Keys, k);
      assert m'.Keys - {k} == m.Keys - {k};
    } else {
      SumOverAgree(m, m', m.Keys);
      assert m'.Keys - {k} == m.Keys;
    }
  }

  lemma {:induction false} SumOverNonNegative<K>(m: map<K, real>, keys: set<K>)
    requires keys <= m.Keys
    requires forall k :: k in keys ==> m[k] >= 0.0
    ensures SumOver(m, keys) >= 0.0
    decreases keys
  {
    if keys != {} {
      SumOverNonNegative(m, keys - {Pick(keys)});
    }
  }

  /** A sum of non-negative values is positive exactly when one of them is. */
  lemma {:induction false} SumOverPositive<K>(m: map<K, real>, keys: set<K>)
    requires keys <= m.Keys
    requires forall k :: k in keys ==> m[k] >= 0.0
    ensures SumOver(m, keys) > 0.0 <==> exists k :: k in keys && m[k] > 0.0
    decreases keys
  {
    if keys != {} {
      var j := Pick(keys);
      SumOverPositive(m, keys - {j});
      SumOverNonNegative(m, keys - {j});
      if m[j] <= 0.0 {
        assert forall k :: k in keys && m[k] > 0.0 ==> k in keys - {j};
      }
    }
  }

  lemma SumPositive<K>(m: map<K, real>)
    requires forall k :: k in m ==> m[k] >= 0.0
    ensures Sum(m) >= 0.0
    ensures Sum(m) > 0.0 <==> exists k :: k in m && m[k] > 0.0
  {
    SumOverNonNegative(m, m.Keys);
    SumOverPositive(m, m.Keys);
  }
}
