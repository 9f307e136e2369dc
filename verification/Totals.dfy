/** Sums over the rows of a table: a finite map from row key to amount. */
module Totals {

  /** Some key of a non-empty map; fixing the choice makes Total a function. */
  ghost function Pick<K>(m: map<K, int>): (k: K)
    requires m != map[]
    ensures k in m
  {
    var k :| k in m;
    k
  }

  /** The sum of all values of m (SQL's COALESCE(SUM(...), 0)). */
  ghost function Total<K>(m: map<K, int>): int
    decreases |m|
  {
    if m == map[] then 0 else m[Pick(m)] + Total(m - {Pick(m)})
  }

  /** The sum does not depend on the order in which rows are visited. */
  lemma {:induction false} TotalRemove<K>(m: map<K, int>, k: K)
    requires k in m
    ensures Total(m) == m[k] + Total(m - {k})
    decreases |m|
  {
    var p := Pick(m);
    if p != k {
      TotalRemove(m - {p}, k);
      TotalRemove(m - {k}, p);
      assert m - {p} - {k} == m - {k} - {p};
    }
  }

  /** Inserting or overwriting one row moves the sum by exactly that row's change. */
  lemma TotalUpdate<K>(m: map<K, int>, k: K, v: int)
    ensures Total(m[k := v]) == Total(m) - (if k in m then m[k] else 0) + v
  {
    TotalRemove(m[k := v], k);
    assert m[k := v] - {k} == m - {k};
    if k in m {
      TotalRemove(m, k);
    } else {
      assert m - {k} == m;
    }
  }

  /** Lowering rows lowers the sum. */
  lemma {:induction false} TotalMonotone<K>(a: map<K, int>, b: map<K, int>)
    requires a.Keys == b.Keys
    requires forall k :: k in a ==> a[k] <= b[k]
    ensures Total(a) <= Total(b)
    decreases |a|
  {
    if a != map[] {
      var k := Pick(a);
      TotalRemove(b, k);
      TotalMonotone(a - {k}, b - {k});
    }
  }

  /** Rows without an amount can be left out. */
  lemma {:induction false} TotalSkipsZeros<K>(all: map<K, int>, some: map<K, int>)
    requires some.Keys <= all.Keys
    requires forall k :: k in all ==> all[k] == if k in some then some[k] else 0
    ensures Total(all) == Total(some)
    decreases |all|
  {
    if all != map[] {
      var k := Pick(all);
      TotalSkipsZeros(all - {k}, some - {k});
      if k in some {
        TotalRemove(some, k);
      } else {
        assert some - {k} == some;
      }
    }
  }
}
