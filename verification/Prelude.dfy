/** Small shared vocabulary: optional values, results, and finite sums over maps. */
module Prelude {
  datatype Option<+T> = None | Some(value: T)

  datatype Result<+T, +E> = Success(value: T) | Failure(error: E)

  /** The value stored under a key, or 0 when the key is absent. */
  function Get<K>(m: map<K, int>, k: K): int {
    if k in m then m[k] else 0
  }

  /** The sum of all values of a map. */
  ghost function Total<K>(m: map<K, int>): int
    decreases |m|
  {
    if m == map[] then 0
    else
      var k :| k in m;
      m[k] + Total(m - {k})
  }

  /** The sum does not depend on the order in which the keys are taken. */
  lemma {:induction false} TotalRemove<K>(m: map<K, int>, k: K)
    requires k in m
    ensures Total(m) == m[k] + Total(m - {k})
    decreases |m|
  {
    var c :| c in m && Total(m) == m[c] + Total(m - {c});
    if c != k {
      TotalRemove(m - {c}, k);
      TotalRemove(m - {k}, c);
      assert (m - {c}) - {k} == (m - {k}) - {c};
    }
  }

  lemma {:induction false} TotalUpdate<K>(m: map<K, int>, k: K, v: int)
    ensures Total(m[k := v]) == Total(m) - Get(m, k) + v
  {
    var n := m[k := v];
    TotalRemove(n, k);
    if k in m {
      TotalRemove(m, k);
      assert n - {k} == m - {k};
    } else {
      assert n - {k} == m;
    }
  }

  /** A sum of naturals falls when no entry rises. */
  lemma {:induction false} TotalAtMost<K>(m: map<K, int>, n: map<K, int>)
    requires n.Keys <= m.Keys && forall k :: k in m ==> 0 <= Get(n, k) <= m[k]
    ensures Total(n) <= Total(m)
    decreases |m|
  {
    if m == map[] {
      assert n == map[];
    } else {
      var k :| k in m;
      TotalRemove(m, k);
      TotalAtMost(m - {k}, n - {k});
      if k in n {
        TotalRemove(n, k);
      } else {
        assert n - {k} == n;
      }
    }
  }

  lemma TotalBelow<K>(m: map<K, int>, n: map<K, int>, k: K)
    requires n.Keys <= m.Keys && forall k :: k in m ==> 0 <= Get(n, k) <= m[k]
    requires k in m && Get(n, k) < m[k]
    ensures Total(n) < Total(m)
  {
    TotalRemove(m, k);
    TotalAtMost(m - {k}, n - {k});
    if k in n {
      TotalRemove(n, k);
    } else {
      assert n - {k} == n;
    }
  }

  /** A subset is not larger, and a smaller one leaves something out. */
  lemma SubsetSize<T>(a: set<T>, b: set<T>)
    requires a <= b
    ensures |a| <= |b| && (|a| < |b| ==> exists x :: x in b && x !in a)
  {
    var c := b - a;
    assert b == a + c;
    if |a| < |b| {
      var x :| x in c;
    }
  }
}
