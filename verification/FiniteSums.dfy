/** Sums of the values of a finite map, with the two facts every accounting proof needs. */
module FiniteSums {

  ghost function Sum<K>(m: map<K, int>): int
  {
    if m == map[] then 0
    else var k :| k in m; m[k] + Sum(m - {k})
  }

  // The sum does not depend on the order in which entries are taken.
  lemma {:induction false} SumRemove<K>(m: map<K, int>, k: K)
    requires k in m
    ensures Sum(m) == m[k] + Sum(m - {k})
    decreases m
  {
    var first :| first in m && Sum(m) == m[first] + Sum(m - {first});
    if first != k {
      SumRemove(m - {first}, k);
      SumRemove(m - {k}, first);
      assert m - {first} - {k} == m - {k} - {first};
    }
  }

  lemma SumSet<K>(m: map<K, int>, k: K, v: int)
    ensures Sum(m[k := v]) == Sum(m) - (if k in m then m[k] else 0) + v
  {
    SumRemove(m[k := v], k);
    assert m[k := v] - {k} == m - {k};
    if k in m {
      SumRemove(m, k);
    } else {
      assert m - {k} == m;
    }
  }

  lemma {:induction false} SumNonNegative<K>(m: map<K, int>)
    requires forall k <- m :: m[k] >= 0
    ensures Sum(m) >= 0
    decreases m
  {
    if m != map[] {
      var first :| first in m && Sum(m) == m[first] + Sum(m - {first});
      SumNonNegative(m - {first});
    }
  }

  lemma {:induction false} SumZero<K>(m: map<K, int>)
    requires forall k <- m :: m[k] == 0
    ensures Sum(m) == 0
    decreases m
  {
    if m != map[] {
      var first :| first in m && Sum(m) == m[first] + Sum(m - {first});
      SumZero(m - {first});
    }
  }

  lemma MergeByOne<K>(a: map<K, int>, b: map<K, int>, k: K)
    requires k in b
    ensures a + b == (a + (b - {k}))[k := b[k]]
  {}

  lemma {:induction false} SumMerge<K>(a: map<K, int>, b: map<K, int>)
    requires a.Keys !! b.Keys
    ensures Sum(a + b) == Sum(a) + Sum(b)
    decreases b
  {
    if b == map[] {
      assert a + b == a;
    } else {
      var k :| k in b;
      var less := b - {k};
      assert less.Keys <= b.Keys;
      SumMerge(a, less);
      MergeByOne(a, b, k);
      SumSet(a + less, k, b[k]);
      SumRemove(b, k);
    }
  }

  lemma SumOverSuperset<K>(a: map<K, int>, b: map<K, int>)
    requires a.Keys <= b.Keys && forall k <- b :: b[k] == if k in a then a[k] else 0
    ensures Sum(b) == Sum(a)
  {
    var rest := b - a.Keys;
    assert b == a + rest;
    SumMerge(a, rest);
    SumZero(rest);
  }
}
