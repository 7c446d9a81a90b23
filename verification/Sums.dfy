/** Sums over the values of a finite map. The order in which the entries are visited never matters. */
module Sums {

  ghost function Sum<K, V>(m: map<K, V>, f: V -> int): int {
    if m == map[] then 0
    else
      var k :| k in m;
      f(m[k]) + Sum(m - {k}, f)
  }

  /** Any entry can be taken out first. */
  lemma {:induction false} Remove<K, V>(m: map<K, V>, k: K, f: V -> int)
    requires k in m
    ensures Sum(m, f) == f(m[k]) + Sum(m - {k}, f)
    decreases |m|
  {
    var x :| x in m && Sum(m, f) == f(m[x]) + Sum(m - {x}, f);
    if x != k {
      Remove(m - {x}, k, f);
      Remove(m - {k}, x, f);
      assert m - {x} - {k} == m - {k} - {x};
    }
  }

  /** Setting an entry replaces its contribution. */
  lemma Update<K, V>(m: map<K, V>, k: K, v: V, f: V -> int)
    ensures Sum(m[k := v], f) == Sum(m, f) + f(v) - if k in m then f(m[k]) else 0
  {
    var u := m[k := v];
    Remove(u, k, f);
    assert u - {k} == m - {k};
    if k in m {
      Remove(m, k, f);
    } else {
      assert m - {k} == m;
    }
  }

  lemma {:induction false} Bounded<K, V>(m: map<K, V>, f: V -> int, g: V -> int)
    requires forall k | k in m :: f(m[k]) <= g(m[k])
    ensures Sum(m, f) <= Sum(m, g)
    decreases |m|
  {
    if m != map[] {
      var k :| k in m;
      Remove(m, k, f);
      Remove(m, k, g);
      Bounded(m - {k}, f, g);
    }
  }

  lemma {:induction false} NonNegative<K, V>(m: map<K, V>, f: V -> int)
    requires forall k | k in m :: f(m[k]) >= 0
    ensures Sum(m, f) >= 0
    decreases |m|
  {
    if m != map[] {
      var k :| k in m;
      Remove(m, k, f);
      NonNegative(m - {k}, f);
    }
  }

  /** A single nonnegative contribution never exceeds the whole. */
  lemma AtMost<K, V>(m: map<K, V>, k: K, f: V -> int)
    requires k in m && forall x | x in m :: f(m[x]) >= 0
    ensures f(m[k]) <= Sum(m, f)
  {
    Remove(m, k, f);
    NonNegative(m - {k}, f);
  }

  /** Contributions that split entry by entry split as a whole. */
  lemma {:induction false} Split<K, V>(m: map<K, V>, f: V -> int, g: V -> int, h: V -> int)
    requires forall k | k in m :: f(m[k]) == g(m[k]) + h(m[k])
    ensures Sum(m, f) == Sum(m, g) + Sum(m, h)
    decreases |m|
  {
    if m != map[] {
      var k :| k in m;
      Remove(m, k, f);
      Remove(m, k, g);
      Remove(m, k, h);
      Split(m - {k}, f, g, h);
    }
  }
}
