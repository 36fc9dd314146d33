/** Sums over the values of a dictionary. Python adds them in insertion order;
    over `real` the order does not matter, so a total is a function of the map. */
module Totals {

  /** The sum of all values of `m`. */
  ghost function Total<K(!new)>(m: map<K, real>): real
    decreases |m|
  {
    if m == map[] then 0.0
    else
      var k :| k in m;
      assert |(m - {k}).Keys| == |m.Keys - {k}|;
      m[k] + Total(m - {k})
  }

  /** The part of `m` whose keys lie in `keys`. */
  ghost function Only<K(!new)>(m: map<K, real>, keys: set<K>): (r: map<K, real>)
    ensures r.Keys == m.Keys * keys
  {
    map k | k in m && k in keys :: m[k]
  }

  lemma {:induction false} TotalPeel<K(!new)>(m: map<K, real>, k: K)
    requires k in m
    ensures Total(m) == m[k] + Total(m - {k})
    decreases |m|
  {
    var p :| p in m && Total(m) == m[p] + Total(m - {p});
    if p != k {
      assert |(m - {p}).Keys| == |m.Keys - {p}|;
      assert |(m - {k}).Keys| == |m.Keys - {k}|;
      TotalPeel(m - {p}, k);
      TotalPeel(m - {k}, p);
      assert m - {p} - {k} == m - {k} - {p};
    }
  }

  /** Setting one entry changes the total by the change of that entry. */
  lemma TotalUpdate<K(!new)>(m: map<K, real>, k: K, v: real)
    ensures Total(m[k := v]) == Total(m - {k}) + v
    ensures Total(m[k := v]) == Total(m) + v - (if k in m then m[k] else 0.0)
  {
    var n := m[k := v];
    TotalPeel(n, k);
    assert n - {k} == m - {k};
    if k in m {
      TotalPeel(m, k);
    } else {
      assert m - {k} == m;
    }
  }

  /** One step of an accumulator loop over a set of keys still to visit. */
  lemma OnlyPeel<K(!new)>(m: map<K, real>, keys: set<K>, k: K)
    requires k in keys
    ensures Total(Only(m, keys)) == (if k in m then m[k] else 0.0) + Total(Only(m, keys - {k}))
  {
    var part := Only(m, keys);
    assert part - {k} == Only(m, keys - {k});
    if k in m {
      TotalPeel(part, k);
    } else {
      assert part - {k} == part;
    }
  }

  lemma OnlyAll<K(!new)>(m: map<K, real>, keys: set<K>)
    requires m.Keys <= keys
    ensures Only(m, keys) == m
  {
  }

  lemma OnlyNone<K(!new)>(m: map<K, real>)
    ensures Total(Only(m, {})) == 0.0
  {
    assert Only(m, {}) == map[];
  }

  lemma {:induction false} TotalMonotone<K(!new)>(a: map<K, real>, b: map<K, real>)
    requires a.Keys == b.Keys
    requires forall k :: k in a ==> a[k] <= b[k]
    ensures Total(a) <= Total(b)
    decreases |a|
  {
    if a == map[] {
      assert b == map[];
    } else {
      var k :| k in a;
      TotalPeel(a, k);
      TotalPeel(b, k);
      assert |(a - {k}).Keys| == |a.Keys - {k}|;
      TotalMonotone(a - {k}, b - {k});
    }
  }

  /** The total of a pointwise sum `c = a + b`. */
  lemma {:induction false} TotalSum<K(!new)>(a: map<K, real>, b: map<K, real>, c: map<K, real>)
    requires a.Keys == b.Keys == c.Keys
    requires forall k :: k in c ==> c[k] == a[k] + b[k]
    ensures Total(c) == Total(a) + Total(b)
    decreases |a|
  {
    if c == map[] {
      assert a == map[] && b == map[];
    } else {
      var k :| k in c;
      TotalPeel(a, k);
      TotalPeel(b, k);
      TotalPeel(c, k);
      assert |(a - {k}).Keys| == |a.Keys - {k}|;
      TotalSum(a - {k}, b - {k}, c - {k});
    }
  }

  function Times(f: real, x: real): real {
    f * x
  }

  lemma TimesDistributes(f: real, x: real, y: real)
    ensures Times(f, x + y) == Times(f, x) + Times(f, y)
  {
  }

  lemma {:induction false} TotalScale<K(!new)>(a: map<K, real>, f: real, b: map<K, real>)
    requires a.Keys == b.Keys
    requires forall k :: k in a ==> b[k] == Times(f, a[k])
    ensures Total(b) == Times(f, Total(a))
    decreases |a|
  {
    if a == map[] {
      assert b == map[];
    } else {
      var k :| k in a;
      TotalPeel(a, k);
      TotalPeel(b, k);
      var a1, b1 := a - {k}, b - {k};
      assert |a1.Keys| == |a.Keys - {k}|;
      TotalScale(a1, f, b1);
      TimesDistributes(f, a[k], Total(a1));
    }
  }

  /** Entries outside `keys` that are zero do not count. */
  lemma {:induction false} TotalIgnoresZeros<K(!new)>(m: map<K, real>, keys: set<K>)
    requires forall k :: k in m && k !in keys ==> m[k] == 0.0
    ensures Total(m) == Total(Only(m, keys))
    decreases |m.Keys - keys|
  {
    if m.Keys <= keys {
      OnlyAll(m, keys);
    } else {
      var k :| k in m && k !in keys;
      TotalPeel(m, k);
      assert (m - {k}).Keys - keys == (m.Keys - keys) - {k};
      TotalIgnoresZeros(m - {k}, keys);
      assert Only(m - {k}, keys) == Only(m, keys);
    }
  }

  /** A total splits along any set of keys. */
  lemma {:induction false} TotalSplit<K(!new)>(m: map<K, real>, keys: set<K>)
    ensures Total(m) == Total(Only(m, keys)) + Total(Only(m, m.Keys - keys))
    decreases |m.Keys - keys|
  {
    if m.Keys <= keys {
      OnlyAll(m, keys);
      assert m.Keys - keys == {};
      OnlyNone(m);
    } else {
      var k :| k in m && k !in keys;
      TotalPeel(m, k);
      var rest := m - {k};
      assert rest.Keys - keys == (m.Keys - keys) - {k};
      TotalSplit(rest, keys);
      assert Only(rest, keys) == Only(m, keys);
      OnlyPeel(m, m.Keys - keys, k);
      assert Only(rest, rest.Keys - keys) == Only(m, m.Keys - keys - {k});
    }
  }

  lemma TotalNonNegative<K(!new)>(m: map<K, real>)
    requires forall k :: k in m ==> m[k] >= 0.0
    ensures Total(m) >= 0.0
  {
    var zero := map k | k in m :: 0.0;
    TotalIgnoresZeros(zero, {});
    OnlyNone(zero);
    TotalMonotone(zero, m);
  }

  /** A total lies between the least and the largest entry, as many times as there are entries. */
  lemma {:induction false} TotalBetween<K(!new)>(m: map<K, real>, low: real, high: real)
    requires forall k :: k in m ==> low <= m[k] <= high
    ensures Times(|m| as real, low) <= Total(m) <= Times(|m| as real, high)
    decreases |m|
  {
    if m != map[] {
      var k :| k in m;
      TotalPeel(m, k);
      assert |(m - {k}).Keys| == |m.Keys - {k}| == |m| - 1;
      TotalBetween(m - {k}, low, high);
      OneMoreTime(|m| - 1, low);
      OneMoreTime(|m| - 1, high);
    }
  }

  lemma OneMoreTime(n: int, x: real)
    ensures Times((n + 1) as real, x) == Times(n as real, x) + x
  {
  }

  /** The sum of a list. */
  function Sum(xs: seq<real>): real {
    if xs == [] then 0.0 else Sum(xs[..|xs| - 1]) + xs[|xs| - 1]
  }

  lemma {:induction false} SumAppend(xs: seq<real>, ys: seq<real>)
    ensures Sum(xs + ys) == Sum(xs) + Sum(ys)
  {
    if ys == [] {
      assert xs + ys == xs;
    } else {
      var init := ys[..|ys| - 1];
      assert (xs + ys)[..|xs + ys| - 1] == xs + init;
      SumAppend(xs, init);
    }
  }
}
