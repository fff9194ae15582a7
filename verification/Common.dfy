/** The one-or-nothing type used for every optional field. */
module Options {
  datatype Option<+T> = None | Some(value: T)
}

/** Sums over finite maps: the source adds up table rows and record values in no particular order. */
module Sums {

  ghost function Total<K(!new)>(m: map<K, int>): int
    decreases |m|
  {
    if |m| == 0 then 0 else
    var k :| k in m;
    m[k] + Total(m - {k})
  }

  /** Some key of a map with keys is the one whose value `Total` adds first. */
  lemma First<K(!new)>(m: map<K, int>) returns (j: K)
    requires |m| > 0
    ensures j in m && Total(m) == m[j] + Total(m - {j})
  {
    j :| j in m && Total(m) == m[j] + Total(m - {j});
  }

  /** The order of summation does not matter: any key may be taken out first. */
  lemma {:induction false} TotalRemove<K(!new)>(m: map<K, int>, k: K)
    requires k in m
    ensures Total(m) == m[k] + Total(m - {k})
    decreases |m|
  {
    var j := First(m);
    if j != k {
      Smaller(m, j);
      Smaller(m, k);
      TotalRemove(m - {j}, k);
      TotalRemove(m - {k}, j);
      assert m - {j} - {k} == m - {k} - {j};
    }
  }

  lemma Smaller<K, V>(m: map<K, V>, k: K)
    requires k in m
    ensures |m - {k}| == |m| - 1
  {
    assert (m - {k}).Keys == m.Keys - {k};
  }

  /** Take one key out; `rest` is what is left. */
  lemma TotalPeel<K(!new)>(m: map<K, int>, k: K, rest: map<K, int>)
    requires k in m && rest.Keys == m.Keys - {k}
    requires forall j <- rest :: rest[j] == m[j]
    ensures Total(m) == m[k] + Total(rest)
  {
    TotalRemove(m, k);
    assert m - {k} == rest;
  }

  lemma TotalSame<K(!new)>(a: map<K, int>, b: map<K, int>)
    requires a.Keys == b.Keys
    requires forall j <- a :: a[j] == b[j]
    ensures Total(a) == Total(b)
  {
    assert a == b;
  }

  /** `b` is `a` with the value at `k` written. */
  lemma TotalPut<K(!new)>(a: map<K, int>, b: map<K, int>, k: K)
    requires b.Keys == a.Keys + {k}
    requires forall j <- a :: j != k ==> b[j] == a[j]
    ensures Total(b) == Total(a) + b[k] - (if k in a then a[k] else 0)
  {
    if k in a {
      TotalPeel(a, k, a - {k});
      TotalPeel(b, k, a - {k});
    } else {
      TotalPeel(b, k, a);
    }
  }

  lemma {:induction false} TotalAdd<K(!new)>(m: map<K, int>, a: map<K, int>, b: map<K, int>)
    requires m.Keys == a.Keys == b.Keys
    requires forall k <- m :: m[k] == a[k] + b[k]
    ensures Total(m) == Total(a) + Total(b)
    decreases |m|
  {
    if |m| == 0 {
      assert |m.Keys| == 0;
      assert m == a == b == map[];
    } else {
      var k :| k in m;
      TotalRemove(m, k);
      TotalRemove(a, k);
      TotalRemove(b, k);
      TotalAdd(m - {k}, a - {k}, b - {k});
    }
  }

  lemma {:induction false} TotalBounds<K(!new)>(m: map<K, int>, n: map<K, int>)
    requires m.Keys == n.Keys
    requires forall k <- m :: m[k] <= n[k]
    ensures Total(m) <= Total(n)
    decreases |m|
  {
    if |m| == 0 {
      assert |m.Keys| == 0;
      assert m == n == map[];
    } else {
      var k :| k in m;
      TotalRemove(m, k);
      TotalRemove(n, k);
      TotalBounds(m - {k}, n - {k});
    }
  }

  lemma {:induction false} TotalZero<K(!new)>(m: map<K, int>)
    requires forall k <- m :: m[k] == 0
    ensures Total(m) == 0
    decreases |m|
  {
    if |m| != 0 {
      var k :| k in m;
      TotalRemove(m, k);
      TotalZero(m - {k});
    }
  }

  /** A map that is zero except possibly at one key. */
  lemma TotalSingle<K(!new)>(m: map<K, int>, k: K)
    requires k in m
    requires forall j <- m :: j != k ==> m[j] == 0
    ensures Total(m) == m[k]
  {
    TotalRemove(m, k);
    TotalZero(m - {k});
  }

  lemma TotalNonNegative<K(!new)>(m: map<K, int>)
    requires forall k <- m :: 0 <= m[k]
    ensures 0 <= Total(m)
  {
    var zero := map k | k in m :: 0;
    TotalZero(zero);
    TotalBounds(zero, m);
  }

  // ---------------------------------------------------------------- weighing the entries of a map

  ghost function Weigh<K(!new), V>(m: map<K, V>, w: V -> int): map<K, int> {
    map k | k in m :: w(m[k])
  }

  ghost function SumOf<K(!new), V>(m: map<K, V>, w: V -> int): int {
    Total(Weigh(m, w))
  }

  lemma SumPut<K(!new), V>(m: map<K, V>, k: K, v: V, w: V -> int)
    ensures SumOf(m[k := v], w) == SumOf(m, w) + w(v) - (if k in m then w(m[k]) else 0)
  {
    TotalPut(Weigh(m, w), Weigh(m[k := v], w), k);
  }

  lemma SumPeel<K(!new), V>(m: map<K, V>, k: K, w: V -> int)
    requires k in m
    ensures SumOf(m, w) == w(m[k]) + SumOf(m - {k}, w)
  {
    TotalPeel(Weigh(m, w), k, Weigh(m - {k}, w));
  }

  lemma SumSame<K(!new), V>(m: map<K, V>, w: V -> int, x: V -> int)
    requires forall k <- m :: w(m[k]) == x(m[k])
    ensures SumOf(m, w) == SumOf(m, x)
  {
    TotalSame(Weigh(m, w), Weigh(m, x));
  }

  lemma SumSplit<K(!new), V>(m: map<K, V>, whole: V -> int, a: V -> int, b: V -> int)
    requires forall k <- m :: whole(m[k]) == a(m[k]) + b(m[k])
    ensures SumOf(m, whole) == SumOf(m, a) + SumOf(m, b)
  {
    TotalAdd(Weigh(m, whole), Weigh(m, a), Weigh(m, b));
  }

  lemma SumZero<K(!new), V>(m: map<K, V>, w: V -> int)
    requires forall k <- m :: w(m[k]) == 0
    ensures SumOf(m, w) == 0
  {
    TotalZero(Weigh(m, w));
  }

  lemma SumNonNegative<K(!new), V>(m: map<K, V>, w: V -> int)
    requires forall k <- m :: 0 <= w(m[k])
    ensures 0 <= SumOf(m, w)
  {
    TotalNonNegative(Weigh(m, w));
  }
}

module Sets {
  /** A subset is no larger. */
  lemma {:induction false} SubsetSize<T>(a: set<T>, b: set<T>)
    requires a <= b
    ensures |a| <= |b|
  {
    if a != {} {
      var x :| x in a;
      SubsetSize(a - {x}, b - {x});
    }
  }

  /** A subset of the same size is the whole set. */
  lemma SameSize<T>(a: set<T>, b: set<T>)
    requires a <= b && |a| == |b|
    ensures a == b
  {
    if x :| x in b && x !in a { SubsetSize(a, b - {x}); }
  }
}
