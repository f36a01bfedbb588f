/** Sums of an integer measure over the values of a finite map. */
module MapSums {

  /** The sum of `f` over the values of `m`. */
  ghost function Total<K(!new), V(!new)>(m: map<K, V>, f: V -> int): int {
    if m == map[] then 0
    else
      var k :| k in m;
      f(m[k]) + Total(m - {k}, f)
  }

  /** Any key can be split off, whichever key the definition happens to pick. */
  lemma {:induction false} SplitOff<K(!new), V(!new)>(m: map<K, V>, f: V -> int, k: K)
    requires k in m
    ensures Total(m, f) == f(m[k]) + Total(m - {k}, f)
    decreases |m|
  {
    var p :| p in m && Total(m, f) == f(m[p]) + Total(m - {p}, f);
    if p != k {
      SplitOff(m - {p}, f, k);
      SplitOff(m - {k}, f, p);
      assert m - {p} - {k} == m - {k} - {p};
    }
  }

  lemma Put<K(!new), V(!new)>(m: map<K, V>, f: V -> int, k: K, v: V)
    ensures Total(m[k := v], f) == Total(m, f) - (if k in m then f(m[k]) else 0) + f(v)
  {
    SplitOff(m[k := v], f, k);
    if k in m {
      SplitOff(m, f, k);
      assert m[k := v] - {k} == m - {k};
    } else {
      assert m[k := v] - {k} == m;
    }
  }

  lemma {:induction false} Remove<K(!new), V(!new)>(m: map<K, V>, f: V -> int, k: K)
    requires k in m
    ensures Total(m - {k}, f) == Total(m, f) - f(m[k])
  {
    SplitOff(m, f, k);
  }

  /** Two maps with the same keys and the same measure at every key have the same sum. */
  lemma {:induction false} Pointwise<K(!new), V(!new)>(m: map<K, V>, n: map<K, V>, f: V -> int)
    requires m.Keys == n.Keys
    requires forall k :: k in m ==> f(m[k]) == f(n[k])
    ensures Total(m, f) == Total(n, f)
    decreases |m|
  {
    if m != map[] {
      var k :| k in m;
      SplitOff(m, f, k);
      SplitOff(n, f, k);
      Pointwise(m - {k}, n - {k}, f);
    } else {
      assert n == map[];
    }
  }

  lemma {:induction false} NonNegative<K(!new), V(!new)>(m: map<K, V>, f: V -> int)
    requires forall k :: k in m ==> f(m[k]) >= 0
    ensures Total(m, f) >= 0
    decreases |m|
  {
    if m != map[] {
      var k :| k in m;
      SplitOff(m, f, k);
      NonNegative(m - {k}, f);
    }
  }

  lemma {:induction false} AllZero<K(!new), V(!new)>(m: map<K, V>, f: V -> int)
    requires forall k :: k in m ==> f(m[k]) == 0
    ensures Total(m, f) == 0
    decreases |m|
  {
    if m != map[] {
      var k :| k in m;
      SplitOff(m, f, k);
      AllZero(m - {k}, f);
    }
  }

  /** If one key already accounts for the whole of a sum of non-negative terms, every other term is zero. */
  lemma {:induction false} AllAtOneKey<K(!new), V(!new)>(m: map<K, V>, f: V -> int, k: K, other: K)
    requires forall x :: x in m ==> f(m[x]) >= 0
    requires k in m && other in m && other != k
    requires f(m[k]) == Total(m, f)
    ensures f(m[other]) == 0
  {
    SplitOff(m, f, k);
    SplitOff(m - {k}, f, other);
    NonNegative(m - {k} - {other}, f);
  }

  lemma CountPut<K, V>(m: map<K, V>, k: K, v: V)
    ensures |m[k := v]| == |m| + (if k in m then 0 else 1)
  {
    assert m[k := v].Keys == m.Keys + {k};
    assert |m[k := v]| == |m[k := v].Keys| && |m| == |m.Keys|;
  }

  lemma CountRemove<K, V>(m: map<K, V>, k: K)
    requires k in m
    ensures |m - {k}| == |m| - 1
  {
    assert (m - {k}).Keys == m.Keys - {k};
    assert |m - {k}| == |(m - {k}).Keys| && |m| == |m.Keys|;
  }
}
