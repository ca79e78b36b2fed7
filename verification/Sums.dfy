// Sums over unbounded tables.
module Sums {
  ghost function Total<K(!new)>(m: map<K, int>): int
    decreases |m|
  {
    if m == map[] then 0
    else
      var k :| k in m;
      assert |m.Keys - {k}| < |m.Keys|;
      m[k] + Total(m - {k})
  }

  // The order of summation does not matter.
  lemma {:induction false} TotalRemove<K(!new)>(m: map<K, int>, k: K)
    requires k in m
    ensures Total(m) == m[k] + Total(m - {k})
    decreases |m|
  {
    var j :| j in m && Total(m) == m[j] + Total(m - {j});
    if j != k {
      assert |m.Keys - {j}| < |m.Keys| && |m.Keys - {k}| < |m.Keys|;
      TotalRemove(m - {j}, k);
      TotalRemove(m - {k}, j);
      assert (m - {j}) - {k} == (m - {k}) - {j};
    }
  }

  lemma TotalUpdate<K(!new)>(m: map<K, int>, k: K, v: int)
    ensures Total(m[k := v]) == Total(m) + v - (if k in m then m[k] else 0)
  {
    TotalRemove(m[k := v], k);
    assert m[k := v] - {k} == m - {k};
    if k in m { TotalRemove(m, k); } else { assert m - {k} == m; }
  }

  lemma {:induction false} TotalNonNegative<K(!new)>(m: map<K, int>)
    requires forall k :: k in m ==> 0 <= m[k]
    ensures 0 <= Total(m)
    ensures forall k :: k in m ==> m[k] <= Total(m)
    decreases |m|
  {
    forall k | k in m ensures m[k] <= Total(m) && 0 <= Total(m) {
      TotalRemove(m, k);
      assert |m.Keys - {k}| < |m.Keys|;
      TotalNonNegative(m - {k});
    }
    if m != map[] { var k :| k in m; }
  }

  lemma {:induction false} TotalZero<K(!new)>(m: map<K, int>)
    requires forall k :: k in m ==> m[k] == 0
    ensures Total(m) == 0
    decreases |m|
  {
    if m != map[] {
      var k :| k in m;
      TotalRemove(m, k);
      assert |m.Keys - {k}| < |m.Keys|;
      TotalZero(m - {k});
    }
  }

  // A sum whose entries sit at distinct places of another one is no larger.
  lemma {:induction false} TotalInjection<K(!new), L(!new)>(m: map<K, int>, n: map<L, int>, place: map<K, L>)
    requires forall k :: k in m ==> k in place && place[k] in n && m[k] == n[place[k]]
    requires forall j, k :: j in m && k in m && j != k ==> place[j] != place[k]
    requires forall l :: l in n ==> 0 <= n[l]
    ensures Total(m) <= Total(n)
    decreases |m|
  {
    if m == map[] {
      TotalNonNegative(n);
    } else {
      var k :| k in m;
      TotalRemove(m, k);
      TotalRemove(n, place[k]);
      assert |m.Keys - {k}| < |m.Keys|;
      TotalInjection(m - {k}, n - {place[k]}, place);
    }
  }

  ghost function Weigh<K, V>(m: map<K, V>, weight: V -> int): map<K, int> { map k | k in m :: weight(m[k]) }

  ghost function Sum<K(!new), V>(m: map<K, V>, weight: V -> int): int { Total(Weigh(m, weight)) }

  lemma SumUpdate<K(!new), V>(m: map<K, V>, k: K, v: V, weight: V -> int)
    ensures Sum(m[k := v], weight) == Sum(m, weight) + weight(v) - (if k in m then weight(m[k]) else 0)
  {
    TotalUpdate(Weigh(m, weight), k, weight(v));
    assert Weigh(m[k := v], weight) == Weigh(m, weight)[k := weight(v)];
  }

  lemma SumBounds<K(!new), V>(m: map<K, V>, k: K, weight: V -> int)
    requires k in m && forall v :: 0 <= weight(v)
    ensures weight(m[k]) <= Sum(m, weight)
  {
    TotalNonNegative(Weigh(m, weight));
    assert k in Weigh(m, weight);
  }

  lemma SumNone<K(!new), V>(m: map<K, V>, weight: V -> int)
    requires forall k :: k in m ==> weight(m[k]) == 0
    ensures Sum(m, weight) == 0
  {
    TotalZero(Weigh(m, weight));
  }
}
