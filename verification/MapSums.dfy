/** The total weight of the values of a finite map. */
module MapSums {

  ghost function AnyKey<K(!new), V>(m: map<K, V>): (k: K)
    requires m.Keys != {}
    ensures k in m
  {
    var k :| k in m.Keys; k
  }

  ghost function Sum<K(!new), V>(m: map<K, V>, weight: V -> nat): nat
    decreases |m.Keys|
  {
    if m.Keys == {} then 0
    else
      var k := AnyKey(m);
      assert (m - {k}).Keys == m.Keys - {k};
      weight(m[k]) + Sum(m - {k}, weight)
  }

  lemma {:induction false} SumRemove<K(!new), V>(m: map<K, V>, weight: V -> nat, k: K)
    requires k in m
    ensures Sum(m, weight) == weight(m[k]) + Sum(m - {k}, weight)
    decreases |m.Keys|
  {
    var c := AnyKey(m);
    if c != k {
      assert (m - {c}).Keys == m.Keys - {c};
      SumRemove(m - {c}, weight, k);
      assert (m - {k}).Keys == m.Keys - {k};
      SumRemove(m - {k}, weight, c);
      assert m - {k} - {c} == m - {c} - {k};
    }
  }

  lemma SumUpdate<K(!new), V>(m: map<K, V>, weight: V -> nat, k: K, v: V)
    ensures Sum(m[k := v], weight) == Sum(m, weight) + weight(v) - (if k in m then weight(m[k]) else 0)
  {
    SumRemove(m[k := v], weight, k);
    if k in m {
      SumRemove(m, weight, k);
      assert m[k := v] - {k} == m - {k};
    } else {
      assert m[k := v] - {k} == m;
    }
  }

  lemma {:induction false} SumZero<K(!new), V>(m: map<K, V>, weight: V -> nat)
    requires forall k :: k in m ==> weight(m[k]) == 0
    ensures Sum(m, weight) == 0
    decreases |m.Keys|
  {
    if m.Keys != {} {
      var k := AnyKey(m);
      assert (m - {k}).Keys == m.Keys - {k};
      SumZero(m - {k}, weight);
    }
  }
}
