/** Sums of natural weights over the values of a finite map. */
module Sums {
  ghost function Sum<K, V>(m: map<K, V>, weight: V -> nat): nat
    decreases |m|
  {
    if m == map[] then 0 else var k :| k in m; weight(m[k]) + Sum(m - {k}, weight)
  }

  /** Any key may be taken out first. */
  lemma {:induction false} TakeOut<K, V>(m: map<K, V>, k: K, weight: V -> nat)
    requires k in m
    ensures Sum(m, weight) == weight(m[k]) + Sum(m - {k}, weight)
    decreases |m|
  {
    var j :| j in m && Sum(m, weight) == weight(m[j]) + Sum(m - {j}, weight);
    if j != k {
      TakeOut(m - {j}, k, weight);
      TakeOut(m - {k}, j, weight);
      assert m - {j} - {k} == m - {k} - {j};
    }
  }

  lemma PutNew<K, V>(m: map<K, V>, k: K, v: V, weight: V -> nat)
    requires k !in m
    ensures Sum(m[k := v], weight) == Sum(m, weight) + weight(v)
  {
    TakeOut(m[k := v], k, weight);
    assert m[k := v] - {k} == m;
  }

  lemma Change<K, V>(m: map<K, V>, k: K, v: V, weight: V -> nat)
    requires k in m
    ensures Sum(m[k := v], weight) + weight(m[k]) == Sum(m, weight) + weight(v)
  {
    TakeOut(m, k, weight);
    TakeOut(m[k := v], k, weight);
    assert m[k := v] - {k} == m - {k};
  }
}
