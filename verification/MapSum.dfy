/**
 The multiset union of what every entry of a map holds, and how it changes when
 one entry changes. The protocol proofs count messages with it.
 */
module MapSum {

  ghost function Sum<K, V, T>(m: map<K, V>, f: (K, V) -> multiset<T>): multiset<T>
    decreases m.Keys
  {
    if m == map[] then multiset{} else
      var k :| k in m;
      f(k, m[k]) + Sum(m - {k}, f)
  }

  /** The union does not depend on the entry taken first. */
  lemma {:induction false} Split<K, V, T>(m: map<K, V>, f: (K, V) -> multiset<T>, k: K)
    requires k in m
    ensures Sum(m, f) == f(k, m[k]) + Sum(m - {k}, f)
    decreases m.Keys
  {
    var j :| j in m && Sum(m, f) == f(j, m[j]) + Sum(m - {j}, f);
    if j != k {
      Split(m - {j}, f, k);
      Split(m - {k}, f, j);
      assert m - {j} - {k} == m - {k} - {j};
    }
  }

  lemma Insert<K, V, T>(m: map<K, V>, f: (K, V) -> multiset<T>, k: K, v: V)
    requires k !in m
    ensures Sum(m[k := v], f) == Sum(m, f) + f(k, v)
  {
    Split(m[k := v], f, k);
    assert m[k := v] - {k} == m;
  }
}
