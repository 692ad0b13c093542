/** The total of the values of a finite map, whatever order they are visited in. */
module Sums {

  ghost function Total<K>(m: map<K, int>): int
  {
    if m == map[] then 0
    else
      var k :| k in m;
      m[k] + Total(m - {k})
  }

  /** Any key may be taken out first. */
  lemma {:induction false} TotalPick<K>(m: map<K, int>, k: K)
    requires k in m
    ensures Total(m) == m[k] + Total(m - {k})
    decreases |m|
  {
    var p :| p in m && Total(m) == m[p] + Total(m - {p});
    if p != k {
      Smaller(m, p);
      Smaller(m, k);
      TotalPick(m - {p}, k);
      TotalPick(m - {k}, p);
      assert m - {p} - {k} == m - {k} - {p};
    }
  }

  lemma TotalUpdate<K>(m: map<K, int>, k: K, v: int)
    requires k in m
    ensures Total(m[k := v]) == Total(m) - m[k] + v
  {
    TotalPick(m, k);
    TotalPick(m[k := v], k);
    assert m[k := v] - {k} == m - {k};
  }

  lemma Smaller<K>(m: map<K, int>, k: K)
    requires k in m
    ensures |m - {k}| < |m|
  {
    assert (m - {k}).Keys == m.Keys - {k};
    assert |m - {k}| == |(m - {k}).Keys|;
  }
}
