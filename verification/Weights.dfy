/** Exact weighted sums over finite maps, whatever the order of iteration. */
module Weights {

  ghost predicate SubMap<K, V>(a: map<K, V>, b: map<K, V>) {
    a.Keys <= b.Keys && forall k :: k in a ==> a[k] == b[k]
  }

  ghost function Weight<K(!new), V(!new)>(m: map<K, V>, w: (K, V) -> nat): nat {
    if m == map[] then 0
    else var k :| k in m; w(k, m[k]) + Weight(m - {k}, w)
  }

  /** Any key may be taken out first. */
  lemma {:induction false} WeightWithout<K(!new), V(!new)>(m: map<K, V>, k: K, w: (K, V) -> nat)
    requires k in m
    ensures Weight(m, w) == w(k, m[k]) + Weight(m - {k}, w)
    decreases |m|
  {
    var j :| j in m && Weight(m, w) == w(j, m[j]) + Weight(m - {j}, w);
    if j != k {
      WeightWithout(m - {j}, k, w);
      WeightWithout(m - {k}, j, w);
      assert (m - {j}) - {k} == (m - {k}) - {j};
    }
  }

  lemma WeightUpdate<K(!new), V(!new)>(m: map<K, V>, k: K, v: V, w: (K, V) -> nat)
    ensures Weight(m[k := v], w) == Weight(m - {k}, w) + w(k, v)
    ensures k !in m ==> Weight(m[k := v], w) == Weight(m, w) + w(k, v)
    ensures k in m ==> Weight(m[k := v], w) == Weight(m, w) - w(k, m[k]) + w(k, v)
  {
    WeightWithout(m[k := v], k, w);
    assert m[k := v] - {k} == m - {k};
    if k in m {
      WeightWithout(m, k, w);
    } else {
      assert m - {k} == m;
    }
  }

  /** A map weighs what a sub-map weighs plus what the sub-map leaves out. */
  lemma {:induction false} WeightSplit<K(!new), V(!new)>(m: map<K, V>, part: map<K, V>, w: (K, V) -> nat)
    requires SubMap(part, m)
    ensures Weight(m, w) == Weight(part, w) + Weight(m - part.Keys, w)
    decreases |part|
  {
    if part == map[] {
      assert m - part.Keys == m;
    } else {
      var k :| k in part;
      WeightSplit(m, part - {k}, w);
      WeightWithout(part, k, w);
      WeightWithout(m - (part - {k}).Keys, k, w);
      assert (m - (part - {k}).Keys) - {k} == m - part.Keys;
    }
  }
}
