/** Weighted totals over finite maps.
    The market's ledger invariant (the running collateral total equals the sum
    over open orders) and the token program's per-mint supply are both totals
    of this shape: a weight for every entry of a map, added up. */
module Sums {

  /** Some key of a non-empty set; which one does not matter for Total. */
  ghost function Pick<K>(s: set<K>): (k: K)
    requires s != {}
    ensures k in s
  {
    var k :| k in s; k
  }

  /** The sum of `w(k, m[k])` over every entry of `m`. */
  ghost function Total<K, V>(m: map<K, V>, w: (K, V) -> nat): nat
    decreases |m.Keys|
  {
    if m.Keys == {} then 0
    else
      var k := Pick(m.Keys);
      assert (m - {k}).Keys == m.Keys - {k};
      w(k, m[k]) + Total(m - {k}, w)
  }

  /** Total does not depend on the key Pick chooses: any entry can be split off. */
  lemma {:induction false} TotalRemove<K, V>(m: map<K, V>, w: (K, V) -> nat, k: K)
    requires k in m
    ensures Total(m, w) == w(k, m[k]) + Total(m - {k}, w)
    decreases |m.Keys|
  {
    var j := Pick(m.Keys);
    if j != k {
      var mj, mk := m - {j}, m - {k};
      assert mj.Keys == m.Keys - {j} && mk.Keys == m.Keys - {k};
      TotalRemove(mj, w, k);
      TotalRemove(mk, w, j);
      assert mj - {k} == mk - {j};
    }
  }

  /** Writing `v` at key `k` replaces k's old weight (none when k was absent) by w(k, v). */
  lemma TotalUpdate<K, V>(m: map<K, V>, w: (K, V) -> nat, k: K, v: V)
    ensures k in m ==> Total(m[k := v], w) + w(k, m[k]) == Total(m, w) + w(k, v)
    ensures k !in m ==> Total(m[k := v], w) == Total(m, w) + w(k, v)
  {
    TotalRemove(m[k := v], w, k);
    assert m[k := v] - {k} == m - {k};
    if k in m {
      TotalRemove(m, w, k);
    } else {
      assert m - {k} == m;
    }
  }

  /** No entry weighs more than the total. */
  lemma EntryBelowTotal<K, V>(m: map<K, V>, w: (K, V) -> nat, k: K)
    requires k in m
    ensures w(k, m[k]) <= Total(m, w)
  {
  }
}
