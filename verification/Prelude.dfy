/** Options, integer limits, sizes of sets and sums over finite maps. */
module Prelude {

  datatype Option<+T> = None | Some(value: T)

  const I64_MAX: nat := 0x7FFF_FFFF_FFFF_FFFF

  /** The largest integer that JSON clients keep exact. */
  const MAX_JSON_INTEGER: nat := 0x1F_FFFF_FFFF_FFFF

  lemma Fewer<T>(small: set<T>, large: set<T>)
    requires small <= large
    ensures |small| <= |large| && (small != large ==> |small| < |large|)
  {
    assert large == small + (large - small);
  }

  /** Sum of the values of a finite map. */
  ghost function Total<K(!new)>(m: map<K, nat>): (sum: nat)
    decreases |m|
  {
    if m == map[] then 0
    else
      var k :| k in m;
      m[k] + Total(m - {k})
  }

  /** Any key can be taken out first: the sum does not depend on the order of the rows. */
  lemma {:induction false} TotalWithout<K(!new)>(m: map<K, nat>, k: K)
    requires k in m
    ensures Total(m) == m[k] + Total(m - {k})
    decreases |m|
  {
    var first :| first in m && Total(m) == m[first] + Total(m - {first});
    if first != k {
      TotalWithout(m - {first}, k);
      TotalWithout(m - {k}, first);
      assert m - {first} - {k} == m - {k} - {first};
    }
  }

  /** Adding a row adds its value. */
  lemma TotalWith<K(!new)>(m: map<K, nat>, k: K, v: nat)
    requires k !in m
    ensures Total(m[k := v]) == Total(m) + v
  {
    TotalWithout(m[k := v], k);
    assert m[k := v] - {k} == m;
  }

  /** A map that loses rows and whose remaining values do not grow has no larger sum. */
  lemma {:induction false} TotalShrinks<K(!new)>(small: map<K, nat>, large: map<K, nat>)
    requires forall k :: k in small ==> k in large && small[k] <= large[k]
    ensures Total(small) <= Total(large)
    decreases |small|
  {
    if small != map[] {
      var k :| k in small && Total(small) == small[k] + Total(small - {k});
      TotalShrinks(small - {k}, large - {k});
      TotalWithout(large, k);
    }
  }
}
