/** Sums over finite maps, the shape every balance sheet below takes. */
module Sums {

  ghost function Pick<K>(m: map<K, int>): (k: K)
    requires m != map[]
    ensures k in m
  {
    var k :| k in m;
    k
  }

  ghost function Sum<K>(m: map<K, int>): int
    decreases |m|
  {
    if m == map[] then 0 else
      var k := Pick(m);
      assert (m - {k}).Keys == m.Keys - {k};
      m[k] + Sum(m - {k})
  }

  ghost function Get<K>(m: map<K, int>, k: K): int {
    if k in m then m[k] else 0
  }

  /** The order in which entries are added does not matter: any entry may be split off. */
  lemma {:induction false} SumSplit<K>(m: map<K, int>, k: K)
    requires k in m
    ensures Sum(m) == m[k] + Sum(m - {k})
    decreases |m|
  {
    var j := Pick(m);
    if j == k {
    } else {
      assert (m - {j}).Keys == m.Keys - {j};
      assert (m - {k}).Keys == m.Keys - {k};
      SumSplit(m - {j}, k);
      SumSplit(m - {k}, j);
      assert m - {j} - {k} == m - {k} - {j};
    }
  }

  /** Writing one entry changes the sum by the difference of that entry. */
  lemma SumPut<K>(m: map<K, int>, k: K, v: int)
    ensures Sum(m[k := v]) == Sum(m) - Get(m, k) + v
  {
    SumSplit(m[k := v], k);
    if k in m {
      SumSplit(m, k);
      assert m[k := v] - {k} == m - {k};
    } else {
      assert m[k := v] - {k} == m;
    }
  }

  lemma SumDrop<K>(m: map<K, int>, k: K)
    ensures Sum(m - {k}) == Sum(m) - Get(m, k)
  {
    if k in m {
      SumSplit(m, k);
    } else {
      assert m - {k} == m;
    }
  }

  /** A sheet that is below another entry by entry has the smaller sum. */
  lemma {:induction false} SumBelow<K>(a: map<K, int>, b: map<K, int>)
    requires forall k :: k in a ==> a[k] <= Get(b, k)
    requires forall k :: k in b ==> 0 <= b[k]
    ensures Sum(a) <= Sum(b)
    decreases |a|
  {
    if a == map[] {
      SumNonNegative(b);
    } else {
      var k := Pick(a);
      assert (a - {k}).Keys == a.Keys - {k};
      SumBelow(a - {k}, b - {k});
      SumDrop(a, k);
      SumDrop(b, k);
    }
  }

  lemma {:induction false} SumNonNegative<K>(b: map<K, int>)
    requires forall k :: k in b ==> 0 <= b[k]
    ensures 0 <= Sum(b)
    decreases |b|
  {
    if b == map[] {
    } else {
      var k := Pick(b);
      assert (b - {k}).Keys == b.Keys - {k};
      SumNonNegative(b - {k});
    }
  }

  /** Sums add up entry by entry. */
  lemma {:induction false} SumAdd<K>(a: map<K, int>, b: map<K, int>, c: map<K, int>)
    requires a.Keys == b.Keys == c.Keys
    requires forall k :: k in a ==> a[k] == b[k] + c[k]
    ensures Sum(a) == Sum(b) + Sum(c)
    decreases |a|
  {
    if a == map[] {
      assert b == map[] && c == map[];
    } else {
      var k := Pick(a);
      assert (a - {k}).Keys == a.Keys - {k};
      SumAdd(a - {k}, b - {k}, c - {k});
      SumDrop(a, k);
      SumDrop(b, k);
      SumDrop(c, k);
    }
  }
}
