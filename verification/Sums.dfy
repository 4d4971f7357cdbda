/** Totals over the exposure dictionaries that several components keep. */
module Sums {

  function Get<K>(m: map<K, real>, k: K): real {
    if k in m then m[k] else 0.0
  }

  /** m[k] = m.get(k, ZERO) + v */
  function Add<K>(m: map<K, real>, k: K, v: real): map<K, real> {
    m[k := Get(m, k) + v]
  }

  ghost function Total<K>(m: map<K, real>): real
    decreases |m|
  {
    if m == map[] then 0.0
    else
      var k :| k in m;
      m[k] + Total(m - {k})
  }

  predicate Nonnegative<K(!new)>(m: map<K, real>) {
    forall k :: k in m ==> m[k] >= 0.0
  }

  function Max(a: real, b: real): real {
    if a >= b then a else b
  }

  function Clamp(x: real): (r: real)
    ensures 0.0 <= r <= 1.0
  {
    Max(0.0, Min(1.0, x))
  }

  /** A product that proofs can carry around without multiplying it out. */
  function Times(a: real, b: real): real {
    a * b
  }

  function Min(a: real, b: real): real {
    if a <= b then a else b
  }

  /** The total does not depend on the order in which the entries are taken. */
  lemma {:induction false} TotalSplit<K>(m: map<K, real>, k: K)
    requires k in m
    ensures Total(m) == m[k] + Total(m - {k})
    decreases |m|
  {
    var first :| first in m && Total(m) == m[first] + Total(m - {first});
    if first != k {
      TotalSplit(m - {first}, k);
      TotalSplit(m - {k}, first);
      assert m - {first} - {k} == m - {k} - {first};
    }
  }

  lemma TotalUpdate<K>(m: map<K, real>, k: K, v: real)
    ensures Total(m[k := v]) == Total(m) - Get(m, k) + v
  {
    TotalSplit(m[k := v], k);
    assert m[k := v] - {k} == m - {k};
    if k in m {
      TotalSplit(m, k);
    } else {
      assert m - {k} == m;
    }
  }

  lemma TotalAdd<K>(m: map<K, real>, k: K, v: real)
    ensures Total(Add(m, k, v)) == Total(m) + v
  {
    TotalUpdate(m, k, Get(m, k) + v);
  }

  lemma {:induction false} EntryWithinTotal<K(!new)>(m: map<K, real>, k: K)
    requires Nonnegative(m)
    ensures 0.0 <= Get(m, k) <= Total(m)
    decreases |m|
  {
    if m != map[] {
      var first :| first in m && Total(m) == m[first] + Total(m - {first});
      EntryWithinTotal(m - {first}, k);
    }
  }

  /** sum(m.values(), ZERO) */
  method SumValues<K(!new, ==)>(m: map<K, real>) returns (total: real)
    ensures total == Total(m)
  {
    total := 0.0;
    var remaining := m;
    while remaining != map[]
      invariant total + Total(remaining) == Total(m)
      decreases |remaining|
    {
      var k :| k in remaining;
      TotalSplit(remaining, k);
      total := total + remaining[k];
      remaining := remaining - {k};
    }
  }

  lemma MergeStep<K(!new)>(merged: map<K, real>, remaining: map<K, real>, k: K)
    requires k in remaining
    ensures var next, rest := Add(merged, k, remaining[k]), remaining - {k};
      && Total(next) + Total(rest) == Total(merged) + Total(remaining)
      && (forall j :: Get(next, j) + Get(rest, j) == Get(merged, j) + Get(remaining, j))
      && next.Keys + rest.Keys == merged.Keys + remaining.Keys
  {
    TotalSplit(remaining, k);
    TotalAdd(merged, k, remaining[k]);
  }

  /** for key, value in other.items(): m[key] = m.get(key, ZERO) + value */
  method Merge<K(!new, ==)>(m: map<K, real>, other: map<K, real>) returns (merged: map<K, real>)
    ensures Total(merged) == Total(m) + Total(other)
    ensures forall k :: Get(merged, k) == Get(m, k) + Get(other, k)
    ensures merged.Keys == m.Keys + other.Keys
  {
    merged := m;
    var remaining := other;
    while remaining != map[]
      invariant Total(merged) + Total(remaining) == Total(m) + Total(other)
      invariant forall k :: Get(merged, k) + Get(remaining, k) == Get(m, k) + Get(other, k)
      invariant merged.Keys + remaining.Keys == m.Keys + other.Keys
      decreases |remaining|
    {
      var k :| k in remaining;
      MergeStep(merged, remaining, k);
      merged := Add(merged, k, remaining[k]);
      remaining := remaining - {k};
    }
  }
}
