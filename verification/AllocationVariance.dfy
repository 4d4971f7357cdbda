/**
The portfolio variance that an allocation plan reports (app/cross_asset_allocation.py, lines
1511-1545): an upper bound for every correlation structure the new positions could have.
*/
module AllocationVariance {
  import opened Sums
  import opened AllocationModel

  /** A new position: its share of equity times its volatility, and its correlation with what is
      already held. */
  datatype Loading = Loading(weight: real, correlation: real)

  predicate Plausible(xs: seq<Loading>) {
    forall k :: 0 <= k < |xs| ==> xs[k].weight >= 0.0 && -1.0 <= xs[k].correlation <= 1.0
  }

  function TotalWeight(xs: seq<Loading>): real {
    if xs == [] then 0.0 else TotalWeight(xs[..|xs| - 1]) + xs[|xs| - 1].weight
  }

  /** The covariance with the existing portfolio, at the given correlations or at their worst. */
  function Covariance(sigma: real, xs: seq<Loading>, worst: bool): real {
    if xs == [] then 0.0
    else
      var x := xs[|xs| - 1];
      Covariance(sigma, xs[..|xs| - 1], worst) + Times(Times(sigma, x.weight), if worst then Abs(x.correlation) else x.correlation)
  }

  function VarianceUpper(sigma: real, xs: seq<Loading>): real {
    Times(sigma, sigma) + 2.0 * Covariance(sigma, xs, true) + Times(TotalWeight(xs), TotalWeight(xs))
  }

  /** The pairwise correlations of the new positions. */
  type Correlations = (nat, nat) -> real

  ghost predicate IsCorrelation(rho: Correlations) {
    forall i, j :: -1.0 <= rho(i, j) <= 1.0
  }

  ghost function RowSum(xs: seq<Loading>, rho: Correlations, i: nat): real {
    if xs == [] then 0.0
    else RowSum(xs[..|xs| - 1], rho, i) + Times(rho(i, |xs| - 1), xs[|xs| - 1].weight)
  }

  /** sum over i < n and all j of rho(i, j) * w_i * w_j */
  ghost function DoubleSum(xs: seq<Loading>, rho: Correlations, n: nat): real
    requires n <= |xs|
  {
    if n == 0 then 0.0 else DoubleSum(xs, rho, n - 1) + Times(xs[n - 1].weight, RowSum(xs, rho, n - 1))
  }

  /** The variance of the portfolio and the new positions together. */
  ghost function TrueVariance(sigma: real, xs: seq<Loading>, rho: Correlations): real {
    Times(sigma, sigma) + 2.0 * Covariance(sigma, xs, false) + DoubleSum(xs, rho, |xs|)
  }

  lemma TimesMonotone(a: real, x: real, y: real)
    requires a >= 0.0 && x <= y
    ensures Times(a, x) <= Times(a, y)
  {
    assert a * (y - x) >= 0.0;
  }

  lemma {:induction false} RowWithinTotal(xs: seq<Loading>, rho: Correlations, i: nat)
    requires Plausible(xs) && IsCorrelation(rho)
    ensures RowSum(xs, rho, i) <= TotalWeight(xs) && TotalWeight(xs) >= 0.0
  {
    if xs != [] {
      var last := |xs| - 1;
      RowWithinTotal(xs[..last], rho, i);
      TimesMonotone(xs[last].weight, rho(i, last), 1.0);
    }
  }

  lemma {:induction false} DoubleSumWithin(xs: seq<Loading>, rho: Correlations, n: nat)
    requires n <= |xs| && Plausible(xs) && IsCorrelation(rho)
    ensures DoubleSum(xs, rho, n) <= Times(TotalWeight(xs[..n]), TotalWeight(xs))
  {
    if n != 0 {
      DoubleSumWithin(xs, rho, n - 1);
      RowWithinTotal(xs, rho, n - 1);
      TimesMonotone(xs[n - 1].weight, RowSum(xs, rho, n - 1), TotalWeight(xs));
      assert xs[..n][..n - 1] == xs[..n - 1];
      Distribute(TotalWeight(xs[..n - 1]), xs[n - 1].weight, TotalWeight(xs));
    }
  }

  lemma Distribute(a: real, b: real, c: real)
    ensures Times(a, c) + Times(b, c) == Times(a + b, c)
  {
  }

  lemma {:induction false} CovarianceWithin(sigma: real, xs: seq<Loading>)
    requires sigma >= 0.0 && Plausible(xs)
    ensures Covariance(sigma, xs, false) <= Covariance(sigma, xs, true)
  {
    if xs != [] {
      var last := |xs| - 1;
      CovarianceWithin(sigma, xs[..last]);
      assert Times(sigma, xs[last].weight) >= 0.0;
      TimesMonotone(Times(sigma, xs[last].weight), xs[last].correlation, Abs(xs[last].correlation));
    }
  }

  /** Whatever the correlations among the new positions, the true variance is at most the bound. */
  lemma VarianceBoundIsSound(sigma: real, xs: seq<Loading>, rho: Correlations)
    requires sigma >= 0.0 && Plausible(xs) && IsCorrelation(rho)
    ensures TrueVariance(sigma, xs, rho) <= VarianceUpper(sigma, xs)
  {
    CovarianceWithin(sigma, xs);
    DoubleSumWithin(xs, rho, |xs|);
    assert xs[..|xs|] == xs;
  }

  /** No new position that carries any risk hedges the portfolio. */
  predicate HedgesNothing(sigma: real, xs: seq<Loading>) {
    forall k :: 0 <= k < |xs| ==> Times(sigma, xs[k].weight) > 0.0 ==> xs[k].correlation >= 0.0
  }

  lemma TimesSame(a: real, x: real, y: real)
    requires a >= 0.0 && x <= y
    ensures Times(a, x) == Times(a, y) <==> a == 0.0 || x == y
  {
    if a > 0.0 && x < y {
      assert a * (y - x) > 0.0;
    }
  }

  /** The covariance is at its worst exactly when nothing hedges. */
  lemma {:induction false} CovarianceAtWorst(sigma: real, xs: seq<Loading>)
    requires sigma >= 0.0 && Plausible(xs)
    ensures Covariance(sigma, xs, false) == Covariance(sigma, xs, true) <==> HedgesNothing(sigma, xs)
  {
    if xs != [] {
      var front, last := xs[..|xs| - 1], xs[|xs| - 1];
      CovarianceAtWorst(sigma, front);
      CovarianceWithin(sigma, front);
      assert Times(sigma, last.weight) >= 0.0;
      TimesMonotone(Times(sigma, last.weight), last.correlation, Abs(last.correlation));
      TimesSame(Times(sigma, last.weight), last.correlation, Abs(last.correlation));
      HedgesNothingNext(sigma, xs);
    }
  }

  lemma HedgesNothingNext(sigma: real, xs: seq<Loading>)
    requires xs != []
    ensures var last := xs[|xs| - 1];
      HedgesNothing(sigma, xs) <==> HedgesNothing(sigma, xs[..|xs| - 1]) && (Times(sigma, last.weight) > 0.0 ==> last.correlation >= 0.0)
  {
    var front := xs[..|xs| - 1];
    assert forall k :: 0 <= k < |front| ==> front[k] == xs[k];
  }

  /** And some correlations among the new positions reach the bound exactly when none of those hedges the portfolio. */
  lemma VarianceBoundIsReached(sigma: real, xs: seq<Loading>)
    requires sigma >= 0.0 && Plausible(xs)
    ensures (exists rho :: IsCorrelation(rho) && TrueVariance(sigma, xs, rho) == VarianceUpper(sigma, xs)) <==> HedgesNothing(sigma, xs)
  {
    CovarianceWithin(sigma, xs);
    CovarianceAtWorst(sigma, xs);
    assert xs[..|xs|] == xs;
    forall rho | IsCorrelation(rho)
      ensures DoubleSum(xs, rho, |xs|) <= Times(TotalWeight(xs), TotalWeight(xs))
    {
      DoubleSumWithin(xs, rho, |xs|);
    }
    var perfect: Correlations := (i, j) => 1.0;
    DoubleSumReached(xs, perfect, |xs|);
    if HedgesNothing(sigma, xs) {
      assert IsCorrelation(perfect) && TrueVariance(sigma, xs, perfect) == VarianceUpper(sigma, xs);
    }
  }

  lemma {:induction false} RowReached(xs: seq<Loading>, rho: Correlations, i: nat)
    requires forall i, j :: rho(i, j) == 1.0
    ensures RowSum(xs, rho, i) == TotalWeight(xs)
  {
    if xs != [] {
      RowReached(xs[..|xs| - 1], rho, i);
    }
  }

  lemma {:induction false} DoubleSumReached(xs: seq<Loading>, rho: Correlations, n: nat)
    requires n <= |xs| && forall i, j :: rho(i, j) == 1.0
    ensures DoubleSum(xs, rho, n) == Times(TotalWeight(xs[..n]), TotalWeight(xs))
  {
    if n != 0 {
      DoubleSumReached(xs, rho, n - 1);
      RowReached(xs, rho, n - 1);
      assert xs[..n][..n - 1] == xs[..n - 1];
      Distribute(TotalWeight(xs[..n - 1]), xs[n - 1].weight, TotalWeight(xs));
    }
  }
}
