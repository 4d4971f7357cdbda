/**
The ranking score of app/cross_asset_allocation.py, `_candidate_score` (lines 1076-1142): it is a
percentage, and a candidate that is at least as good in every scored respect scores at least
as high.
*/
module AllocationScore {
  import opened Sums
  import opened Quotients
  import opened AllocationModel

  /** _ratio; the source raises an error for a target that is not positive. */
  function Ratio(value: real, target: real): (r: real)
    requires target > 0.0
    ensures 0.0 <= r <= 1.0
  {
    Clamp(value / target)
  }

  /** The eleven components, in the order in which the source lists them. */
  function Components(c: Candidate, p: Policy): (r: seq<real>)
    requires PolicyAccepted(p)
    ensures |r| == 11
  {
    [ Ratio(Max(0.0, c.conservativeR), p.targetConservativeR),
      Ratio(Max(0.0, c.expectedR), p.targetExpectedR),
      Ratio(Max(0.0, c.efficiency), p.targetEfficiency),
      Ratio(Max(0.0, c.rPerDay), p.targetRPerDay),
      Ratio(Max(0.0, c.marginalR), p.targetMarginalR),
      c.probabilityPositive,
      1.0 - c.probabilitySevere,
      Clamp(1.0 - c.costRatio / p.maxCostRatio),
      Ratio(c.liquidity, p.minLiquidity.At(IsCrypto(c))),
      1.0 - Abs(c.correlation),
      Clamp(1.0 - c.volatility / p.maxVolatility.At(IsCrypto(c))) ]
  }

  function Dot(xs: seq<real>, ws: seq<real>): real
    requires |xs| == |ws|
  {
    if xs == [] then 0.0
    else Dot(xs[..|xs| - 1], ws[..|ws| - 1]) + xs[|xs| - 1] * ws[|ws| - 1]
  }

  function DrawdownQuality(c: Candidate, p: Policy): (r: real)
    requires PolicyAccepted(p)
    ensures 0.0 <= r <= 1.0
  {
    Clamp(1.0 - c.drawdownR / p.maxDrawdownR)
  }

  function Score(c: Candidate, p: Policy): real
    requires PolicyAccepted(p)
  {
    Scaled(Dot(Components(c, p), p.weights), 1.0 - c.uncertainty, DrawdownQuality(c, p))
  }

  function Scaled(base: real, certainty: real, drawdown: real): real {
    Times(Times(base, certainty), drawdown) * 100.0
  }

  // ----- bounds -----------------------------------------------------------------------

  predicate AllWithin(xs: seq<real>, low: real, high: real) {
    forall k :: 0 <= k < |xs| ==> low <= xs[k] <= high
  }

  /** A weighted mean of percentages is a percentage. */
  lemma {:induction false} DotWithin(xs: seq<real>, ws: seq<real>)
    requires |xs| == |ws| && AllWithin(xs, 0.0, 1.0) && (forall k :: 0 <= k < |ws| ==> ws[k] >= 0.0)
    ensures 0.0 <= Dot(xs, ws) <= Sum(ws)
  {
    if xs != [] {
      var last := |xs| - 1;
      DotWithin(xs[..last], ws[..last]);
      TermWithin(Dot(xs[..last], ws[..last]), Sum(ws[..last]), xs[last], ws[last]);
    }
  }

  lemma TermWithin(dot: real, sum: real, x: real, w: real)
    requires 0.0 <= dot <= sum && 0.0 <= x <= 1.0 && 0.0 <= w
    ensures 0.0 <= dot + x * w <= sum + w
  {
    ScaleWithin(x, w);
  }

  lemma ScaleWithin(x: real, w: real)
    requires 0.0 <= x <= 1.0 && 0.0 <= w
    ensures 0.0 <= x * w <= w
  {
  }

  lemma ComponentsWithin(c: Candidate, p: Policy)
    requires PolicyAccepted(p) && CandidateAccepted(c)
    ensures AllWithin(Components(c, p), 0.0, 1.0)
  {
  }

  lemma ScoreIsPercentage(c: Candidate, p: Policy)
    requires PolicyAccepted(p) && CandidateAccepted(c)
    ensures 0.0 <= Score(c, p) <= 100.0
  {
    ComponentsWithin(c, p);
    DotWithin(Components(c, p), p.weights);
    ThreeFactors(Dot(Components(c, p), p.weights), 1.0 - c.uncertainty, DrawdownQuality(c, p));
  }

  lemma ThreeFactors(base: real, u: real, d: real)
    requires 0.0 <= base <= 1.0 && 0.0 <= u <= 1.0 && 0.0 <= d <= 1.0
    ensures 0.0 <= Times(Times(base, u), d) <= 1.0
  {
    ScaleWithin(u, base);
    ScaleWithin(d, base * u);
  }

  // ----- dominance ----------------------------------------------------------------------

  /** a is at least as good as b in every respect the score looks at. */
  predicate Dominates(a: Candidate, b: Candidate) {
    && IsCrypto(a) == IsCrypto(b)
    && a.conservativeR >= b.conservativeR
    && a.expectedR >= b.expectedR
    && a.efficiency >= b.efficiency
    && a.rPerDay >= b.rPerDay
    && a.marginalR >= b.marginalR
    && a.probabilityPositive >= b.probabilityPositive
    && a.probabilitySevere <= b.probabilitySevere
    && a.costRatio <= b.costRatio
    && a.liquidity >= b.liquidity
    && Abs(a.correlation) <= Abs(b.correlation)
    && a.volatility <= b.volatility
    && a.uncertainty <= b.uncertainty
    && a.drawdownR <= b.drawdownR
  }

  lemma QuotientMonotone(x: real, y: real, d: real)
    requires x <= y && d > 0.0
    ensures x / d <= y / d
  {
    assert y / d - x / d == (y - x) / d;
  }

  lemma ProductMonotone(a: real, b: real, x: real, y: real)
    requires 0.0 <= a <= b && 0.0 <= x <= y
    ensures 0.0 <= Times(a, x) <= Times(b, y)
  {
    assert a * x <= b * x;
    assert b * x <= b * y;
  }

  lemma {:induction false} DotMonotone(xs: seq<real>, ys: seq<real>, ws: seq<real>)
    requires |xs| == |ys| == |ws| && (forall k :: 0 <= k < |ws| ==> ws[k] >= 0.0)
    requires forall k :: 0 <= k < |xs| ==> xs[k] <= ys[k]
    ensures Dot(xs, ws) <= Dot(ys, ws)
  {
    if xs != [] {
      var last := |xs| - 1;
      DotMonotone(xs[..last], ys[..last], ws[..last]);
      assert (ys[last] - xs[last]) * ws[last] >= 0.0;
    }
  }

  lemma ComponentsMonotone(a: Candidate, b: Candidate, p: Policy)
    requires PolicyAccepted(p) && Dominates(a, b)
    ensures forall k :: 0 <= k < 11 ==> Components(b, p)[k] <= Components(a, p)[k]
  {
    QuotientMonotone(Max(0.0, b.conservativeR), Max(0.0, a.conservativeR), p.targetConservativeR);
    QuotientMonotone(Max(0.0, b.expectedR), Max(0.0, a.expectedR), p.targetExpectedR);
    QuotientMonotone(Max(0.0, b.efficiency), Max(0.0, a.efficiency), p.targetEfficiency);
    QuotientMonotone(Max(0.0, b.rPerDay), Max(0.0, a.rPerDay), p.targetRPerDay);
    QuotientMonotone(Max(0.0, b.marginalR), Max(0.0, a.marginalR), p.targetMarginalR);
    QuotientMonotone(a.costRatio, b.costRatio, p.maxCostRatio);
    QuotientMonotone(b.liquidity, a.liquidity, p.minLiquidity.At(IsCrypto(a)));
    QuotientMonotone(a.volatility, b.volatility, p.maxVolatility.At(IsCrypto(a)));
  }

  lemma DrawdownQualityMonotone(a: Candidate, b: Candidate, p: Policy)
    requires PolicyAccepted(p) && a.drawdownR <= b.drawdownR
    ensures DrawdownQuality(b, p) <= DrawdownQuality(a, p)
  {
    QuotientMonotone(a.drawdownR, b.drawdownR, p.maxDrawdownR);
  }

  lemma ScoreRespectsDominance(a: Candidate, b: Candidate, p: Policy)
    requires PolicyAccepted(p) && CandidateAccepted(a) && CandidateAccepted(b) && Dominates(a, b)
    ensures Score(a, p) >= Score(b, p)
  {
    BaseMonotone(a, b, p);
    DrawdownQualityMonotone(a, b, p);
    FactorsMonotone(Dot(Components(b, p), p.weights), Dot(Components(a, p), p.weights), 1.0 - b.uncertainty, 1.0 - a.uncertainty,
                    DrawdownQuality(b, p), DrawdownQuality(a, p));
  }

  lemma BaseMonotone(a: Candidate, b: Candidate, p: Policy)
    requires PolicyAccepted(p) && CandidateAccepted(b) && Dominates(a, b)
    ensures 0.0 <= Dot(Components(b, p), p.weights) <= Dot(Components(a, p), p.weights)
  {
    ComponentsMonotone(a, b, p);
    ComponentsWithin(b, p);
    DotMonotone(Components(b, p), Components(a, p), p.weights);
    DotWithin(Components(b, p), p.weights);
  }

  lemma FactorsMonotone(base: real, base': real, u: real, u': real, d: real, d': real)
    requires 0.0 <= base <= base' && 0.0 <= u <= u' && 0.0 <= d <= d'
    ensures Times(Times(base, u), d) * 100.0 <= Times(Times(base', u'), d') * 100.0
  {
    ProductMonotone(base, base', u, u');
    ProductMonotone(Times(base, u), Times(base', u'), d, d');
  }

  // ----- what the score is, and who reaches a hundred -----------------------------------------

  /** r is how far value has come towards target, neither below nothing nor beyond all. */
  predicate IsShare(r: real, value: real, target: real) {
    && (value <= 0.0 ==> r == 0.0)
    && (value >= target ==> r == 1.0)
    && (0.0 <= value <= target ==> r * target == value)
  }

  /** r is the share of limit that is left after `used`. */
  predicate IsRest(r: real, used: real, limit: real) {
    && (used >= limit ==> r == 0.0)
    && (used <= limit ==> r * limit == limit - used)
  }

  lemma PartOfWhole(x: real, d: real)
    requires d > 0.0
    ensures (x / d) * d == x
    ensures x / d <= 1.0 <==> x <= d
    ensures x / d >= 1.0 <==> x >= d
    ensures x / d >= 0.0 <==> x >= 0.0
  {
    var q := x / d;
    assert q * d == x;
    assert (q - 1.0) * d == x - d;
  }

  lemma RatioIsShare(value: real, target: real)
    requires target > 0.0
    ensures IsShare(Ratio(Max(0.0, value), target), value, target)
  {
    PartOfWhole(Max(0.0, value), target);
  }

  lemma ClampIsRest(used: real, limit: real)
    requires limit > 0.0 && used >= 0.0
    ensures IsRest(Clamp(1.0 - used / limit), used, limit)
  {
    PartOfWhole(used, limit);
  }

  /** The components: rewards count towards their targets, burdens against their limits. */
  lemma ComponentsInWords(c: Candidate, p: Policy)
    requires PolicyAccepted(p) && CandidateAccepted(c)
    ensures var x := Components(c, p);
      && IsShare(x[0], c.conservativeR, p.targetConservativeR)
      && IsShare(x[1], c.expectedR, p.targetExpectedR)
      && IsShare(x[2], c.efficiency, p.targetEfficiency)
      && IsShare(x[3], c.rPerDay, p.targetRPerDay)
      && IsShare(x[4], c.marginalR, p.targetMarginalR)
      && x[5] == c.probabilityPositive
      && x[6] + c.probabilitySevere == 1.0
      && IsRest(x[7], c.costRatio, p.maxCostRatio)
      && IsShare(x[8], c.liquidity, if c.assetClass.Crypto? then p.minLiquidity.crypto else p.minLiquidity.equity)
      && (x[9] == 1.0 - c.correlation || x[9] == 1.0 + c.correlation) && x[9] <= 1.0
      && IsRest(x[10], c.volatility, if c.assetClass.Crypto? then p.maxVolatility.crypto else p.maxVolatility.equity)
      && IsRest(DrawdownQuality(c, p), c.drawdownR, p.maxDrawdownR)
  {
    RewardsInWords(c, p);
    ClampIsRest(c.costRatio, p.maxCostRatio);
    RatioIsShare(c.liquidity, p.minLiquidity.At(IsCrypto(c)));
    ClampIsRest(c.volatility, p.maxVolatility.At(IsCrypto(c)));
    ClampIsRest(c.drawdownR, p.maxDrawdownR);
  }

  lemma RewardsInWords(c: Candidate, p: Policy)
    requires PolicyAccepted(p)
    ensures var x := Components(c, p);
      && IsShare(x[0], c.conservativeR, p.targetConservativeR)
      && IsShare(x[1], c.expectedR, p.targetExpectedR)
      && IsShare(x[2], c.efficiency, p.targetEfficiency)
      && IsShare(x[3], c.rPerDay, p.targetRPerDay)
      && IsShare(x[4], c.marginalR, p.targetMarginalR)
  {
    RatioIsShare(c.conservativeR, p.targetConservativeR);
    RatioIsShare(c.expectedR, p.targetExpectedR);
    RatioIsShare(c.efficiency, p.targetEfficiency);
    RatioIsShare(c.rPerDay, p.targetRPerDay);
    RatioIsShare(c.marginalR, p.targetMarginalR);
  }

  /** Moving one component moves the weighted sum by its weight, whatever the others are. */
  lemma {:induction false} DotMoves(xs: seq<real>, ws: seq<real>, k: nat, x: real)
    requires k < |xs| == |ws|
    ensures Dot(xs[k := x], ws) == Dot(xs, ws) + Times(x - xs[k], ws[k])
  {
    var last := |xs| - 1;
    if k < last {
      assert xs[k := x][..last] == xs[..last][k := x];
      DotMoves(xs[..last], ws[..last], k, x);
    } else {
      assert xs[k := x][..last] == xs[..last];
    }
  }

  predicate OnesWhereWeighed(xs: seq<real>, ws: seq<real>)
    requires |xs| == |ws|
  {
    forall k :: 0 <= k < |xs| && ws[k] > 0.0 ==> xs[k] == 1.0
  }

  lemma LastOne(xs: seq<real>, ws: seq<real>)
    requires 0 < |xs| == |ws|
    ensures var last := |xs| - 1;
      OnesWhereWeighed(xs, ws) <==> OnesWhereWeighed(xs[..last], ws[..last]) && (ws[last] > 0.0 ==> xs[last] == 1.0)
  {
    var last := |xs| - 1;
    assert forall k :: 0 <= k < last ==> xs[..last][k] == xs[k] && ws[..last][k] == ws[k];
    if OnesWhereWeighed(xs[..last], ws[..last]) {
      forall k | 0 <= k < last && ws[k] > 0.0
        ensures xs[k] == 1.0
      {
        assert xs[..last][k] == xs[k] && ws[..last][k] == ws[k];
      }
    }
  }

  lemma {:induction false} DotOfOnes(xs: seq<real>, ws: seq<real>)
    requires |xs| == |ws| && AllWithin(xs, 0.0, 1.0) && (forall k :: 0 <= k < |ws| ==> ws[k] >= 0.0)
    ensures Dot(xs, ws) == Sum(ws) <==> OnesWhereWeighed(xs, ws)
  {
    if xs == [] {
      assert ws == [];
    } else {
      var last := |xs| - 1;
      assert OnesWhereWeighed(xs, ws) <==> OnesWhereWeighed(xs[..last], ws[..last]) && (ws[last] > 0.0 ==> xs[last] == 1.0) by {
        LastOne(xs, ws);
      }
      DotWithin(xs[..last], ws[..last]);
      DotOfOnes(xs[..last], ws[..last]);
      WholeSum(Dot(xs[..last], ws[..last]), Sum(ws[..last]), xs[last], ws[last]);
    }
  }

  lemma WholeSum(dot: real, sum: real, x: real, w: real)
    requires dot <= sum && 0.0 <= x <= 1.0 && w >= 0.0
    ensures dot + x * w == sum + w <==> dot == sum && (w > 0.0 ==> x == 1.0)
  {
    WholeTerm(x, w);
  }

  lemma WholeTerm(x: real, w: real)
    requires 0.0 <= x <= 1.0 && w >= 0.0
    ensures x * w <= w && (x * w == w <==> w == 0.0 || x == 1.0)
  {
    assert (1.0 - x) * w == w - x * w;
  }

  /** The candidate leaves nothing to be desired in the k-th scored respect. */
  predicate Perfect(k: nat, c: Candidate, p: Policy) {
    match k
    case 0 => c.conservativeR >= p.targetConservativeR
    case 1 => c.expectedR >= p.targetExpectedR
    case 2 => c.efficiency >= p.targetEfficiency
    case 3 => c.rPerDay >= p.targetRPerDay
    case 4 => c.marginalR >= p.targetMarginalR
    case 5 => c.probabilityPositive == 1.0
    case 6 => c.probabilitySevere == 0.0
    case 7 => c.costRatio == 0.0
    case 8 => c.liquidity >= if c.assetClass.Crypto? then p.minLiquidity.crypto else p.minLiquidity.equity
    case 9 => c.correlation == 0.0
    case _ => c.volatility == 0.0
  }

  lemma ShareIsWhole(r: real, value: real, target: real)
    requires IsShare(r, value, target) && target > 0.0
    ensures r == 1.0 <==> value >= target
  {
  }

  lemma RestIsWhole(r: real, used: real, limit: real)
    requires IsRest(r, used, limit) && limit > 0.0 && used >= 0.0
    ensures r == 1.0 <==> used == 0.0
  {
    OneOfWhole(r, limit);
    if used <= limit {
      assert r * limit == limit - used;
    }
  }

  lemma OneOfWhole(r: real, limit: real)
    requires limit > 0.0
    ensures r * limit == limit <==> r == 1.0
  {
    assert r * limit - limit == (r - 1.0) * limit == -((1.0 - r) * limit);
    SignOfProduct(r - 1.0, limit);
    SignOfProduct(1.0 - r, limit);
  }

  lemma PerfectIsOne(c: Candidate, p: Policy, k: nat)
    requires PolicyAccepted(p) && CandidateAccepted(c) && k < 11
    ensures Components(c, p)[k] == 1.0 <==> Perfect(k, c, p)
  {
    ComponentsInWords(c, p);
    var x := Components(c, p);
    match k
    case 0 => ShareIsWhole(x[0], c.conservativeR, p.targetConservativeR);
    case 1 => ShareIsWhole(x[1], c.expectedR, p.targetExpectedR);
    case 2 => ShareIsWhole(x[2], c.efficiency, p.targetEfficiency);
    case 3 => ShareIsWhole(x[3], c.rPerDay, p.targetRPerDay);
    case 4 => ShareIsWhole(x[4], c.marginalR, p.targetMarginalR);
    case 7 => RestIsWhole(x[7], c.costRatio, p.maxCostRatio);
    case 8 => ShareIsWhole(x[8], c.liquidity, p.minLiquidity.At(IsCrypto(c)));
    case 10 => RestIsWhole(x[10], c.volatility, p.maxVolatility.At(IsCrypto(c)));
    case _ =>
  }

  lemma FullProduct(base: real, u: real, d: real)
    requires 0.0 <= base <= 1.0 && 0.0 <= u <= 1.0 && 0.0 <= d <= 1.0
    ensures Times(Times(base, u), d) == 1.0 <==> base == 1.0 && u == 1.0 && d == 1.0
  {
    ScaleWithin(u, base);
    ScaleWithin(base, u);
    ScaleWithin(d, base * u);
    ScaleWithin(base * u, d);
  }

  /** A hundred is scored exactly by the candidates that are certain, without drawdown, and perfect in every respect that the
      policy gives weight to. */
  lemma OnlyPerfectScoresHundred(c: Candidate, p: Policy)
    requires PolicyAccepted(p) && CandidateAccepted(c)
    ensures Score(c, p) == 100.0 <==>
      c.uncertainty == 0.0 && c.drawdownR == 0.0 && forall k :: 0 <= k < 11 && p.weights[k] > 0.0 ==> Perfect(k, c, p)
  {
    ComponentsWithin(c, p);
    DotWithin(Components(c, p), p.weights);
    DotOfOnes(Components(c, p), p.weights);
    forall k | 0 <= k < 11
      ensures Components(c, p)[k] == 1.0 <==> Perfect(k, c, p)
    {
      PerfectIsOne(c, p, k);
    }
    ComponentsInWords(c, p);
    RestIsWhole(DrawdownQuality(c, p), c.drawdownR, p.maxDrawdownR);
    FullProduct(Dot(Components(c, p), p.weights), 1.0 - c.uncertainty, DrawdownQuality(c, p));
  }

  /** Of two candidates that are alike but in the k-th component the scores differ by that component's difference, times its weight
      and the two multipliers. */
  lemma ScoreWeighsComponents(a: Candidate, b: Candidate, p: Policy, k: nat)
    requires PolicyAccepted(p) && k < 11 && Components(a, p) == Components(b, p)[k := Components(a, p)[k]]
    requires a.uncertainty == b.uncertainty && a.drawdownR == b.drawdownR
    ensures Score(a, p) - Score(b, p) ==
      Scaled(Times(Components(a, p)[k] - Components(b, p)[k], p.weights[k]), 1.0 - b.uncertainty, DrawdownQuality(b, p))
  {
    ScaledMoves(Components(b, p), p.weights, k, Components(a, p)[k], 1.0 - b.uncertainty, DrawdownQuality(b, p));
  }

  lemma ScaledMoves(xs: seq<real>, ws: seq<real>, k: nat, x: real, u: real, d: real)
    requires k < |xs| == |ws|
    ensures Scaled(Dot(xs[k := x], ws), u, d) - Scaled(Dot(xs, ws), u, d) == Scaled(Times(x - xs[k], ws[k]), u, d)
  {
    DotMoves(xs, ws, k, x);
    DifferenceOfProducts(Dot(xs[k := x], ws), Dot(xs, ws), u, d);
  }

  lemma DifferenceOfProducts(x: real, y: real, u: real, d: real)
    ensures Scaled(x, u, d) - Scaled(y, u, d) == Scaled(x - y, u, d)
  {
    assert x * u - y * u == (x - y) * u;
    assert (x * u) * d - (y * u) * d == (x * u - y * u) * d;
  }

  /** Uncertainty and drawdown scale the score down in proportion: doubt of one half, or half the drawdown allowed, leaves half. */
  lemma MultipliersScaleScore(a: Candidate, b: Candidate, p: Policy)
    requires PolicyAccepted(p) && CandidateAccepted(a) && CandidateAccepted(b) && Components(a, p) == Components(b, p)
    requires b.uncertainty == 0.0 && b.drawdownR == 0.0
    ensures a.drawdownR >= p.maxDrawdownR ==> Score(a, p) == 0.0
    ensures a.drawdownR <= p.maxDrawdownR ==>
      Times(Score(a, p), p.maxDrawdownR) == Times(Times(Score(b, p), 1.0 - a.uncertainty), p.maxDrawdownR - a.drawdownR)
  {
    ClampIsRest(a.drawdownR, p.maxDrawdownR);
    ClampIsRest(b.drawdownR, p.maxDrawdownR);
    ScaledProduct(Dot(Components(a, p), p.weights), 1.0 - a.uncertainty, DrawdownQuality(a, p), DrawdownQuality(b, p), a.drawdownR, p.maxDrawdownR);
  }

  lemma ScaledProduct(base: real, u: real, d: real, whole: real, used: real, limit: real)
    requires limit > 0.0 && IsRest(d, used, limit) && IsRest(whole, 0.0, limit)
    ensures used >= limit ==> Scaled(base, u, d) == 0.0
    ensures used <= limit ==> Times(Scaled(base, u, d), limit) == Times(Times(Scaled(base, 1.0, whole), u), limit - used)
  {
    RestIsWhole(whole, 0.0, limit);
    assert Scaled(base, 1.0, whole) == base * 100.0;
    assert (base * u) * d * 100.0 * limit == ((base * 100.0) * u) * (d * limit);
  }
}
