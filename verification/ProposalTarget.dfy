/**
The target of a crypto proposal (app/crypto_proposals.py): the lowest price on the tick grid that
honours the strategy's own target and still leaves, after the fees of entry and exit, the promised
multiple of the maximum loss.
*/
module ProposalTarget {
  import opened Wrappers
  import opened Sums
  import opened Quotients

  const BASIS_POINTS := 10000.0

  /** What sizing and strategy hand over; every amount has been read as a number that is not negative. */
  datatype Economics = Economics(
    limit: real,
    stop: real,
    strategyTarget: real,
    rewardR: real,
    quantity: real,
    notional: real,
    maximumLoss: real,
    estimatedFees: real,
    stopExecution: real,
    increment: real,
    feeBps: real)

  predicate Read(x: Economics) {
    && x.limit >= 0.0 && x.stop >= 0.0 && x.strategyTarget >= 0.0 && x.rewardR >= 0.0 && x.quantity >= 0.0 && x.notional >= 0.0
    && x.maximumLoss >= 0.0 && x.estimatedFees >= 0.0 && x.stopExecution >= 0.0 && x.increment >= 0.000000001 && x.feeBps >= 0.0
  }

  datatype Fault = ValueInvalid | NotABoundedLong | FeeRateOutOfRange | FeesDoNotReconcile | TargetLosesReward

  datatype Target = Target(price: real, executionCost: real, grossReward: real, netReward: real, netRewardR: real)

  function FeeRate(x: Economics): real {
    x.feeBps / BASIS_POINTS
  }

  predicate BoundedLong(x: Economics) {
    x.stop < x.limit && x.quantity > 0.0 && x.notional > 0.0 && x.maximumLoss > 0.0
  }

  /** Everything before the target is solved for. */
  predicate Solvable(x: Economics) {
    Read(x) && BoundedLong(x) && FeeRate(x) < 1.0 && Times(Times(x.quantity, x.limit + x.stopExecution), FeeRate(x)) == x.estimatedFees
  }

  function Ceiling(x: real): int {
    -((-x).Floor)
  }

  function CostAdjustedTarget(x: Economics): real
    requires Solvable(x)
  {
    Quotient(Times(x.limit, 1.0 + FeeRate(x)) + Times(Quotient(x.maximumLoss, x.quantity), x.rewardR), 1.0 - FeeRate(x))
  }

  function RawTarget(x: Economics): real
    requires Solvable(x)
  {
    Max(x.strategyTarget, CostAdjustedTarget(x))
  }

  /** The price k ticks above zero. */
  function Tick(k: int, increment: real): real {
    Times(k as real, increment)
  }

  function TargetPrice(x: Economics): real
    requires Solvable(x)
  {
    Tick(Ceiling(Quotient(RawTarget(x), x.increment)), x.increment)
  }

  function ExecutionCost(x: Economics, price: real): real {
    Times(Times(x.quantity, x.limit), FeeRate(x)) + Times(Times(x.quantity, price), FeeRate(x))
  }

  function GrossReward(x: Economics, price: real): real {
    Times(x.quantity, price - x.limit)
  }

  function NetReward(x: Economics, price: real): real {
    GrossReward(x, price) - ExecutionCost(x, price)
  }

  predicate GuardFires(x: Economics, price: real)
    requires x.maximumLoss > 0.0
  {
    price < x.strategyTarget || NetReward(x, price) <= 0.0 || Quotient(NetReward(x, price), x.maximumLoss) < x.rewardR
  }

  function BuildTarget(x: Economics): Result<Target, Fault> {
    if !Read(x) then Err(ValueInvalid)
    else if !BoundedLong(x) then Err(NotABoundedLong)
    else if FeeRate(x) >= 1.0 then Err(FeeRateOutOfRange)
    else if !Solvable(x) then Err(FeesDoNotReconcile)
    else
      var price := TargetPrice(x);
      if GuardFires(x, price) then Err(TargetLosesReward)
      else Ok(Target(price, ExecutionCost(x, price), GrossReward(x, price), NetReward(x, price), Quotient(NetReward(x, price), x.maximumLoss)))
  }

  // ----- the tick grid -----

  lemma CeilingIsLeast(x: real, k: int)
    ensures x <= Ceiling(x) as real < x + 1.0
    ensures x <= k as real <==> Ceiling(x) <= k
  {
  }

  lemma TimesSum(a: real, b: real, c: real)
    ensures Times(a + b, c) == Times(a, c) + Times(b, c)
    ensures Times(1.0, c) == c
  {
  }

  /** The target lies on the grid, at or above the raw target and less than one tick above it. */
  lemma TargetIsRoundedUp(x: Economics)
    requires Solvable(x)
    ensures RawTarget(x) <= TargetPrice(x) < RawTarget(x) + x.increment
  {
    var ratio, inc := Quotient(RawTarget(x), x.increment), x.increment;
    var k := Ceiling(ratio) as real;
    CeilingIsLeast(ratio, 0);
    QuotientTimes(RawTarget(x), inc);
    TimesOrder(k, ratio, inc);
    TimesOrder(k, ratio + 1.0, inc);
    TimesSum(ratio, 1.0, inc);
  }

  /** A tick reaches the raw target just when it reaches the target. */
  lemma TickReachesTarget(x: Economics, k: int)
    requires Solvable(x)
    ensures RawTarget(x) <= Tick(k, x.increment) <==> TargetPrice(x) <= Tick(k, x.increment)
  {
    var ratio, inc := Quotient(RawTarget(x), x.increment), x.increment;
    CeilingIsLeast(ratio, k);
    QuotientTimes(RawTarget(x), inc);
    TimesOrder(k as real, ratio, inc);
    TimesOrder(k as real, Ceiling(ratio) as real, inc);
  }

  // ----- the reward -----

  /** The net reward as a multiple of the room between the price and break-even. */
  lemma NetRewardIsLinear(x: Economics, price: real)
    ensures NetReward(x, price) == Times(Times(price, 1.0 - FeeRate(x)) - Times(x.limit, 1.0 + FeeRate(x)), x.quantity)
  {
  }

  lemma PromisedReward(x: Economics)
    requires x.quantity > 0.0
    ensures Times(Times(Quotient(x.maximumLoss, x.quantity), x.rewardR), x.quantity) == Times(x.rewardR, x.maximumLoss)
  {
    var unit := Quotient(x.maximumLoss, x.quantity);
    QuotientTimes(x.maximumLoss, x.quantity);
    assert Times(Times(unit, x.rewardR), x.quantity) == (unit * x.quantity) * x.rewardR;
  }

  /** A price keeps the promised multiple after fees just when it reaches the cost-adjusted target. */
  lemma RewardKeptIffCostAdjusted(x: Economics, price: real)
    requires Solvable(x)
    ensures NetReward(x, price) >= Times(x.rewardR, x.maximumLoss) <==> price >= CostAdjustedTarget(x)
    ensures NetReward(x, price) == Times(x.rewardR, x.maximumLoss) <==> price == CostAdjustedTarget(x)
  {
    var keep := 1.0 - FeeRate(x);
    var floor := Times(x.limit, 1.0 + FeeRate(x)) + Times(Quotient(x.maximumLoss, x.quantity), x.rewardR);
    var room := Times(price, keep) - Times(x.limit, 1.0 + FeeRate(x));
    NetRewardIsLinear(x, price);
    PromisedReward(x);
    TimesOrder(room, Times(Quotient(x.maximumLoss, x.quantity), x.rewardR), x.quantity);
    QuotientTimes(floor, keep);
    TimesOrder(price, CostAdjustedTarget(x), keep);
  }

  lemma TargetKeepsReward(x: Economics)
    requires Solvable(x)
    ensures TargetPrice(x) >= x.strategyTarget
    ensures NetReward(x, TargetPrice(x)) >= Times(x.rewardR, x.maximumLoss)
    ensures Quotient(NetReward(x, TargetPrice(x)), x.maximumLoss) >= x.rewardR
  {
    TargetIsRoundedUp(x);
    RewardKeptIffCostAdjusted(x, TargetPrice(x));
    QuotientBelow(NetReward(x, TargetPrice(x)), x.maximumLoss, x.rewardR);
  }

  /** The target is the lowest tick with the strategy's target and the promised reward. */
  lemma TargetIsLowestTick(x: Economics, k: int)
    requires Solvable(x)
    ensures var price := Tick(k, x.increment);
      price >= x.strategyTarget && NetReward(x, price) >= Times(x.rewardR, x.maximumLoss) <==> price >= TargetPrice(x)
  {
    RewardKeptIffCostAdjusted(x, Tick(k, x.increment));
    TickReachesTarget(x, k);
  }

  lemma PromiseIsPositive(x: Economics)
    requires Solvable(x)
    ensures Times(x.rewardR, x.maximumLoss) >= 0.0 && (Times(x.rewardR, x.maximumLoss) == 0.0 <==> x.rewardR == 0.0)
  {
    TimesOrder(0.0, x.rewardR, x.maximumLoss);
    assert Times(0.0, x.maximumLoss) == 0.0;
  }

  /** Where the fees of entry and exit are just earned back. */
  function BreakEven(x: Economics): real
    requires Solvable(x)
  {
    Quotient(Times(x.limit, 1.0 + FeeRate(x)), 1.0 - FeeRate(x))
  }

  lemma ZeroMultipleBreaksEven(x: Economics)
    requires Solvable(x) && x.rewardR == 0.0
    ensures CostAdjustedTarget(x) == BreakEven(x)
  {
    assert Times(Quotient(x.maximumLoss, x.quantity), 0.0) == 0.0;
  }

  lemma TargetIsBreakEvenTick(x: Economics, breakEven: real)
    requires Solvable(x) && CostAdjustedTarget(x) == breakEven
    ensures TargetPrice(x) == breakEven <==> x.strategyTarget <= breakEven && exists k: int :: Tick(k, x.increment) == breakEven
  {
    TargetIsRoundedUp(x);
    assert TargetPrice(x) == Tick(Ceiling(Quotient(RawTarget(x), x.increment)), x.increment);
    if k: int :| Tick(k, x.increment) == breakEven {
      TickReachesTarget(x, k);
    }
  }

  /**
  With a positive multiple the guard behind the target never fires. With the multiple zero it fires
  exactly when break-even is a price on the grid and the strategy asks for no more.
  */
  lemma GuardFiresIffBreakEven(x: Economics)
    requires Solvable(x)
    ensures BuildTarget(x).Err? <==>
      && x.rewardR == 0.0 && x.strategyTarget <= BreakEven(x)
      && exists k: int :: Tick(k, x.increment) == BreakEven(x)
  {
    TargetKeepsReward(x);
    PromiseIsPositive(x);
    RewardKeptIffCostAdjusted(x, TargetPrice(x));
    if x.rewardR == 0.0 {
      ZeroMultipleBreaksEven(x);
      TargetIsBreakEvenTick(x, BreakEven(x));
    }
  }

  lemma Units(a: real)
    ensures Times(a, 0.0) == 0.0 && Times(a, 1.0) == a && Quotient(a, 1.0) == a
  {
  }

  lemma FreeBreaksEvenAtLimit(x: Economics)
    requires Read(x) && BoundedLong(x) && x.feeBps == 0.0 && x.estimatedFees == 0.0
    ensures Solvable(x) && BreakEven(x) == x.limit
  {
    assert FeeRate(x) == 0.0;
    Units(Times(x.quantity, x.limit + x.stopExecution));
    Units(x.limit);
  }

  lemma HundredIsATick()
    ensures Tick(200, 0.5) == 100.0
  {
  }

  /** Such a proposal: no fees, no promised multiple, and a target at a limit on the grid. */
  lemma GuardCanFire(x: Economics)
    requires x == Economics(100.0, 90.0, 100.0, 0.0, 1.0, 100.0, 10.0, 0.0, 90.0, 0.5, 0.0)
    ensures BuildTarget(x).Err?
  {
    FreeBreaksEvenAtLimit(x);
    HundredIsATick();
    GuardFiresIffBreakEven(x);
  }

  /** What a built target promises. */
  lemma BuiltTargetKeepsPromise(x: Economics)
    requires BuildTarget(x).Ok?
    ensures var t := BuildTarget(x).value;
      && t.price >= x.strategyTarget && t.netReward >= Times(x.rewardR, x.maximumLoss) && t.netRewardR >= x.rewardR
      && t.netReward > 0.0 && t.price < RawTarget(x) + x.increment
      && t.netReward == t.grossReward - t.executionCost
  {
    TargetKeepsReward(x);
    TargetIsRoundedUp(x);
  }

  /** The rewards of a built target in words: what the quantity gains from limit to target, less the fee rate on both legs, in units of the
      maximum loss. */
  lemma RewardsInWords(x: Economics)
    requires BuildTarget(x).Ok?
    ensures var t := BuildTarget(x).value;
      && t.grossReward == Times(x.quantity, t.price - x.limit)
      && t.executionCost * 10000.0 == Times(Times(x.quantity, x.limit) + Times(x.quantity, t.price), x.feeBps)
      && t.netReward == t.grossReward - t.executionCost
      && Times(t.netRewardR, x.maximumLoss) == t.netReward
  {
    var t := BuildTarget(x).value;
    var bought, sold := Times(x.quantity, x.limit), Times(x.quantity, t.price);
    assert Times(bought, FeeRate(x)) * 10000.0 == Times(bought, x.feeBps);
    assert Times(sold, FeeRate(x)) * 10000.0 == Times(sold, x.feeBps);
    QuotientTimes(t.netReward, x.maximumLoss);
  }
}
