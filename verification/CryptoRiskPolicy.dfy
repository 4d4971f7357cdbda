/**
The risk policy and the derived authority of app/crypto_risk.py: how much one more order may put at
stake, given the account, the aggregate of its exposures and the loss and volatility evidence.
*/
module CryptoRiskPolicy {
  import opened Wrappers
  import opened Sums
  import opened CryptoEvidence

  const PERCENT := 100.0

  datatype Policy = Policy(
    totalPct: real,
    grossPct: real,
    symbolPct: real,
    clusterPct: real,
    tradeRiskPct: real,
    heatPct: real,
    cashReservePct: real,
    dailyAccountLossPct: real,
    weeklyAccountLossPct: real,
    dailyCryptoLossPct: real,
    weeklyCryptoLossPct: real,
    drawdownStartPct: real,
    drawdownHaltPct: real,
    drawdownMultiplier: real,
    volatilityStart: real,
    volatilityHalt: real,
    volatilityMultiplier: real,
    maximumPositions: nat,
    maximumOrderNotional: real,
    allowAddToWinner: bool)

  /** The bounds that every policy in force has passed. */
  predicate PolicyAccepted(p: Policy) {
    && 0.0 < p.symbolPct <= p.clusterPct <= p.grossPct <= p.totalPct <= PERCENT
    && 0.0 < p.tradeRiskPct <= p.heatPct <= PERCENT
    && 0.0 <= p.cashReservePct <= PERCENT
    && p.dailyAccountLossPct >= 0.0 && p.weeklyAccountLossPct >= 0.0
    && p.dailyCryptoLossPct >= 0.0 && p.weeklyCryptoLossPct >= 0.0
    && 0.0 <= p.drawdownStartPct < p.drawdownHaltPct <= PERCENT
    && 0.0 < p.drawdownMultiplier <= 1.0 && 0.0 < p.volatilityMultiplier <= 1.0
    && 0.0 < p.volatilityStart < p.volatilityHalt
    && p.maximumPositions > 0
    && p.totalPct <= 50.0 && p.grossPct <= 5.0 && p.symbolPct <= 3.0 && p.clusterPct <= 5.0
    && p.tradeRiskPct <= 0.05 && p.heatPct <= 0.20
  }

  datatype Situation = Situation(
    equity: real,
    cash: real,
    buyingPower: real,
    peakEquity: real,
    accountVerified: bool,
    dailyAccountLoss: real,
    weeklyAccountLoss: real,
    dailyCryptoLoss: real,
    weeklyCryptoLoss: real,
    volatility: real,
    bid: Option<real>)

  predicate SituationAccepted(s: Situation) {
    && s.equity >= 0.000000001 && s.cash >= 0.0 && s.buyingPower >= 0.0
    && s.dailyAccountLoss >= 0.0 && s.weeklyAccountLoss >= 0.0
    && s.dailyCryptoLoss >= 0.0 && s.weeklyCryptoLoss >= 0.0 && s.volatility >= 0.0
  }

  datatype Action = Enter | AddToPosition | Reduce

  datatype Request = Request(buy: bool, action: Action)

  datatype Check =
    | CompleteRiskInputs | PaperAccount | CashFunded
    | DailyAccountLoss | WeeklyAccountLoss | DailyCryptoLoss | WeeklyCryptoLoss | Drawdown | Volatility
    | OpenCryptoOrders | DurableCryptoIntents | MaximumPositions | EntryPositionState | AddPositionState
    | AddPolicy | ProfitableWinner | NotionalCapacity | StopRiskCapacity

  datatype Authority = Authority(hardNotional: real, hardStopRisk: real, failed: set<Check>)

  function Percent(equity: real, pct: real): real {
    equity * pct / PERCENT
  }

  // ----- throttles -----

  function DrawdownOf(s: Situation): real {
    if s.peakEquity > 0.0 then Max(0.0, (s.peakEquity - s.equity) / s.peakEquity * PERCENT) else PERCENT
  }

  function Stepped(value: real, start: real, halt: real, multiplier: real): real {
    if value >= halt then 0.0 else if value >= start then multiplier else 1.0
  }

  function LossHalt(p: Policy, s: Situation): bool {
    || s.dailyAccountLoss >= Percent(s.equity, p.dailyAccountLossPct)
    || s.weeklyAccountLoss >= Percent(s.equity, p.weeklyAccountLossPct)
    || s.dailyCryptoLoss >= Percent(s.equity, p.dailyCryptoLossPct)
    || s.weeklyCryptoLoss >= Percent(s.equity, p.weeklyCryptoLossPct)
  }

  function Throttle(p: Policy, s: Situation): (t: real)
    requires PolicyAccepted(p)
    ensures 0.0 <= t <= 1.0
  {
    if LossHalt(p, s) then 0.0
    else Min(Stepped(DrawdownOf(s), p.drawdownStartPct, p.drawdownHaltPct, p.drawdownMultiplier),
             Stepped(s.volatility, p.volatilityStart, p.volatilityHalt, p.volatilityMultiplier))
  }

  // ----- capacities -----

  datatype Capacities = Capacities(configured: real, total: real, crypto: real, symbol: real, cluster: real, cash: real, buyingPower: real)

  function CapacitiesOf(p: Policy, s: Situation, a: Aggregate): Capacities {
    Capacities(
      p.maximumOrderNotional,
      Max(0.0, Percent(s.equity, p.totalPct) - a.allGross - a.pendingAll),
      Max(0.0, Percent(s.equity, p.grossPct) - a.cryptoGross - a.pendingCrypto),
      Max(0.0, Percent(s.equity, p.symbolPct) - a.symbolGross - a.pendingCrypto),
      Max(0.0, Percent(s.equity, p.clusterPct) - a.cryptoGross - a.pendingCrypto),
      Max(0.0, s.cash - Percent(s.equity, p.cashReservePct) - a.pendingCrypto),
      s.buyingPower)
  }

  function Smallest(c: Capacities): real {
    Min(c.configured, Min(c.total, Min(c.crypto, Min(c.symbol, Min(c.cluster, Min(c.cash, c.buyingPower))))))
  }

  function Throttled(amount: real, throttle: real): real {
    amount * throttle
  }

  predicate WinningPosition(s: Situation, a: Aggregate) {
    s.bid.Some? && s.bid.value >= 0.000000001 && a.averageEntry.Some? && a.averageEntry.value >= 0.000000001
    && s.bid.value > a.averageEntry.value
  }

  predicate OrdersAtCapacity(p: Policy, a: Aggregate) {
    a.activeOrders >= p.maximumPositions || a.symbolActiveOrders > 0
  }

  /** The rules that leave no room at all, whatever the capacities say. */
  predicate Refused(p: Policy, s: Situation, a: Aggregate, r: Request) {
    var held := a.quantity > 0.0;
    if r.buy then
      || (!held && a.cryptoHoldings >= p.maximumPositions)
      || (r.action.Enter? && held)
      || (r.action.AddToPosition? && (!held || !p.allowAddToWinner || !WinningPosition(s, a)))
      || OrdersAtCapacity(p, a)
    else
      a.symbolActiveOrders > 0
  }

  function StopRiskRoom(p: Policy, s: Situation, a: Aggregate): real
    requires PolicyAccepted(p)
  {
    var throttle := Throttle(p, s);
    Min(Throttled(Percent(s.equity, p.tradeRiskPct), throttle),
        Throttled(Max(0.0, Percent(s.equity, p.heatPct) - a.openHeat - a.pendingHeat), throttle))
  }

  function Unless(passed: bool, check: Check): set<Check> {
    if passed then {} else {check}
  }

  function FailedAccountChecks(p: Policy, s: Situation, r: Request): set<Check> {
    Unless(s.accountVerified, PaperAccount)
    + Unless(!r.buy || s.cash >= Percent(s.equity, p.cashReservePct), CashFunded)
    + Unless(!r.buy || DrawdownOf(s) < p.drawdownHaltPct, Drawdown)
    + Unless(!r.buy || s.volatility < p.volatilityHalt, Volatility)
  }

  function FailedLossChecks(p: Policy, s: Situation, r: Request): set<Check> {
    Unless(!r.buy || s.dailyAccountLoss < Percent(s.equity, p.dailyAccountLossPct), DailyAccountLoss)
    + Unless(!r.buy || s.weeklyAccountLoss < Percent(s.equity, p.weeklyAccountLossPct), WeeklyAccountLoss)
    + Unless(!r.buy || s.dailyCryptoLoss < Percent(s.equity, p.dailyCryptoLossPct), DailyCryptoLoss)
    + Unless(!r.buy || s.weeklyCryptoLoss < Percent(s.equity, p.weeklyCryptoLossPct), WeeklyCryptoLoss)
  }

  /** The checks of open orders and of the position that there is. */
  function FailedPositionChecks(p: Policy, s: Situation, a: Aggregate, r: Request): set<Check> {
    var held := a.quantity > 0.0;
    Unless(a.symbolActiveOrders == 0 && (r.buy ==> a.activeOrders < p.maximumPositions), OpenCryptoOrders)
    + Unless(a.symbolActiveOrders == 0 && (r.buy ==> a.intents < p.maximumPositions), DurableCryptoIntents)
    + Unless(!r.buy || held || a.cryptoHoldings < p.maximumPositions, MaximumPositions)
    + Unless(!r.buy || !r.action.Enter? || !held, EntryPositionState)
    + Unless(!r.buy || !r.action.AddToPosition? || held, AddPositionState)
    + Unless(!r.action.AddToPosition? || p.allowAddToWinner, AddPolicy)
    + Unless(!r.buy || !r.action.AddToPosition? || WinningPosition(s, a), ProfitableWinner)
  }

  function FailedCapacityChecks(r: Request, hardNotional: real, hardStopRisk: real): set<Check> {
    Unless(!r.buy || hardNotional > 0.0, NotionalCapacity)
    + Unless(!r.buy || hardStopRisk > 0.0, StopRiskCapacity)
  }

  function FailedChecks(p: Policy, s: Situation, a: Aggregate, r: Request, hardNotional: real, hardStopRisk: real): set<Check> {
    FailedAccountChecks(p, s, r) + FailedLossChecks(p, s, r) + FailedPositionChecks(p, s, a, r) + FailedCapacityChecks(r, hardNotional, hardStopRisk)
  }

  function NoAuthority(): Authority {
    Authority(0.0, 0.0, {CompleteRiskInputs})
  }

  /** Without an accepted policy, account and order size there is no authority. */
  function AuthorityOf(p: Policy, s: Situation, a: Aggregate, r: Request): Authority {
    if !PolicyAccepted(p) || !SituationAccepted(s) || p.maximumOrderNotional < 0.0 then NoAuthority()
    else
      var notional := if Refused(p, s, a, r) then 0.0 else Throttled(Smallest(CapacitiesOf(p, s, a)), Throttle(p, s));
      var stopRisk := StopRiskRoom(p, s, a);
      Authority(notional, stopRisk, FailedChecks(p, s, a, r, notional, stopRisk))
  }

  method Derive(p: Policy, s: Situation, a: Aggregate, r: Request) returns (authority: Authority)
    ensures authority == AuthorityOf(p, s, a, r)
  {
    if !PolicyAccepted(p) || !SituationAccepted(s) || p.maximumOrderNotional < 0.0 {
      return NoAuthority();
    }
    var held := a.quantity > 0.0;
    var drawdown, drawdownMultiplier := DrawdownOf(s), 1.0;
    if drawdown >= p.drawdownHaltPct {
      drawdownMultiplier := 0.0;
    } else if drawdown >= p.drawdownStartPct {
      drawdownMultiplier := p.drawdownMultiplier;
    }
    var volatilityMultiplier := 1.0;
    if s.volatility >= p.volatilityHalt {
      volatilityMultiplier := 0.0;
    } else if s.volatility >= p.volatilityStart {
      volatilityMultiplier := p.volatilityMultiplier;
    }
    var throttle := Min(drawdownMultiplier, volatilityMultiplier);
    if LossHalt(p, s) {
      throttle := 0.0;
    }
    var hardNotional := Throttled(Smallest(CapacitiesOf(p, s, a)), throttle);
    if r.buy && !held && a.cryptoHoldings >= p.maximumPositions {
      hardNotional := 0.0;
    }
    if r.buy && r.action.Enter? && held {
      hardNotional := 0.0;
    }
    if r.buy && r.action.AddToPosition? && !held {
      hardNotional := 0.0;
    }
    if r.buy && r.action.AddToPosition? && !p.allowAddToWinner {
      hardNotional := 0.0;
    }
    if r.buy && r.action.AddToPosition? && !WinningPosition(s, a) {
      hardNotional := 0.0;
    }
    if r.buy && OrdersAtCapacity(p, a) {
      hardNotional := 0.0;
    }
    if !r.buy && a.symbolActiveOrders > 0 {
      hardNotional := 0.0;
    }
    var hardStopRisk := Min(Throttled(Percent(s.equity, p.tradeRiskPct), throttle),
                            Throttled(Max(0.0, Percent(s.equity, p.heatPct) - a.openHeat - a.pendingHeat), throttle));
    return Authority(hardNotional, hardStopRisk, FailedChecks(p, s, a, r, hardNotional, hardStopRisk));
  }

  // ----- what a ceiling means -----

  lemma ThrottledIsSmaller(amount: real, throttle: real)
    requires 0.0 <= throttle <= 1.0
    ensures amount >= 0.0 ==> 0.0 <= Throttled(amount, throttle) <= amount
    ensures amount <= 0.0 ==> Throttled(amount, throttle) <= 0.0
    ensures throttle == 0.0 ==> Throttled(amount, throttle) == 0.0
  {
    if amount >= 0.0 {
      assert amount * (1.0 - throttle) >= 0.0;
      assert amount * throttle == amount - amount * (1.0 - throttle);
    } else {
      assert -amount * throttle >= 0.0;
    }
  }

  /** A buy of a positive amount at or below the ceiling fits into the room of every limit. */
  lemma BuyFitsEveryLimit(p: Policy, s: Situation, a: Aggregate, r: Request, amount: real)
    requires r.buy && 0.0 < amount <= AuthorityOf(p, s, a, r).hardNotional
    ensures PolicyAccepted(p) && SituationAccepted(s)
    ensures a.allGross + a.pendingAll + amount <= Percent(s.equity, p.totalPct)
    ensures a.cryptoGross + a.pendingCrypto + amount <= Percent(s.equity, p.clusterPct)
    ensures a.cryptoGross + a.pendingCrypto + amount <= Percent(s.equity, p.grossPct)
    ensures a.symbolGross + a.pendingCrypto + amount <= Percent(s.equity, p.symbolPct)
    ensures Percent(s.equity, p.cashReservePct) + a.pendingCrypto + amount <= s.cash
    ensures amount <= s.buyingPower && amount <= p.maximumOrderNotional
    ensures a.activeOrders < p.maximumPositions && a.symbolActiveOrders == 0
    ensures a.quantity > 0.0 || a.cryptoHoldings < p.maximumPositions
  {
    var c := CapacitiesOf(p, s, a);
    ThrottledIsSmaller(Smallest(c), Throttle(p, s));
    assert amount <= Smallest(c);
    assert Smallest(c) <= c.total && Smallest(c) <= c.crypto && Smallest(c) <= c.symbol;
    assert Smallest(c) <= c.cluster && Smallest(c) <= c.cash;
  }

  /** Without a throttle the ceiling is exact: everything that fits every limit and rule is granted. */
  lemma UnthrottledCeilingIsExact(p: Policy, s: Situation, a: Aggregate, r: Request, amount: real)
    requires PolicyAccepted(p) && SituationAccepted(s) && p.maximumOrderNotional >= 0.0
    requires Throttle(p, s) == 1.0 && r.buy && amount > 0.0
    ensures amount <= AuthorityOf(p, s, a, r).hardNotional <==>
      && !Refused(p, s, a, r)
      && amount <= p.maximumOrderNotional && amount <= s.buyingPower
      && a.allGross + a.pendingAll + amount <= Percent(s.equity, p.totalPct)
      && a.cryptoGross + a.pendingCrypto + amount <= Percent(s.equity, p.clusterPct)
      && a.symbolGross + a.pendingCrypto + amount <= Percent(s.equity, p.symbolPct)
      && Percent(s.equity, p.cashReservePct) + a.pendingCrypto + amount <= s.cash
  {
    var c := CapacitiesOf(p, s, a);
    var smallest := Smallest(c);
    ThrottledByOne(smallest);
    PercentIsMonotone(s.equity, p.clusterPct, p.grossPct);
    assert amount <= smallest <==>
      && amount <= c.configured && amount <= c.total && amount <= c.crypto && amount <= c.symbol
      && amount <= c.cluster && amount <= c.cash && amount <= c.buyingPower;
  }

  lemma ThrottledByOne(amount: real)
    ensures Throttled(amount, 1.0) == amount
  {
  }

  lemma PercentIsMonotone(equity: real, pct: real, ceiling: real)
    requires equity >= 0.0 && pct <= ceiling
    ensures Percent(equity, pct) <= Percent(equity, ceiling)
  {
    assert equity * (ceiling - pct) >= 0.0;
  }

  /** Sells do not compete for the number of unresolved orders: only another order in the same symbol stops one. */
  lemma SellsIgnoreOrderCount(p: Policy, s: Situation, a: Aggregate, action: Action, orders: nat, intents: nat)
    ensures AuthorityOf(p, s, a.(activeOrders := orders, intents := intents), Request(false, action)) == AuthorityOf(p, s, a, Request(false, action))
  {
  }

  /** A stop risk at or below its ceiling fits into the room for heat. */
  lemma StopRiskFits(p: Policy, s: Situation, a: Aggregate, r: Request, risk: real)
    requires 0.0 < risk <= AuthorityOf(p, s, a, r).hardStopRisk
    ensures risk <= Percent(s.equity, p.tradeRiskPct)
    ensures a.openHeat + a.pendingHeat + risk <= Percent(s.equity, p.heatPct)
  {
    var t, trade, room := Throttle(p, s), Percent(s.equity, p.tradeRiskPct), Max(0.0, Percent(s.equity, p.heatPct) - a.openHeat - a.pendingHeat);
    TradeRiskIsNonnegative(p, s);
    ThrottledIsSmaller(trade, t);
    ThrottledIsSmaller(room, t);
  }

  lemma TradeRiskIsNonnegative(p: Policy, s: Situation)
    requires PolicyAccepted(p) && SituationAccepted(s)
    ensures Percent(s.equity, p.tradeRiskPct) >= 0.0
  {
  }

  predicate RiskHalted(p: Policy, s: Situation, a: Aggregate) {
    || a.openHeat + a.pendingHeat >= Percent(s.equity, p.heatPct)
    || LossHalt(p, s) || DrawdownOf(s) >= p.drawdownHaltPct || s.volatility >= p.volatilityHalt
  }

  lemma HaltLeavesNoStopRisk(p: Policy, s: Situation, a: Aggregate)
    requires PolicyAccepted(p) && RiskHalted(p, s, a)
    ensures StopRiskRoom(p, s, a) <= 0.0
  {
    var room := Max(0.0, Percent(s.equity, p.heatPct) - a.openHeat - a.pendingHeat);
    ThrottledIsSmaller(room, Throttle(p, s));
    ThrottledIsSmaller(Percent(s.equity, p.tradeRiskPct), Throttle(p, s));
  }

  lemma NoStopRiskFails(p: Policy, s: Situation, a: Aggregate, r: Request, notional: real, stopRisk: real)
    requires r.buy && stopRisk <= 0.0
    ensures StopRiskCapacity in FailedChecks(p, s, a, r, notional, stopRisk)
  {
  }

  /** Without room for heat, after a loss halt, or at a drawdown or volatility halt, every buy fails a check. */
  lemma NoBuyWhenHalted(p: Policy, s: Situation, a: Aggregate, r: Request)
    requires r.buy && RiskHalted(p, s, a)
    ensures AuthorityOf(p, s, a, r).failed != {} && AuthorityOf(p, s, a, r).hardStopRisk <= 0.0
  {
    var authority := AuthorityOf(p, s, a, r);
    if authority == NoAuthority() {
      assert CompleteRiskInputs in authority.failed;
    } else {
      HaltLeavesNoStopRisk(p, s, a);
      NoStopRiskFails(p, s, a, r, authority.hardNotional, authority.hardStopRisk);
    }
  }
}
