/**
The crypto authority of app/crypto_risk.py (lines 586-828), said of the account, the aggregate and the policy alone: how far losses,
drawdown and volatility throttle it, exactly which amounts it grants, and which checks it reports as failed.
*/
module CryptoAuthority {
  import opened Wrappers
  import opened Sums
  import opened Quotients
  import opened CryptoEvidence
  import opened CryptoRiskPolicy

  // ----- the throttle -----

  /** Equity has fallen by at least this percentage from its peak; without a peak it counts as all lost. */
  predicate FallenBy(s: Situation, pct: real) {
    pct <= 0.0 || if s.peakEquity > 0.0 then (s.peakEquity - s.equity) * 100.0 >= s.peakEquity * pct else pct <= 100.0
  }

  lemma DrawdownIsFall(s: Situation, pct: real)
    ensures DrawdownOf(s) >= pct <==> FallenBy(s, pct)
  {
    if s.peakEquity > 0.0 {
      var fallen := (s.peakEquity - s.equity) / s.peakEquity;
      assert fallen * s.peakEquity == s.peakEquity - s.equity;
      assert (fallen * 100.0 - pct) * s.peakEquity == (s.peakEquity - s.equity) * 100.0 - s.peakEquity * pct;
      SignOfProduct(fallen * 100.0 - pct, s.peakEquity);
    }
  }

  /** One of the four losses has used up its percentage of equity. */
  predicate LossesHalt(p: Policy, s: Situation) {
    || s.equity * p.dailyAccountLossPct / 100.0 <= s.dailyAccountLoss
    || s.equity * p.weeklyAccountLossPct / 100.0 <= s.weeklyAccountLoss
    || s.equity * p.dailyCryptoLossPct / 100.0 <= s.dailyCryptoLoss
    || s.equity * p.weeklyCryptoLossPct / 100.0 <= s.weeklyCryptoLoss
  }

  predicate Halted(p: Policy, s: Situation) {
    LossesHalt(p, s) || FallenBy(s, p.drawdownHaltPct) || s.volatility >= p.volatilityHalt
  }

  /** A halt leaves nothing; between start and halt drawdown and volatility each allow their multiplier, and the smaller one
      counts; before both starts everything is allowed. */
  lemma ThrottleInWords(p: Policy, s: Situation)
    requires PolicyAccepted(p)
    ensures Throttle(p, s) == 0.0 <==> Halted(p, s)
    ensures !Halted(p, s) ==>
      var drawn, volatile := FallenBy(s, p.drawdownStartPct), s.volatility >= p.volatilityStart;
      && (!drawn && !volatile ==> Throttle(p, s) == 1.0)
      && (drawn && !volatile ==> Throttle(p, s) == p.drawdownMultiplier)
      && (!drawn && volatile ==> Throttle(p, s) == p.volatilityMultiplier)
      && (drawn && volatile ==> Throttle(p, s) <= p.drawdownMultiplier && Throttle(p, s) <= p.volatilityMultiplier
                                && Throttle(p, s) in {p.drawdownMultiplier, p.volatilityMultiplier})
  {
    DrawdownIsFall(s, p.drawdownStartPct);
    DrawdownIsFall(s, p.drawdownHaltPct);
    LossesInWords(p, s);
  }

  lemma LossesInWords(p: Policy, s: Situation)
    ensures LossHalt(p, s) <==> LossesHalt(p, s)
  {
  }

  // ----- what may be ordered -----

  predicate Winner(s: Situation, a: Aggregate) {
    && s.bid.Some? && a.averageEntry.Some?
    && s.bid.value >= 0.000000001 && a.averageEntry.value >= 0.000000001 && a.averageEntry.value < s.bid.value
  }

  /** An order of this kind may stand beside the orders and positions there are. */
  predicate MayStand(p: Policy, s: Situation, a: Aggregate, r: Request) {
    && a.symbolActiveOrders == 0
    && (r.buy ==>
         && a.activeOrders < p.maximumPositions
         && (a.quantity > 0.0 || a.cryptoHoldings < p.maximumPositions)
         && (r.action == Enter ==> a.quantity <= 0.0)
         && (r.action == AddToPosition ==> a.quantity > 0.0 && p.allowAddToWinner && Winner(s, a)))
  }

  /** The policy's limits in dollars. */
  datatype Dollars = Dollars(total: real, crypto: real, symbol: real, cluster: real, reserve: real, tradeRisk: real, heat: real)

  /** Each is its percentage of equity. */
  predicate InDollars(m: Dollars, p: Policy, s: Situation) {
    && m.total == s.equity * p.totalPct / 100.0
    && m.crypto == s.equity * p.grossPct / 100.0
    && m.symbol == s.equity * p.symbolPct / 100.0
    && m.cluster == s.equity * p.clusterPct / 100.0
    && m.reserve == s.equity * p.cashReservePct / 100.0
    && m.tradeRisk == s.equity * p.tradeRiskPct / 100.0
    && m.heat == s.equity * p.heatPct / 100.0
  }

  /** An order of this amount keeps every limit that policy and account set. */
  predicate FitsLimits(amount: real, m: Dollars, p: Policy, s: Situation, a: Aggregate) {
    && amount <= p.maximumOrderNotional && amount <= s.buyingPower
    && a.allGross + a.pendingAll + amount <= m.total
    && a.cryptoGross + a.pendingCrypto + amount <= m.crypto
    && a.symbolGross + a.pendingCrypto + amount <= m.symbol
    && a.cryptoGross + a.pendingCrypto + amount <= m.cluster
    && m.reserve + a.pendingCrypto + amount <= s.cash
  }

  /** This much more at risk keeps the limits for one trade and for all open heat. */
  predicate FitsHeat(risk: real, m: Dollars, a: Aggregate) {
    risk <= m.tradeRisk && a.openHeat + a.pendingHeat + risk <= m.heat
  }

  lemma WithinThrottled(amount: real, room: real, throttle: real)
    requires throttle > 0.0
    ensures amount <= Throttled(room, throttle) <==> Quotient(amount, throttle) <= room
  {
    QuotientTimes(amount, throttle);
    TimesOrder(room, Quotient(amount, throttle), throttle);
    assert Throttled(room, throttle) == Times(room, throttle);
  }

  /** c is what each limit leaves. */
  predicate Leaves(c: Capacities, m: Dollars, p: Policy, s: Situation, a: Aggregate) {
    && c.total == Max(0.0, m.total - a.allGross - a.pendingAll)
    && c.crypto == Max(0.0, m.crypto - a.cryptoGross - a.pendingCrypto)
    && c.symbol == Max(0.0, m.symbol - a.symbolGross - a.pendingCrypto)
    && c.cluster == Max(0.0, m.cluster - a.cryptoGross - a.pendingCrypto)
    && c.cash == Max(0.0, s.cash - m.reserve - a.pendingCrypto)
    && c.configured == p.maximumOrderNotional && c.buyingPower == s.buyingPower
  }

  lemma CapacitiesInDollars(m: Dollars, p: Policy, s: Situation, a: Aggregate)
    requires InDollars(m, p, s)
    ensures Leaves(CapacitiesOf(p, s, a), m, p, s, a)
  {
  }

  lemma SmallestIsLeast(c: Capacities, amount: real)
    ensures amount <= Smallest(c) <==>
      && amount <= c.configured && amount <= c.total && amount <= c.crypto && amount <= c.symbol && amount <= c.cluster
      && amount <= c.cash && amount <= c.buyingPower
  {
  }

  lemma CapacitiesFit(amount: real, c: Capacities, m: Dollars, p: Policy, s: Situation, a: Aggregate)
    requires amount > 0.0 && Leaves(c, m, p, s, a)
    ensures amount <= Smallest(c) <==> FitsLimits(amount, m, p, s, a)
  {
    SmallestIsLeast(c, amount);
  }

  predicate Authorized(p: Policy, s: Situation) {
    PolicyAccepted(p) && SituationAccepted(s) && p.maximumOrderNotional >= 0.0
  }

  /** Nothing is granted without an accepted policy and account, after a halt, or where the order may not stand. */
  lemma GrantsNothing(p: Policy, s: Situation, a: Aggregate, r: Request)
    requires !Authorized(p, s) || Halted(p, s) || !MayStand(p, s, a, r)
    ensures AuthorityOf(p, s, a, r).hardNotional == 0.0
    ensures !Authorized(p, s) || Halted(p, s) ==> AuthorityOf(p, s, a, r).hardStopRisk == 0.0
  {
    if Authorized(p, s) {
      ThrottleInWords(p, s);
      ThrottledIsSmaller(Smallest(CapacitiesOf(p, s, a)), Throttle(p, s));
      ThrottledIsSmaller(Percent(s.equity, p.tradeRiskPct), Throttle(p, s));
      ThrottledIsSmaller(Max(0.0, Percent(s.equity, p.heatPct) - a.openHeat - a.pendingHeat), Throttle(p, s));
    }
  }

  /** Otherwise a positive amount is granted exactly when what it would be without the throttle keeps every limit. */
  lemma GrantsWhatFits(p: Policy, s: Situation, a: Aggregate, r: Request, amount: real, m: Dollars)
    requires Authorized(p, s) && !Halted(p, s) && MayStand(p, s, a, r) && amount > 0.0 && InDollars(m, p, s)
    ensures Throttle(p, s) > 0.0
    ensures amount <= AuthorityOf(p, s, a, r).hardNotional <==> FitsLimits(Quotient(amount, Throttle(p, s)), m, p, s, a)
  {
    ThrottleInWords(p, s);
    var throttle := Throttle(p, s);
    WithinThrottled(amount, Smallest(CapacitiesOf(p, s, a)), throttle);
    QuotientSign(amount, throttle);
    CapacitiesInDollars(m, p, s, a);
    CapacitiesFit(Quotient(amount, throttle), CapacitiesOf(p, s, a), m, p, s, a);
  }

  /** And a positive stop risk exactly when what it would be without the throttle keeps the limits of heat. */
  lemma GrantsRiskThatFits(p: Policy, s: Situation, a: Aggregate, r: Request, risk: real, m: Dollars)
    requires Authorized(p, s) && !Halted(p, s) && risk > 0.0 && InDollars(m, p, s)
    ensures Throttle(p, s) > 0.0
    ensures risk <= AuthorityOf(p, s, a, r).hardStopRisk <==> FitsHeat(Quotient(risk, Throttle(p, s)), m, a)
  {
    ThrottleInWords(p, s);
    var throttle := Throttle(p, s);
    WithinThrottled(risk, m.tradeRisk, throttle);
    WithinThrottled(risk, Max(0.0, m.heat - a.openHeat - a.pendingHeat), throttle);
    QuotientSign(risk, throttle);
    HeatInDollars(m, p, s, a);
  }

  lemma HeatInDollars(m: Dollars, p: Policy, s: Situation, a: Aggregate)
    requires PolicyAccepted(p) && InDollars(m, p, s)
    ensures StopRiskRoom(p, s, a) == Min(Throttled(m.tradeRisk, Throttle(p, s)), Throttled(Max(0.0, m.heat - a.openHeat - a.pendingHeat), Throttle(p, s)))
  {
    assert Percent(s.equity, p.tradeRiskPct) == m.tradeRisk && Percent(s.equity, p.heatPct) == m.heat;
  }

  // ----- the checks that are reported -----

  predicate AccountFails(check: Check, p: Policy, s: Situation, r: Request) {
    match check
    case PaperAccount => !s.accountVerified
    case CashFunded => r.buy && s.cash < s.equity * p.cashReservePct / 100.0
    case Drawdown => r.buy && FallenBy(s, p.drawdownHaltPct)
    case Volatility => r.buy && s.volatility >= p.volatilityHalt
    case _ => false
  }

  predicate LossFails(check: Check, p: Policy, s: Situation, r: Request) {
    match check
    case DailyAccountLoss => r.buy && s.equity * p.dailyAccountLossPct / 100.0 <= s.dailyAccountLoss
    case WeeklyAccountLoss => r.buy && s.equity * p.weeklyAccountLossPct / 100.0 <= s.weeklyAccountLoss
    case DailyCryptoLoss => r.buy && s.equity * p.dailyCryptoLossPct / 100.0 <= s.dailyCryptoLoss
    case WeeklyCryptoLoss => r.buy && s.equity * p.weeklyCryptoLossPct / 100.0 <= s.weeklyCryptoLoss
    case _ => false
  }

  predicate PositionFails(check: Check, p: Policy, s: Situation, a: Aggregate, r: Request) {
    match check
    case OpenCryptoOrders => a.symbolActiveOrders != 0 || (r.buy && a.activeOrders >= p.maximumPositions)
    case DurableCryptoIntents => a.symbolActiveOrders != 0 || (r.buy && a.intents >= p.maximumPositions)
    case MaximumPositions => r.buy && a.quantity <= 0.0 && a.cryptoHoldings >= p.maximumPositions
    case EntryPositionState => r.buy && r.action == Enter && a.quantity > 0.0
    case AddPositionState => r.buy && r.action == AddToPosition && a.quantity <= 0.0
    case AddPolicy => r.action == AddToPosition && !p.allowAddToWinner
    case ProfitableWinner => r.buy && r.action == AddToPosition && !Winner(s, a)
    case _ => false
  }

  predicate CapacityFails(check: Check, notional: real, stopRisk: real, r: Request) {
    match check
    case NotionalCapacity => r.buy && notional <= 0.0
    case StopRiskCapacity => r.buy && stopRisk <= 0.0
    case _ => false
  }

  predicate Fails(check: Check, p: Policy, s: Situation, a: Aggregate, r: Request, notional: real, stopRisk: real) {
    || AccountFails(check, p, s, r) || LossFails(check, p, s, r)
    || PositionFails(check, p, s, a, r) || CapacityFails(check, notional, stopRisk, r)
  }

  lemma AccountChecksAreExact(check: Check, p: Policy, s: Situation, r: Request)
    ensures check in FailedAccountChecks(p, s, r) <==> AccountFails(check, p, s, r)
  {
    DrawdownIsFall(s, p.drawdownHaltPct);
  }

  lemma LossChecksAreExact(check: Check, p: Policy, s: Situation, r: Request)
    ensures check in FailedLossChecks(p, s, r) <==> LossFails(check, p, s, r)
  {
  }

  lemma PositionChecksAreExact(check: Check, p: Policy, s: Situation, a: Aggregate, r: Request)
    ensures check in FailedPositionChecks(p, s, a, r) <==> PositionFails(check, p, s, a, r)
  {
  }

  lemma CapacityChecksAreExact(check: Check, notional: real, stopRisk: real, r: Request)
    ensures check in FailedCapacityChecks(r, notional, stopRisk) <==> CapacityFails(check, notional, stopRisk, r)
  {
  }

  lemma InOneOf(check: Check, account: set<Check>, loss: set<Check>, position: set<Check>, capacity: set<Check>)
    ensures check in account + loss + position + capacity <==> check in account || check in loss || check in position || check in capacity
  {
  }

  lemma FailedChecksAreExact(check: Check, p: Policy, s: Situation, a: Aggregate, r: Request, notional: real, stopRisk: real)
    ensures check in FailedChecks(p, s, a, r, notional, stopRisk) <==> Fails(check, p, s, a, r, notional, stopRisk)
  {
    AccountChecksAreExact(check, p, s, r);
    LossChecksAreExact(check, p, s, r);
    PositionChecksAreExact(check, p, s, a, r);
    CapacityChecksAreExact(check, notional, stopRisk, r);
    InOneOf(check, FailedAccountChecks(p, s, r), FailedLossChecks(p, s, r), FailedPositionChecks(p, s, a, r), FailedCapacityChecks(r, notional, stopRisk));
  }

  /** The authority reports exactly the checks that fail. */
  lemma ChecksAreExact(check: Check, p: Policy, s: Situation, a: Aggregate, r: Request)
    ensures var authority := AuthorityOf(p, s, a, r);
      check in authority.failed <==>
        if Authorized(p, s) then Fails(check, p, s, a, r, authority.hardNotional, authority.hardStopRisk) else check == CompleteRiskInputs
  {
    var authority := AuthorityOf(p, s, a, r);
    FailedChecksAreExact(check, p, s, a, r, authority.hardNotional, authority.hardStopRisk);
    assert Authorized(p, s) ==> authority.failed == FailedChecks(p, s, a, r, authority.hardNotional, authority.hardStopRisk);
  }
}
