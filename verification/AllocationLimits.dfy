/**
What `optimize_cross_asset_allocation` (app/cross_asset_allocation.py, lines 1300-1463) may spend and does spend, said in the
policy's percentages and the snapshot's amounts alone: no plan passes a limit of the policy, every decision grants the most that
the policy still allows, and the state it decides on is the snapshot plus what was granted before.
*/
module AllocationLimits {
  import opened Sums
  import opened Quotients
  import opened AllocationModel
  import opened AllocationRanking
  import opened Allocation
  import opened AllocationPlan

  // ----- the limits in dollars ----------------------------------------------------------------

  /** m holds the policy's percentages of the snapshot's equity, those for total exposure and heat throttled in a drawdown. */
  predicate ExposureInWords(m: Limits, s: Snapshot, p: Policy) {
    && m.gross == s.equity * p.maxGrossPct / 100.0 * (if s.drawdownPct >= p.throttleStartPct then p.throttle else 1.0)
    && m.symbol == s.equity * p.maxSymbolPct / 100.0
    && m.cluster == s.equity * p.maxClusterPct / 100.0
    && m.sleeve.equity == s.equity * p.maxSleevePct.equity / 100.0
    && m.sleeve.crypto == s.equity * p.maxSleevePct.crypto / 100.0
    && m.positions == p.maxPositions && m.sleevePositions == p.maxSleevePositions
  }

  predicate HeatInWords(m: Limits, s: Snapshot, p: Policy) {
    && m.heat == s.equity * p.maxHeatPct / 100.0 * (if s.drawdownPct >= p.throttleStartPct then p.throttle else 1.0)
    && m.sleeveHeat.equity == s.equity * p.maxHeatPct / 100.0
    && m.sleeveHeat.crypto == s.equity * p.maxCryptoHeatPct / 100.0
    && m.strategyHeat == s.equity * p.maxStrategyHeatPct / 100.0
    && m.explorationHeat == s.equity * p.maxExplorationHeatPct / 100.0
    && m.tradeRisk.equity == s.equity * p.maxTradeRiskPct.equity / 100.0
    && m.tradeRisk.crypto == s.equity * p.maxTradeRiskPct.crypto / 100.0
  }

  predicate InWords(m: Limits, s: Snapshot, p: Policy) {
    ExposureInWords(m, s, p) && HeatInWords(m, s, p) && m.minNotional == p.minNotional
  }

  lemma PercentOfEquity(equity: real, pct: real, throttle: real)
    ensures PctOf(equity, pct) == equity * pct / 100.0 && PctOf(equity, pct) * throttle == equity * pct / 100.0 * throttle
  {
  }

  lemma ExposureLimitsInWords(s: Snapshot, p: Policy)
    ensures ExposureInWords(LimitsOf(s, p), s, p)
  {
    PercentOfEquity(s.equity, p.maxGrossPct, Throttle(s, p));
    PercentOfEquity(s.equity, p.maxSymbolPct, 1.0);
    PercentOfEquity(s.equity, p.maxClusterPct, 1.0);
    PercentOfEquity(s.equity, p.maxSleevePct.equity, 1.0);
    PercentOfEquity(s.equity, p.maxSleevePct.crypto, 1.0);
  }

  lemma HeatLimitsInWords(s: Snapshot, p: Policy)
    ensures HeatInWords(LimitsOf(s, p), s, p)
  {
    PercentOfEquity(s.equity, p.maxHeatPct, Throttle(s, p));
    PercentOfEquity(s.equity, p.maxCryptoHeatPct, 1.0);
    PercentOfEquity(s.equity, p.maxStrategyHeatPct, 1.0);
    PercentOfEquity(s.equity, p.maxExplorationHeatPct, 1.0);
    PercentOfEquity(s.equity, p.maxTradeRiskPct.equity, 1.0);
    PercentOfEquity(s.equity, p.maxTradeRiskPct.crypto, 1.0);
  }

  lemma LimitsInWords(s: Snapshot, p: Policy)
    ensures InWords(LimitsOf(s, p), s, p)
  {
    ExposureLimitsInWords(s, p);
    HeatLimitsInWords(s, p);
  }

  // ----- no plan passes a limit ---------------------------------------------------------------

  /** At most the limit, or as much as it was before. */
  predicate UpTo(limit: real, before: real, now: real) {
    before <= now && (now <= limit || now == before)
  }

  ghost predicate ExposureWithinPolicy(l: Ledger, s: Snapshot, p: Policy) {
    var throttle := if s.drawdownPct >= p.throttleStartPct then p.throttle else 1.0;
    && UpTo(s.equity * p.maxGrossPct / 100.0 * throttle, s.gross, l.gross)
    && (forall k :: k in l.symbols ==> UpTo(s.equity * p.maxSymbolPct / 100.0, Get(s.symbols, k), l.symbols[k]))
    && (forall k :: k in l.clusters ==> UpTo(s.equity * p.maxClusterPct / 100.0, Get(s.clusters, k), l.clusters[k]))
    && UpTo(s.equity * p.maxSleevePct.equity / 100.0, s.sleeves.equity, l.sleeves.equity)
    && UpTo(s.equity * p.maxSleevePct.crypto / 100.0, s.sleeves.crypto, l.sleeves.crypto)
    && (l.positions <= p.maxPositions || l.positions == s.positions)
    && (l.sleevePositions.equity <= p.maxSleevePositions.equity || l.sleevePositions.equity == s.sleevePositions.equity)
    && (l.sleevePositions.crypto <= p.maxSleevePositions.crypto || l.sleevePositions.crypto == s.sleevePositions.crypto)
  }

  ghost predicate HeatWithinPolicy(l: Ledger, s: Snapshot, p: Policy) {
    var throttle := if s.drawdownPct >= p.throttleStartPct then p.throttle else 1.0;
    && UpTo(s.equity * p.maxHeatPct / 100.0 * throttle, s.heat, l.heat)
    && (forall k :: k in l.strategyHeat ==> UpTo(s.equity * p.maxStrategyHeatPct / 100.0, Get(s.strategyHeat, k), l.strategyHeat[k]))
    && UpTo(s.equity * p.maxHeatPct / 100.0, s.sleeveHeat.equity, l.sleeveHeat.equity)
    && UpTo(s.equity * p.maxCryptoHeatPct / 100.0, s.sleeveHeat.crypto, l.sleeveHeat.crypto)
  }

  /** What is spent is deployable cash: it leaves the reserve alone and stays within buying power. */
  predicate CashWithinPolicy(l: Ledger, s: Snapshot, p: Policy) {
    && l.cash >= 0.0
    && l.cash + (l.gross - s.gross) == Max(0.0, Min(s.buyingPower, s.cash - s.equity * p.cashReservePct / 100.0))
    && (l.gross > s.gross ==> s.cash - (l.gross - s.gross) >= s.equity * p.cashReservePct / 100.0 && l.gross - s.gross <= s.buyingPower)
  }

  lemma CappedIsUpTo(before: real, now: real, limit: real, percent: real)
    requires Capped(before, now, limit) && limit <= percent
    ensures UpTo(percent, before, now)
  {
  }

  lemma KeysStay(before: map<nat, real>, now: map<nat, real>, limit: real, percent: real)
    requires limit <= percent && forall k :: k in now ==> Capped(Get(before, k), now[k], limit)
    ensures forall k :: k in now ==> UpTo(percent, Get(before, k), now[k])
  {
  }

  lemma ExposureStays(l: Ledger, s: Snapshot, p: Policy, m: Limits)
    requires WithinLimits(l, s, m) && ExposureInWords(m, s, p)
    ensures ExposureWithinPolicy(l, s, p)
  {
    var throttle := if s.drawdownPct >= p.throttleStartPct then p.throttle else 1.0;
    CappedIsUpTo(s.gross, l.gross, m.gross, s.equity * p.maxGrossPct / 100.0 * throttle);
    KeysStay(s.symbols, l.symbols, m.symbol, s.equity * p.maxSymbolPct / 100.0);
    KeysStay(s.clusters, l.clusters, m.cluster, s.equity * p.maxClusterPct / 100.0);
    assert Capped(s.sleeves.At(false), l.sleeves.At(false), m.sleeve.At(false)) && Capped(s.sleeves.At(true), l.sleeves.At(true), m.sleeve.At(true));
    CappedIsUpTo(s.sleeves.equity, l.sleeves.equity, m.sleeve.equity, s.equity * p.maxSleevePct.equity / 100.0);
    CappedIsUpTo(s.sleeves.crypto, l.sleeves.crypto, m.sleeve.crypto, s.equity * p.maxSleevePct.crypto / 100.0);
    PlacesStay(l, s, m);
  }

  lemma PlacesStay(l: Ledger, s: Snapshot, m: Limits)
    requires WithinLimits(l, s, m)
    ensures l.positions <= m.positions || l.positions == s.positions
    ensures l.sleevePositions.equity <= m.sleevePositions.equity || l.sleevePositions.equity == s.sleevePositions.equity
    ensures l.sleevePositions.crypto <= m.sleevePositions.crypto || l.sleevePositions.crypto == s.sleevePositions.crypto
  {
    assert l.sleevePositions.At(false) == s.sleevePositions.At(false) || l.sleevePositions.At(false) <= m.sleevePositions.At(false);
    assert l.sleevePositions.At(true) == s.sleevePositions.At(true) || l.sleevePositions.At(true) <= m.sleevePositions.At(true);
  }

  lemma HeatStays(l: Ledger, s: Snapshot, p: Policy, m: Limits)
    requires WithinLimits(l, s, m) && HeatInWords(m, s, p)
    ensures HeatWithinPolicy(l, s, p)
  {
    var throttle := if s.drawdownPct >= p.throttleStartPct then p.throttle else 1.0;
    CappedIsUpTo(s.heat, l.heat, m.heat, s.equity * p.maxHeatPct / 100.0 * throttle);
    KeysStay(s.strategyHeat, l.strategyHeat, m.strategyHeat, s.equity * p.maxStrategyHeatPct / 100.0);
    assert Capped(s.sleeveHeat.At(false), l.sleeveHeat.At(false), m.sleeveHeat.At(false)) && Capped(s.sleeveHeat.At(true), l.sleeveHeat.At(true), m.sleeveHeat.At(true));
    CappedIsUpTo(s.sleeveHeat.equity, l.sleeveHeat.equity, m.sleeveHeat.equity, s.equity * p.maxHeatPct / 100.0);
    CappedIsUpTo(s.sleeveHeat.crypto, l.sleeveHeat.crypto, m.sleeveHeat.crypto, s.equity * p.maxCryptoHeatPct / 100.0);
  }

  lemma SpentIsDeployable(l: Ledger, s: Snapshot, p: Policy)
    requires l.cash >= 0.0 && l.gross >= s.gross && l.cash + (l.gross - s.gross) == Opening(s, p).cash
    ensures CashWithinPolicy(l, s, p)
  {
  }

  lemma StaysWithinPolicy(l: Ledger, s: Snapshot, p: Policy, m: Limits)
    requires WithinLimits(l, s, m) && InWords(m, s, p) && l.cash + (l.gross - s.gross) == Opening(s, p).cash
    ensures ExposureWithinPolicy(l, s, p) && HeatWithinPolicy(l, s, p) && CashWithinPolicy(l, s, p)
  {
    ExposureStays(l, s, p, m);
    HeatStays(l, s, p, m);
    SpentIsDeployable(l, s, p);
  }

  /** Whatever the candidates, exposure, heat and position counts end within the policy's percentages of equity or where they
      began, and what is spent leaves the cash reserve and stays within buying power. */
  lemma PlanStaysWithinPolicy(cs: seq<Candidate>, s: Snapshot, p: Policy, runId: nat)
    requires Accepted(cs, s, p, runId)
    ensures ExposureWithinPolicy(PlanOf(cs, s, p, runId).ledger, s, p)
    ensures HeatWithinPolicy(PlanOf(cs, s, p, runId).ledger, s, p)
    ensures CashWithinPolicy(PlanOf(cs, s, p, runId).ledger, s, p)
  {
    PlanLeavesSoundLedger(cs, s, p, runId);
    LimitsInWords(s, p);
    StaysWithinPolicy(PlanOf(cs, s, p, runId).ledger, s, p, LimitsOf(s, p));
  }

  // ----- every decision grants the most that is allowed ------------------------------------------

  predicate NotionalAllowed(amount: real, c: Candidate, l: Ledger, s: Snapshot, p: Policy) {
    var throttle := if s.drawdownPct >= p.throttleStartPct then p.throttle else 1.0;
    && amount <= l.cash
    && l.gross + amount <= s.equity * p.maxGrossPct / 100.0 * throttle
    && Get(l.symbols, c.symbol) + amount <= s.equity * p.maxSymbolPct / 100.0
    && Get(l.clusters, c.cluster) + amount <= s.equity * p.maxClusterPct / 100.0
    && if c.assetClass.Crypto? then l.sleeves.crypto + amount <= s.equity * p.maxSleevePct.crypto / 100.0
       else l.sleeves.equity + amount <= s.equity * p.maxSleevePct.equity / 100.0
  }

  predicate RiskAllowed(risk: real, c: Candidate, l: Ledger, s: Snapshot, p: Policy) {
    var throttle := if s.drawdownPct >= p.throttleStartPct then p.throttle else 1.0;
    && l.heat + risk <= s.equity * p.maxHeatPct / 100.0 * throttle
    && Get(l.strategyHeat, c.strategy) + risk <= s.equity * p.maxStrategyHeatPct / 100.0
    && (c.strategyState.Exploration? ==> Get(l.strategyHeat, c.strategy) + risk <= s.equity * p.maxExplorationHeatPct / 100.0)
    && if c.assetClass.Crypto? then
         l.sleeveHeat.crypto + risk <= s.equity * p.maxCryptoHeatPct / 100.0 && risk <= s.equity * p.maxTradeRiskPct.crypto / 100.0
       else
         l.sleeveHeat.equity + risk <= s.equity * p.maxHeatPct / 100.0 && risk <= s.equity * p.maxTradeRiskPct.equity / 100.0
  }

  /** After `amount` for c every limit of the policy still holds; c's stop risk comes in proportion. */
  predicate Allowed(amount: real, c: Candidate, l: Ledger, s: Snapshot, p: Policy)
    requires c.notional > 0.0
  {
    AllowedAt(amount, c.stopRisk / c.notional, c, l, s, p)
  }

  predicate AllowedAt(amount: real, rate: real, c: Candidate, l: Ledger, s: Snapshot, p: Policy) {
    NotionalAllowed(amount, c, l, s, p) && RiskAllowed(amount * rate, c, l, s, p)
  }

  lemma NotionalAllowedIffFits(amount: real, c: Candidate, l: Ledger, s: Snapshot, p: Policy, m: Limits)
    requires amount > 0.0 && ExposureInWords(m, s, p)
    ensures FitsNotional(amount, c, l, m) <==> NotionalAllowed(amount, c, l, s, p)
  {
    Room(amount, l.gross, m.gross);
    Room(amount, Get(l.symbols, c.symbol), m.symbol);
    Room(amount, Get(l.clusters, c.cluster), m.cluster);
    Room(amount, l.sleeves.At(IsCrypto(c)), m.sleeve.At(IsCrypto(c)));
  }

  lemma Room(amount: real, used: real, limit: real)
    requires amount > 0.0
    ensures amount <= Max(0.0, limit - used) <==> used + amount <= limit
  {
  }

  lemma RiskAllowedIffFits(risk: real, c: Candidate, l: Ledger, s: Snapshot, p: Policy, m: Limits)
    requires HeatInWords(m, s, p)
    ensures FitsHeat(risk, c, l, m) <==> RiskAllowed(risk, c, l, s, p)
  {
  }

  lemma LeastAllows(amount: real, rate: real, c: Candidate, l: Ledger, s: Snapshot, p: Policy, m: Limits)
    requires amount > 0.0 && rate > 0.0 && InWords(m, s, p)
    ensures amount <= Least(c.notional, CapsOf(c, l, m, rate)) <==> amount <= c.notional && AllowedAt(amount, rate, c, l, s, p)
  {
    WithinLeastIffFits(amount, c, l, m, rate);
    NotionalAllowedIffFits(amount, c, l, s, p, m);
    RiskAllowedIffFits(StopRisk(amount, rate), c, l, s, p, m);
  }

  /** c may trade under an authority that is given to supervised crypto exploration only. */
  predicate Supervised(c: Candidate, enabled: bool) {
    c.assetClass.Crypto? && c.lane.SupervisedPaper? && c.strategyState.Exploration? && enabled
  }

  predicate SystemUnfit(reason: Reason, s: Snapshot) {
    match reason
    case KillSwitchActive => s.killSwitch
    case LossEvidenceStale => !s.lossEvidenceFresh
    case DatabaseUnhealthy => !s.databaseHealthy
    case InternetUnhealthy => !s.internetHealthy
    case PowerUnhealthy => !s.powerHealthy
    case BrokerUnhealthy => !s.brokerHealthy
    case _ => false
  }

  predicate LossHalts(reason: Reason, s: Snapshot, p: Policy) {
    match reason
    case DailyLossHalt => p.dailyLossHaltPct <= s.dailyLossPct
    case WeeklyLossHalt => p.weeklyLossHaltPct <= s.weeklyLossPct
    case DrawdownHalt => p.drawdownHaltPct <= s.drawdownPct
    case _ => false
  }

  predicate AuthorityMissing(reason: Reason, c: Candidate, p: Policy) {
    match reason
    case SourceNotAuthoritative => !c.sourceAuthoritative
    case ProfitabilityIneligible => !(c.profitabilityEligible || c.explorationEligible || c.sourceType.ColdStartDiscovery?)
    case ColdStartAuthorityInvalid => c.sourceType.ColdStartDiscovery? && !Supervised(c, p.coldStartEnabled)
    case ColdStartNotionalExceedsPolicy => c.sourceType.ColdStartDiscovery? && p.coldStartMaxNotional < c.notional
    case ExplorationAuthorityInvalid => c.explorationEligible && !Supervised(c, p.explorationEnabled)
    case ExplorationNotionalExceedsPolicy => c.explorationEligible && p.explorationMaxNotional < c.notional
    case OrderOrPositionConflict => !c.conflictFree
    case StrategyNotAllocatable => !c.strategyState.Active? && !c.strategyState.Exploration?
    case _ => false
  }

  predicate EconomicsTooPoor(reason: Reason, c: Candidate, p: Policy) {
    match reason
    case NonpositiveExpectedProfit => !(c.expectedProfit > 0.0)
    case NonpositiveExpectedR => !(c.expectedR > 0.0)
    case NonpositiveConservativeR => !(c.conservativeR > 0.0)
    case NonpositiveMarginalContribution => !(c.marginalR > 0.0)
    case CostBurdenExceedsPolicy => p.maxCostRatio < c.costRatio
    case LiquidityBelowPolicy => c.liquidity < if c.assetClass.Crypto? then p.minLiquidity.crypto else p.minLiquidity.equity
    case DrawdownRExceedsPolicy => p.maxDrawdownR < c.drawdownR
    case VolatilityExceedsPolicy => c.volatility > if c.assetClass.Crypto? then p.maxVolatility.crypto else p.maxVolatility.equity
    case _ => false
  }

  /** On the ledger l, which the better candidates left. */
  predicate CapacityMissing(reason: Reason, c: Candidate, l: Ledger, s: Snapshot, p: Policy)
    requires c.notional > 0.0
  {
    var takesPlace := !c.held && c.symbol !in l.planned;
    match reason
    case MaximumPositionsReached => takesPlace && p.maxPositions <= l.positions
    case MaximumSleevePositionsReached => takesPlace &&
      if c.assetClass.Crypto? then p.maxSleevePositions.crypto <= l.sleevePositions.crypto
      else p.maxSleevePositions.equity <= l.sleevePositions.equity
    case RemainingCapacityBelowMinimum => !(p.minNotional <= c.notional && Allowed(p.minNotional, c, l, s, p))
    case _ => false
  }

  predicate Applies(reason: Reason, c: Candidate, l: Ledger, s: Snapshot, p: Policy)
    requires c.notional > 0.0
  {
    || SystemUnfit(reason, s) || LossHalts(reason, s, p)
    || AuthorityMissing(reason, c, p) || EconomicsTooPoor(reason, c, p) || CapacityMissing(reason, c, l, s, p)
  }

  lemma SystemReasonsAreExact(s: Snapshot, reason: Reason)
    ensures reason in SystemReasons(s) <==> SystemUnfit(reason, s)
  {
  }

  lemma LossReasonsAreExact(s: Snapshot, p: Policy, reason: Reason)
    ensures reason in LossReasons(s, p) <==> LossHalts(reason, s, p)
  {
  }

  lemma AuthorityReasonsAreExact(c: Candidate, p: Policy, reason: Reason)
    ensures reason in AuthorityReasons(c, p) <==> AuthorityMissing(reason, c, p)
  {
  }

  lemma EconomicReasonsAreExact(c: Candidate, p: Policy, reason: Reason)
    ensures reason in EconomicReasons(c, p) <==> EconomicsTooPoor(reason, c, p)
  {
  }

  lemma CapacityReasonsAreExact(c: Candidate, l: Ledger, s: Snapshot, p: Policy, m: Limits, rate: real, reason: Reason)
    requires c.notional > 0.0 && rate == c.stopRisk / c.notional && rate > 0.0 && p.minNotional > 0.0 && InWords(m, s, p)
    ensures reason in CapacityReasons(c, l, m, rate) <==> CapacityMissing(reason, c, l, s, p)
  {
    LeastAllows(p.minNotional, rate, c, l, s, p, m);
  }

  lemma InEither(reason: Reason, system: set<Reason>, loss: set<Reason>, authority: set<Reason>, economics: set<Reason>, capacity: set<Reason>)
    ensures reason in (system + loss) + (authority + economics) + capacity <==>
      reason in system || reason in loss || reason in authority || reason in economics || reason in capacity
  {
  }

  lemma ReasonsAreExact(c: Candidate, l: Ledger, s: Snapshot, p: Policy, m: Limits, rate: real, reason: Reason)
    requires c.notional > 0.0 && rate == c.stopRisk / c.notional && rate > 0.0 && p.minNotional > 0.0 && InWords(m, s, p)
    ensures reason in StandingReasons(c, s, p) + CapacityReasons(c, l, m, rate) <==> Applies(reason, c, l, s, p)
  {
    SystemReasonsAreExact(s, reason);
    LossReasonsAreExact(s, p, reason);
    AuthorityReasonsAreExact(c, p, reason);
    EconomicReasonsAreExact(c, p, reason);
    CapacityReasonsAreExact(c, l, s, p, m, rate, reason);
    InEither(reason, SystemReasons(s), LossReasons(s, p), AuthorityReasons(c, p), EconomicReasons(c, p), CapacityReasons(c, l, m, rate));
  }

  /** Nothing above `granted` is allowed, up to what was asked for. */
  ghost predicate Most(granted: real, c: Candidate, l: Ledger, s: Snapshot, p: Policy)
    requires c.notional > 0.0
  {
    && p.minNotional <= granted <= c.notional && Allowed(granted, c, l, s, p)
    && forall more :: granted < more <= c.notional ==> !Allowed(more, c, l, s, p)
  }

  lemma LeastIsMost(c: Candidate, l: Ledger, s: Snapshot, p: Policy, m: Limits, rate: real, least: real)
    requires c.notional > 0.0 && rate == c.stopRisk / c.notional && rate > 0.0 && p.minNotional > 0.0 && InWords(m, s, p)
    requires least == Least(c.notional, CapsOf(c, l, m, rate)) && p.minNotional <= least
    ensures Most(least, c, l, s, p)
  {
    LeastAllows(least, rate, c, l, s, p, m);
    forall more | least < more <= c.notional
      ensures !Allowed(more, c, l, s, p)
    {
      LeastAllows(more, rate, c, l, s, p, m);
    }
  }

  /** A decision names exactly the reasons that apply; without one it grants the most that the policy still allows, and with one
      nothing. */
  ghost predicate DecidedByPolicy(d: Decision, c: Candidate, l: Ledger, s: Snapshot, p: Policy)
    requires c.notional > 0.0
  {
    && (forall reason :: reason in d.reasons <==> Applies(reason, c, l, s, p))
    && if d.reasons == {} then Most(d.granted, c, l, s, p) else d.granted == 0.0
  }

  lemma DecisionGrantsMost(rank: nat, c: Candidate, l: Ledger, s: Snapshot, p: Policy, m: Limits, rate: real)
    requires c.notional > 0.0 && rate == c.stopRisk / c.notional && rate > 0.0 && p.minNotional > 0.0 && InWords(m, s, p)
    ensures DecidedByPolicy(Decide(rank, c, l, m, rate, StandingReasons(c, s, p)), c, l, s, p)
  {
    var standing := StandingReasons(c, s, p);
    var d := Decide(rank, c, l, m, rate, standing);
    forall reason: Reason
      ensures reason in d.reasons <==> Applies(reason, c, l, s, p)
    {
      ReasonsAreExact(c, l, s, p, m, rate, reason);
    }
    if d.reasons == {} {
      NoCapacityReason(c, l, m, rate, standing);
      LeastIsMost(c, l, s, p, m, rate, d.granted);
    }
  }

  /** The rest of a decision follows from the amount: risks and fraction in proportion, the verdict from the lane. */
  predicate InProportion(d: Decision, c: Candidate) {
    && d.id == c.id && d.requested == c.notional
    && d.grantedRisk * c.notional == d.granted * c.stopRisk
    && d.grantedEconomicRisk * c.notional == d.granted * c.economicRisk
    && d.fraction * c.notional == d.granted
    && (d.partial <==> 0.0 < d.granted < d.requested)
    && (d.verdict.AllocateSupervisedPaperAdvisory? <==> d.granted > 0.0 && c.assetClass.Crypto? && c.lane.SupervisedPaper?)
    && (d.verdict.AllocateResearchOnly? <==> d.granted > 0.0 && c.lane.ResearchOnly?)
    && (d.verdict.Rejected? <==> d.granted <= 0.0)
  }

  lemma DecisionIsInProportion(rank: nat, c: Candidate, amount: real, rate: real, binding: set<CapName>, reasons: set<Reason>)
    requires c.notional > 0.0 && rate == RiskPerNotional(c)
    ensures InProportion(DecisionOf(rank, c, amount, rate, binding, reasons), c)
  {
    AmountsInProportion(amount, c);
  }

  lemma AmountsInProportion(amount: real, c: Candidate)
    requires c.notional > 0.0
    ensures StopRisk(amount, RiskPerNotional(c)) * c.notional == amount * c.stopRisk
    ensures EconomicRisk(c, amount) * c.notional == amount * c.economicRisk
    ensures Fraction(amount, c.notional) * c.notional == amount
  {
    Proportional(amount, c.stopRisk, c.notional);
    Proportional(amount, c.economicRisk, c.notional);
  }

  lemma Proportional(amount: real, part: real, whole: real)
    requires whole > 0.0
    ensures amount * (part / whole) * whole == amount * part
  {
    assert (part / whole) * whole == part;
  }

  /** The whole request reaches this exposure limit. */
  predicate ExposureReached(name: CapName, c: Candidate, l: Ledger, s: Snapshot, p: Policy) {
    var throttle := if s.drawdownPct >= p.throttleStartPct then p.throttle else 1.0;
    match name
    case BuyingPowerAndCashReserve => l.cash <= c.notional
    case TotalGrossExposure => s.equity * p.maxGrossPct / 100.0 * throttle <= l.gross + c.notional
    case SymbolExposure => s.equity * p.maxSymbolPct / 100.0 <= Get(l.symbols, c.symbol) + c.notional
    case ClusterExposure => s.equity * p.maxClusterPct / 100.0 <= Get(l.clusters, c.cluster) + c.notional
    case AssetClassExposure =>
      if c.assetClass.Crypto? then s.equity * p.maxSleevePct.crypto / 100.0 <= l.sleeves.crypto + c.notional
      else s.equity * p.maxSleevePct.equity / 100.0 <= l.sleeves.equity + c.notional
    case _ => false
  }

  /** The stop risk of the whole request reaches this heat limit. */
  predicate HeatReached(name: CapName, c: Candidate, l: Ledger, s: Snapshot, p: Policy) {
    var throttle := if s.drawdownPct >= p.throttleStartPct then p.throttle else 1.0;
    match name
    case TotalStopHeat => s.equity * p.maxHeatPct / 100.0 * throttle <= l.heat + c.stopRisk
    case StrategyStopHeat => s.equity * p.maxStrategyHeatPct / 100.0 <= Get(l.strategyHeat, c.strategy) + c.stopRisk
    case AssetClassStopHeat =>
      if c.assetClass.Crypto? then s.equity * p.maxCryptoHeatPct / 100.0 <= l.sleeveHeat.crypto + c.stopRisk
      else s.equity * p.maxHeatPct / 100.0 <= l.sleeveHeat.equity + c.stopRisk
    case TradeStopRisk =>
      if c.assetClass.Crypto? then s.equity * p.maxTradeRiskPct.crypto / 100.0 <= c.stopRisk
      else s.equity * p.maxTradeRiskPct.equity / 100.0 <= c.stopRisk
    case ExplorationStopHeat =>
      c.strategyState.Exploration? && s.equity * p.maxExplorationHeatPct / 100.0 <= Get(l.strategyHeat, c.strategy) + c.stopRisk
    case _ => false
  }

  /** A capacity is reported as binding exactly when the whole request would reach it. */
  lemma BindingIsReached(c: Candidate, l: Ledger, s: Snapshot, p: Policy, m: Limits, rate: real, name: CapName)
    requires c.notional > 0.0 && rate > 0.0 && Times(rate, c.notional) == c.stopRisk && InWords(m, s, p)
    ensures name in Binding(c.notional, CapsOf(c, l, m, rate)) <==> ExposureReached(name, c, l, s, p) || HeatReached(name, c, l, s, p)
  {
    var caps := CapsOf(c, l, m, rate);
    BindingOfOne(caps, c.notional, name, Place(name));
    if Place(name) < 5 {
      ExposureCapReached(caps[Place(name)], c, l, s, p, m, rate);
    } else if Place(name) < |caps| {
      HeatCapReached(caps[Place(name)], c, l, s, p, m, rate);
    }
  }

  /** Where the allocator lists each capacity. */
  function Place(name: CapName): nat {
    match name
    case BuyingPowerAndCashReserve => 0
    case TotalGrossExposure => 1
    case SymbolExposure => 2
    case ClusterExposure => 3
    case AssetClassExposure => 4
    case TotalStopHeat => 5
    case StrategyStopHeat => 6
    case AssetClassStopHeat => 7
    case TradeStopRisk => 8
    case ExplorationStopHeat => 9
  }

  lemma BindingOfOne(caps: seq<Cap>, requested: real, name: CapName, k: nat)
    requires forall j :: 0 <= j < |caps| ==> (caps[j].name == name <==> j == k)
    ensures name in Binding(requested, caps) <==> k < |caps| && Limit(caps[k]) <= requested
  {
    if k < |caps| && Limit(caps[k]) <= requested {
      assert caps[k] in caps && caps[k].name == name;
    }
  }

  lemma ExposureCapReached(cap: Cap, c: Candidate, l: Ledger, s: Snapshot, p: Policy, m: Limits, rate: real)
    requires c.notional > 0.0 && ExposureInWords(m, s, p) && cap in CapsOf(c, l, m, rate) && cap.NotionalCap?
    ensures Limit(cap) <= c.notional <==> ExposureReached(cap.name, c, l, s, p)
  {
  }

  lemma HeatCapReached(cap: Cap, c: Candidate, l: Ledger, s: Snapshot, p: Policy, m: Limits, rate: real)
    requires c.notional > 0.0 && rate > 0.0 && Times(rate, c.notional) == c.stopRisk && HeatInWords(m, s, p)
    requires cap in CapsOf(c, l, m, rate) && cap.HeatCap?
    ensures Limit(cap) <= c.notional <==> HeatReached(cap.name, c, l, s, p)
  {
    HeatRoomReached(cap.room, rate, c.notional);
    RoomReached(cap, c, l, m, rate);
    HeatLimitInWords(cap.name, c, l, s, p, m);
  }

  /** HeatReached, in terms of the limits in dollars. */
  predicate HeatLimitReached(name: CapName, c: Candidate, l: Ledger, m: Limits) {
    match name
    case TotalStopHeat => m.heat <= l.heat + c.stopRisk
    case StrategyStopHeat => m.strategyHeat <= Get(l.strategyHeat, c.strategy) + c.stopRisk
    case AssetClassStopHeat => m.sleeveHeat.At(IsCrypto(c)) <= l.sleeveHeat.At(IsCrypto(c)) + c.stopRisk
    case TradeStopRisk => m.tradeRisk.At(IsCrypto(c)) <= c.stopRisk
    case ExplorationStopHeat => c.strategyState.Exploration? && m.explorationHeat <= Get(l.strategyHeat, c.strategy) + c.stopRisk
    case _ => false
  }

  lemma RoomReached(cap: Cap, c: Candidate, l: Ledger, m: Limits, rate: real)
    requires cap in CapsOf(c, l, m, rate) && cap.HeatCap?
    ensures cap.risk == rate && (cap.room <= c.stopRisk <==> HeatLimitReached(cap.name, c, l, m))
  {
  }

  lemma HeatLimitInWords(name: CapName, c: Candidate, l: Ledger, s: Snapshot, p: Policy, m: Limits)
    requires HeatInWords(m, s, p)
    ensures HeatLimitReached(name, c, l, m) <==> HeatReached(name, c, l, s, p)
  {
  }

  lemma HeatRoomReached(room: real, rate: real, requested: real)
    requires requested > 0.0 && rate > 0.0
    ensures HeatRoom(room, rate) <= requested <==> room <= Times(rate, requested)
  {
    QuotientTimes(Max(0.0, room), rate);
    assert HeatRoom(room, rate) == Quotient(Max(0.0, room), rate);
    TimesOrder(requested, HeatRoom(room, rate), rate);
    assert Times(requested, rate) == Times(rate, requested);
    SignOfProduct(requested, rate);
  }

  // ----- the ledger is the snapshot plus what was granted ------------------------------------------

  function OnSymbol(k: Symbol): Candidate -> bool { (c: Candidate) => c.symbol == k }
  function OnCluster(k: Cluster): Candidate -> bool { (c: Candidate) => c.cluster == k }
  function OnStrategy(k: Strategy): Candidate -> bool { (c: Candidate) => c.strategy == k }
  function OnSleeve(crypto: bool): Candidate -> bool { (c: Candidate) => c.assetClass.Crypto? == crypto }
  function OnAny(): Candidate -> bool { (c: Candidate) => true }

  /** What the decisions granted to candidates of this kind. */
  function Spent(order: seq<Candidate>, ds: seq<Decision>, kind: Candidate -> bool): real
    requires |order| == |ds|
  {
    if ds == [] then 0.0
    else
      var last := |ds| - 1;
      Spent(order[..last], ds[..last], kind) + if kind(order[last]) then ds[last].granted else 0.0
  }

  /** The stop risk that came with it. */
  function Risked(order: seq<Candidate>, ds: seq<Decision>, kind: Candidate -> bool): real
    requires |order| == |ds|
  {
    if ds == [] then 0.0
    else
      var last := |ds| - 1;
      Risked(order[..last], ds[..last], kind) + if kind(order[last]) then ds[last].grantedRisk else 0.0
  }

  /** Each amount on the ledger is the snapshot's, plus what was granted on its account; the cash is what is left of it. */
  ghost predicate AmountsPaid(cash: real, s: Snapshot, order: seq<Candidate>, ds: seq<Decision>, l: Ledger)
    requires |order| == |ds|
  {
    && l.cash == cash - Spent(order, ds, OnAny())
    && l.gross == s.gross + Spent(order, ds, OnAny())
    && l.sleeves.equity == s.sleeves.equity + Spent(order, ds, OnSleeve(false))
    && l.sleeves.crypto == s.sleeves.crypto + Spent(order, ds, OnSleeve(true))
    && (forall k :: Get(l.symbols, k) == Get(s.symbols, k) + Spent(order, ds, OnSymbol(k)))
    && (forall k :: Get(l.clusters, k) == Get(s.clusters, k) + Spent(order, ds, OnCluster(k)))
  }

  ghost predicate RisksPaid(s: Snapshot, order: seq<Candidate>, ds: seq<Decision>, l: Ledger)
    requires |order| == |ds|
  {
    && l.heat == s.heat + Risked(order, ds, OnAny())
    && l.sleeveHeat.equity == s.sleeveHeat.equity + Risked(order, ds, OnSleeve(false))
    && l.sleeveHeat.crypto == s.sleeveHeat.crypto + Risked(order, ds, OnSleeve(true))
    && (forall k :: Get(l.strategyHeat, k) == Get(s.strategyHeat, k) + Risked(order, ds, OnStrategy(k)))
  }

  /** One more line, granted d, adds d to the kinds it is of. */
  predicate OneMore(order: seq<Candidate>, ds: seq<Decision>, order': seq<Candidate>, ds': seq<Decision>, c: Candidate, d: Decision) {
    |order| == |ds| && |order'| == |ds'| == |ds| + 1
    && order'[..|ds|] == order && ds'[..|ds|] == ds && order'[|ds|] == c && ds'[|ds|] == d
  }

  lemma SpentGrows(order: seq<Candidate>, ds: seq<Decision>, order': seq<Candidate>, ds': seq<Decision>, c: Candidate, d: Decision, kind: Candidate -> bool)
    requires OneMore(order, ds, order', ds', c, d)
    ensures Spent(order', ds', kind) == Spent(order, ds, kind) + if kind(c) then d.granted else 0.0
    ensures Risked(order', ds', kind) == Risked(order, ds, kind) + if kind(c) then d.grantedRisk else 0.0
  {
  }

  lemma ChargePaysAmounts(cash: real, s: Snapshot, order: seq<Candidate>, ds: seq<Decision>, order': seq<Candidate>, ds': seq<Decision>, c: Candidate, d: Decision, l: Ledger)
    requires OneMore(order, ds, order', ds', c, d) && AmountsPaid(cash, s, order, ds, l) && d.granted >= 0.0
    ensures AmountsPaid(cash, s, order', ds', Charge(l, c, d.granted, d.grantedRisk))
  {
    var l' := Charge(l, c, d.granted, d.grantedRisk);
    SpentGrows(order, ds, order', ds', c, d, OnAny());
    SpentGrows(order, ds, order', ds', c, d, OnSleeve(false));
    SpentGrows(order, ds, order', ds', c, d, OnSleeve(true));
    forall k
      ensures Get(l'.symbols, k) == Get(s.symbols, k) + Spent(order', ds', OnSymbol(k))
    {
      SpentGrows(order, ds, order', ds', c, d, OnSymbol(k));
    }
    forall k
      ensures Get(l'.clusters, k) == Get(s.clusters, k) + Spent(order', ds', OnCluster(k))
    {
      SpentGrows(order, ds, order', ds', c, d, OnCluster(k));
    }
  }

  lemma ChargePaysRisks(s: Snapshot, order: seq<Candidate>, ds: seq<Decision>, order': seq<Candidate>, ds': seq<Decision>, c: Candidate, d: Decision, l: Ledger)
    requires OneMore(order, ds, order', ds', c, d) && RisksPaid(s, order, ds, l)
    requires d.granted >= 0.0 && (d.granted == 0.0 ==> d.grantedRisk == 0.0)
    ensures RisksPaid(s, order', ds', Charge(l, c, d.granted, d.grantedRisk))
  {
    var l' := Charge(l, c, d.granted, d.grantedRisk);
    SpentGrows(order, ds, order', ds', c, d, OnAny());
    SpentGrows(order, ds, order', ds', c, d, OnSleeve(false));
    SpentGrows(order, ds, order', ds', c, d, OnSleeve(true));
    forall k
      ensures Get(l'.strategyHeat, k) == Get(s.strategyHeat, k) + Risked(order', ds', OnStrategy(k))
    {
      SpentGrows(order, ds, order', ds', c, d, OnStrategy(k));
    }
  }

  // ----- the whole plan ------------------------------------------------------------------------------

  /** The lines of the loop carry these candidates, with what validation has established of them. */
  ghost predicate Prepared(lines: seq<Line>, order: seq<Candidate>, s: Snapshot, p: Policy) {
    |lines| == |order| && forall k :: 0 <= k < |lines| ==> PreparedLine(lines[k], order[k], s, p)
  }

  ghost predicate PreparedLine(e: Line, c: Candidate, s: Snapshot, p: Policy) {
    e.candidate == c && Ready(e, s) && e.risk == RiskPerNotional(c) && e.standing == StandingReasons(c, s, p)
  }

  lemma LineIsDecided(lines: seq<Line>, order: seq<Candidate>, opening: Ledger, s: Snapshot, p: Policy, m: Limits, k: nat)
    requires Prepared(lines, order, s, p) && k < |lines| && InWords(m, s, p) && p.minNotional > 0.0
    ensures order[k].notional > 0.0 && lines[k].candidate == order[k]
    ensures DecidedByPolicy(DecisionAt(lines, opening, m, k), order[k], LedgerAfter(lines[..k], opening, m), s, p)
  {
    assert PreparedLine(lines[k], order[k], s, p);
    DecisionGrantsMost(k + 1, order[k], LedgerAfter(lines[..k], opening, m), s, p, m, lines[k].risk);
  }

  lemma LineIsInProportion(lines: seq<Line>, order: seq<Candidate>, opening: Ledger, s: Snapshot, p: Policy, m: Limits, k: nat)
    requires Prepared(lines, order, s, p) && k < |lines|
    ensures lines[k].candidate.notional > 0.0
    ensures DecisionAt(lines, opening, m, k).rank == k + 1 && InProportion(DecisionAt(lines, opening, m, k), order[k])
  {
    assert PreparedLine(lines[k], order[k], s, p);
    var d := DecisionAt(lines, opening, m, k);
    DecisionIsInProportion(k + 1, order[k], d.granted, lines[k].risk, d.binding, d.reasons);
  }

  lemma LineReportsBinding(lines: seq<Line>, order: seq<Candidate>, opening: Ledger, s: Snapshot, p: Policy, m: Limits, k: nat, name: CapName)
    requires Prepared(lines, order, s, p) && k < |lines| && InWords(m, s, p)
    ensures lines[k].candidate.notional > 0.0
    ensures var c, l := order[k], LedgerAfter(lines[..k], opening, m);
      name in DecisionAt(lines, opening, m, k).binding <==> ExposureReached(name, c, l, s, p) || HeatReached(name, c, l, s, p)
  {
    assert PreparedLine(lines[k], order[k], s, p);
    RateTimesNotional(order[k]);
    BindingIsReached(order[k], LedgerAfter(lines[..k], opening, m), s, p, m, lines[k].risk, name);
  }

  lemma RateTimesNotional(c: Candidate)
    requires c.notional > 0.0
    ensures Times(RiskPerNotional(c), c.notional) == c.stopRisk
  {
  }

  lemma GrantIsNonnegative(d: Decision, c: Candidate, l: Ledger, s: Snapshot, p: Policy)
    requires c.notional > 0.0 && p.minNotional > 0.0 && DecidedByPolicy(d, c, l, s, p) && InProportion(d, c)
    ensures d.granted >= 0.0 && (d.granted == 0.0 ==> d.grantedRisk == 0.0)
  {
  }

  lemma {:induction false} LedgerIsPaid(lines: seq<Line>, order: seq<Candidate>, ds: seq<Decision>, s: Snapshot, p: Policy, m: Limits, opening: Ledger, k: nat)
    requires Prepared(lines, order, s, p) && k <= |lines| && InWords(m, s, p) && p.minNotional > 0.0 && opening == Opening(s, p)
    requires |ds| == |lines| && forall i :: 0 <= i < |lines| ==> lines[i].candidate.notional > 0.0 && ds[i] == DecisionAt(lines, opening, m, i)
    ensures AmountsPaid(opening.cash, s, order[..k], ds[..k], LedgerAfter(lines[..k], opening, m))
    ensures RisksPaid(s, order[..k], ds[..k], LedgerAfter(lines[..k], opening, m))
  {
    if k == 0 {
      NothingPaid(order, ds, s, p);
    } else {
      var n := k - 1;
      var left := LedgerAfter(lines[..n], opening, m);
      LedgerIsPaid(lines, order, ds, s, p, m, opening, n);
      LineIsDecided(lines, order, opening, s, p, m, n);
      LineIsInProportion(lines, order, opening, s, p, m, n);
      GrantIsNonnegative(ds[n], order[n], left, s, p);
      LedgerGrows(lines, opening, m, n);
      OneMoreOf(order, ds, n);
      ChargePaysAmounts(opening.cash, s, order[..n], ds[..n], order[..k], ds[..k], order[n], ds[n], left);
      ChargePaysRisks(s, order[..n], ds[..n], order[..k], ds[..k], order[n], ds[n], left);
    }
  }

  lemma NothingPaid(order: seq<Candidate>, ds: seq<Decision>, s: Snapshot, p: Policy)
    ensures AmountsPaid(Opening(s, p).cash, s, order[..0], ds[..0], Opening(s, p)) && RisksPaid(s, order[..0], ds[..0], Opening(s, p))
  {
  }

  lemma OneMoreOf(order: seq<Candidate>, ds: seq<Decision>, n: nat)
    requires n < |order| == |ds|
    ensures OneMore(order[..n], ds[..n], order[..n + 1], ds[..n + 1], order[n], ds[n])
  {
  }

  /** The candidates in the order of the plan. */
  function InRank(cs: seq<Candidate>, p: Policy): (r: seq<Candidate>)
    requires PolicyAccepted(p)
    ensures |r| == |Ranked(Scores(cs, p))| && forall k :: 0 <= k < |r| ==> r[k] == Ranked(Scores(cs, p))[k].candidate
  {
    var ranked := Ranked(Scores(cs, p));
    seq(|ranked|, k requires 0 <= k < |ranked| => ranked[k].candidate)
  }

  ghost function LinesOf(cs: seq<Candidate>, s: Snapshot, p: Policy, runId: nat): seq<Line>
    requires Accepted(cs, s, p, runId)
  {
    RankedIsSized(cs, s, p, runId);
    Lines(Ranked(Scores(cs, p)), s, p)
  }

  lemma LinesArePrepared(cs: seq<Candidate>, s: Snapshot, p: Policy, runId: nat)
    requires Accepted(cs, s, p, runId)
    ensures Prepared(LinesOf(cs, s, p, runId), InRank(cs, p), s, p)
  {
    RankedIsSized(cs, s, p, runId);
    var ranked := Ranked(Scores(cs, p));
    forall k | 0 <= k < |ranked|
      ensures PreparedLine(Lines(ranked, s, p)[k], InRank(cs, p)[k], s, p)
    {
      assert ranked[k] in ranked;
      assert RowAccepted(ranked[k].candidate, s, runId);
    }
  }

  /** The ledger that the first k candidates leave. */
  ghost function LeftBy(cs: seq<Candidate>, s: Snapshot, p: Policy, runId: nat, k: nat): Ledger
    requires Accepted(cs, s, p, runId)
  {
    var lines := LinesOf(cs, s, p, runId);
    LedgerAfter(if k <= |lines| then lines[..k] else lines, Opening(s, p), LimitsOf(s, p))
  }

  lemma PlanIsOfLines(cs: seq<Candidate>, s: Snapshot, p: Policy, runId: nat)
    requires Accepted(cs, s, p, runId)
    ensures var plan, lines := PlanOf(cs, s, p, runId), LinesOf(cs, s, p, runId);
      && |plan.decisions| == |lines| == |InRank(cs, p)|
      && (forall k :: 0 <= k < |lines| ==> lines[k].candidate.notional > 0.0 && plan.decisions[k] == DecisionAt(lines, Opening(s, p), LimitsOf(s, p), k))
      && plan.ledger == LedgerAfter(lines, Opening(s, p), LimitsOf(s, p))
  {
    RankedIsSized(cs, s, p, runId);
  }

  /** In every plan the k-th best candidate gets the most that the policy allows on what the better ones left, or nothing and
      exactly the reasons that apply. */
  lemma PlanGrantsMost(cs: seq<Candidate>, s: Snapshot, p: Policy, runId: nat, k: nat)
    requires Accepted(cs, s, p, runId) && k < |InRank(cs, p)|
    ensures |PlanOf(cs, s, p, runId).decisions| == |InRank(cs, p)| && InRank(cs, p)[k].notional > 0.0
    ensures DecidedByPolicy(PlanOf(cs, s, p, runId).decisions[k], InRank(cs, p)[k], LeftBy(cs, s, p, runId, k), s, p)
  {
    PlanIsOfLines(cs, s, p, runId);
    LinesArePrepared(cs, s, p, runId);
    LimitsInWords(s, p);
    LineIsDecided(LinesOf(cs, s, p, runId), InRank(cs, p), Opening(s, p), s, p, LimitsOf(s, p), k);
  }

  /** The k-th decision is that of the k-th best candidate, in proportion to what it is granted. */
  lemma PlanIsInProportion(cs: seq<Candidate>, s: Snapshot, p: Policy, runId: nat, k: nat)
    requires Accepted(cs, s, p, runId) && k < |InRank(cs, p)|
    ensures |PlanOf(cs, s, p, runId).decisions| == |InRank(cs, p)|
    ensures PlanOf(cs, s, p, runId).decisions[k].rank == k + 1 && InProportion(PlanOf(cs, s, p, runId).decisions[k], InRank(cs, p)[k])
  {
    PlanIsOfLines(cs, s, p, runId);
    LinesArePrepared(cs, s, p, runId);
    LineIsInProportion(LinesOf(cs, s, p, runId), InRank(cs, p), Opening(s, p), s, p, LimitsOf(s, p), k);
  }

  /** A limit is reported as binding exactly when the candidate's whole request would reach it. */
  lemma PlanReportsBindingLimits(cs: seq<Candidate>, s: Snapshot, p: Policy, runId: nat, k: nat, name: CapName)
    requires Accepted(cs, s, p, runId) && k < |InRank(cs, p)|
    ensures |PlanOf(cs, s, p, runId).decisions| == |InRank(cs, p)|
    ensures var c, l := InRank(cs, p)[k], LeftBy(cs, s, p, runId, k);
      name in PlanOf(cs, s, p, runId).decisions[k].binding <==> ExposureReached(name, c, l, s, p) || HeatReached(name, c, l, s, p)
  {
    PlanIsOfLines(cs, s, p, runId);
    LinesArePrepared(cs, s, p, runId);
    LimitsInWords(s, p);
    LineReportsBinding(LinesOf(cs, s, p, runId), InRank(cs, p), Opening(s, p), s, p, LimitsOf(s, p), k, name);
  }

  lemma CashInWords(s: Snapshot, p: Policy)
    ensures Opening(s, p).cash == Max(0.0, Min(s.buyingPower, s.cash - s.equity * p.cashReservePct / 100.0))
  {
  }

  /** What the first k candidates leave is the snapshot plus what they were granted, and the deployable cash less that; after the
      last one it is the plan's ledger. */
  lemma PlanSpendsWhatItGrants(cs: seq<Candidate>, s: Snapshot, p: Policy, runId: nat, k: nat)
    requires Accepted(cs, s, p, runId) && k <= |InRank(cs, p)|
    ensures |PlanOf(cs, s, p, runId).decisions| == |InRank(cs, p)|
    ensures var order, ds := InRank(cs, p)[..k], PlanOf(cs, s, p, runId).decisions[..k];
      && AmountsPaid(Max(0.0, Min(s.buyingPower, s.cash - s.equity * p.cashReservePct / 100.0)), s, order, ds, LeftBy(cs, s, p, runId, k))
      && RisksPaid(s, order, ds, LeftBy(cs, s, p, runId, k))
    ensures LeftBy(cs, s, p, runId, |InRank(cs, p)|) == PlanOf(cs, s, p, runId).ledger
  {
    PlanIsOfLines(cs, s, p, runId);
    LinesArePrepared(cs, s, p, runId);
    LimitsInWords(s, p);
    CashInWords(s, p);
    var lines := LinesOf(cs, s, p, runId);
    assert lines[..|lines|] == lines;
    LedgerIsPaid(lines, InRank(cs, p), PlanOf(cs, s, p, runId).decisions, s, p, LimitsOf(s, p), Opening(s, p), k);
  }

  /** The places taken are the symbols that had no exposure before. */
  lemma PlanCountsPlaces(cs: seq<Candidate>, s: Snapshot, p: Policy, runId: nat, k: nat)
    requires Accepted(cs, s, p, runId) && k <= |InRank(cs, p)|
    ensures var l := LeftBy(cs, s, p, runId, k);
      && l.planned == NonzeroKeys(l.symbols) - NonzeroKeys(s.symbols) && NonzeroKeys(s.symbols) <= NonzeroKeys(l.symbols)
      && l.positions == |NonzeroKeys(l.symbols)| == l.sleevePositions.equity + l.sleevePositions.crypto
  {
    PlanIsOfLines(cs, s, p, runId);
    LinesArePrepared(cs, s, p, runId);
    var lines := LinesOf(cs, s, p, runId);
    forall e | e in lines[..k]
      ensures Ready(e, s)
    {
      var i :| 0 <= i < k && e == lines[i];
      assert PreparedLine(lines[i], InRank(cs, p)[i], s, p);
    }
    OpeningIsSound(s, p);
    LoopKeepsLedgerSound(lines[..k], Opening(s, p), LimitsOf(s, p), s);
    var l := LeftBy(cs, s, p, runId, k);
    assert Balanced(l, s, Opening(s, p).cash);
  }

  // ----- the ceilings written in the code ---------------------------------------------------------------

  lemma PercentGrows(equity: real, pct: real, ceiling: real, throttle: real)
    requires equity > 0.0 && 0.0 <= pct <= ceiling && 0.0 <= throttle <= 1.0
    ensures equity * pct / 100.0 <= equity * ceiling / 100.0
    ensures equity * pct / 100.0 * throttle <= equity * ceiling / 100.0
  {
    assert equity * (ceiling - pct) >= 0.0;
    var limit := equity * pct / 100.0;
    assert limit >= 0.0 && limit * (1.0 - throttle) >= 0.0;
  }

  /** The limits in dollars are at most the largest percentages of equity that the code accepts. */
  predicate BelowCeilings(m: Limits, equity: real) {
    && m.gross <= equity * 50.0 / 100.0 && m.symbol <= equity * 6.0 / 100.0 && m.cluster <= equity * 15.0 / 100.0
    && m.sleeve.crypto <= equity * 5.0 / 100.0
    && m.heat <= equity * 1.75 / 100.0 && m.strategyHeat <= equity * 0.6125 / 100.0 && m.sleeveHeat.crypto <= equity * 0.20 / 100.0
    && m.positions <= 5 && m.sleevePositions.equity <= 3 && m.sleevePositions.crypto <= 2
  }

  lemma ExposureBelowCeilings(m: Limits, s: Snapshot, p: Policy, throttle: real)
    requires PolicyAccepted(p) && s.equity > 0.0 && ExposureInWords(m, s, p)
    requires throttle == if s.drawdownPct >= p.throttleStartPct then p.throttle else 1.0
    ensures m.gross <= s.equity * 50.0 / 100.0 && m.symbol <= s.equity * 6.0 / 100.0 && m.cluster <= s.equity * 15.0 / 100.0
    ensures m.sleeve.crypto <= s.equity * 5.0 / 100.0
    ensures m.positions <= 5 && m.sleevePositions.equity <= 3 && m.sleevePositions.crypto <= 2
  {
    PercentGrows(s.equity, p.maxGrossPct, 50.0, throttle);
    PercentGrows(s.equity, p.maxSymbolPct, 6.0, 1.0);
    PercentGrows(s.equity, p.maxClusterPct, 15.0, 1.0);
    PercentGrows(s.equity, p.maxSleevePct.crypto, 5.0, 1.0);
  }

  lemma HeatBelowCeilings(m: Limits, s: Snapshot, p: Policy, throttle: real)
    requires PolicyAccepted(p) && s.equity > 0.0 && HeatInWords(m, s, p)
    requires throttle == if s.drawdownPct >= p.throttleStartPct then p.throttle else 1.0
    ensures m.heat <= s.equity * 1.75 / 100.0 && m.strategyHeat <= s.equity * 0.6125 / 100.0 && m.sleeveHeat.crypto <= s.equity * 0.20 / 100.0
  {
    PercentGrows(s.equity, p.maxHeatPct, 1.75, throttle);
    PercentGrows(s.equity, p.maxStrategyHeatPct, 0.6125, 1.0);
    PercentGrows(s.equity, p.maxCryptoHeatPct, 0.20, 1.0);
  }

  /** The same bounds for what a ledger holds, unless it held it before. */
  ghost predicate UnderCodeCeilings(l: Ledger, s: Snapshot) {
    && UpTo(s.equity * 50.0 / 100.0, s.gross, l.gross)
    && (forall k :: k in l.symbols ==> UpTo(s.equity * 6.0 / 100.0, Get(s.symbols, k), l.symbols[k]))
    && (forall k :: k in l.clusters ==> UpTo(s.equity * 15.0 / 100.0, Get(s.clusters, k), l.clusters[k]))
    && UpTo(s.equity * 5.0 / 100.0, s.sleeves.crypto, l.sleeves.crypto)
    && UpTo(s.equity * 1.75 / 100.0, s.heat, l.heat)
    && (forall k :: k in l.strategyHeat ==> UpTo(s.equity * 0.6125 / 100.0, Get(s.strategyHeat, k), l.strategyHeat[k]))
    && UpTo(s.equity * 0.20 / 100.0, s.sleeveHeat.crypto, l.sleeveHeat.crypto)
    && (l.positions <= 5 || l.positions == s.positions)
    && (l.sleevePositions.equity <= 3 || l.sleevePositions.equity == s.sleevePositions.equity)
    && (l.sleevePositions.crypto <= 2 || l.sleevePositions.crypto == s.sleevePositions.crypto)
  }

  lemma StaysUnderCodeCeilings(l: Ledger, s: Snapshot, m: Limits)
    requires WithinLimits(l, s, m) && BelowCeilings(m, s.equity)
    ensures UnderCodeCeilings(l, s)
  {
    CappedIsUpTo(s.gross, l.gross, m.gross, s.equity * 50.0 / 100.0);
    KeysStay(s.symbols, l.symbols, m.symbol, s.equity * 6.0 / 100.0);
    KeysStay(s.clusters, l.clusters, m.cluster, s.equity * 15.0 / 100.0);
    CappedIsUpTo(s.heat, l.heat, m.heat, s.equity * 1.75 / 100.0);
    KeysStay(s.strategyHeat, l.strategyHeat, m.strategyHeat, s.equity * 0.6125 / 100.0);
    CappedIsUpTo(s.sleeves.At(true), l.sleeves.At(true), m.sleeve.At(true), s.equity * 5.0 / 100.0);
    CappedIsUpTo(s.sleeveHeat.At(true), l.sleeveHeat.At(true), m.sleeveHeat.At(true), s.equity * 0.20 / 100.0);
    PlacesStay(l, s, m);
  }

  lemma ReserveIsKept(l: Ledger, s: Snapshot, p: Policy)
    requires PolicyAccepted(p) && s.equity > 0.0 && CashWithinPolicy(l, s, p) && l.gross > s.gross
    ensures s.cash - (l.gross - s.gross) >= s.equity * 20.0 / 100.0
  {
    PercentGrows(s.equity, 20.0, p.cashReservePct, 1.0);
  }

  /** Whatever policy is accepted, no plan goes past the ceilings written in the code: half of equity in all, 6% in a symbol, 15% in a
      cluster, 5% in crypto, 1.75% at risk, five positions, and a fifth of equity stays in cash. */
  lemma PlanStaysUnderCodeCeilings(cs: seq<Candidate>, s: Snapshot, p: Policy, runId: nat)
    requires Accepted(cs, s, p, runId)
    ensures UnderCodeCeilings(PlanOf(cs, s, p, runId).ledger, s)
    ensures PlanOf(cs, s, p, runId).ledger.gross > s.gross ==>
      s.cash - (PlanOf(cs, s, p, runId).ledger.gross - s.gross) >= s.equity * 20.0 / 100.0
  {
    var l, m := PlanOf(cs, s, p, runId).ledger, LimitsOf(s, p);
    PlanLeavesSoundLedger(cs, s, p, runId);
    PlanStaysWithinPolicy(cs, s, p, runId);
    LimitsInWords(s, p);
    CeilingsOfCode(m, s, p);
    StaysUnderCodeCeilings(l, s, m);
    if l.gross > s.gross {
      ReserveIsKept(l, s, p);
    }
  }

  lemma CeilingsOfCode(m: Limits, s: Snapshot, p: Policy)
    requires PolicyAccepted(p) && s.equity > 0.0 && InWords(m, s, p)
    ensures BelowCeilings(m, s.equity)
  {
    var throttle := if s.drawdownPct >= p.throttleStartPct then p.throttle else 1.0;
    ExposureBelowCeilings(m, s, p, throttle);
    HeatBelowCeilings(m, s, p, throttle);
  }

  lemma NothingApplies(c: Candidate, l: Ledger, s: Snapshot, p: Policy, reason: Reason)
    requires c.notional > 0.0 && !Applies(reason, c, l, s, p)
    ensures !SystemUnfit(reason, s) && !LossHalts(reason, s, p) && !AuthorityMissing(reason, c, p) && !EconomicsTooPoor(reason, c, p)
  {
  }

  lemma FitWithoutReasons(s: Snapshot, p: Policy)
    requires PolicyAccepted(p)
    requires forall reason :: !SystemUnfit(reason, s) && !LossHalts(reason, s, p)
    ensures s.dailyLossPct < 0.75 && s.weeklyLossPct < 1.50 && s.drawdownPct < 6.0 && !s.killSwitch
    ensures s.lossEvidenceFresh && s.databaseHealthy && s.internetHealthy && s.powerHealthy && s.brokerHealthy
  {
    assert !LossHalts(DailyLossHalt, s, p) && !LossHalts(WeeklyLossHalt, s, p) && !LossHalts(DrawdownHalt, s, p);
    assert !SystemUnfit(KillSwitchActive, s) && !SystemUnfit(LossEvidenceStale, s) && !SystemUnfit(DatabaseUnhealthy, s);
    assert !SystemUnfit(InternetUnhealthy, s) && !SystemUnfit(PowerUnhealthy, s) && !SystemUnfit(BrokerUnhealthy, s);
  }

  lemma SoundWithoutReasons(c: Candidate, p: Policy)
    requires PolicyAccepted(p)
    requires forall reason :: !AuthorityMissing(reason, c, p) && !EconomicsTooPoor(reason, c, p)
    ensures c.sourceAuthoritative && c.conflictFree && c.conservativeR > 0.0 && c.costRatio <= 0.50 && c.drawdownR <= 6.0
    ensures if c.assetClass.Crypto? then c.volatility <= 1.50 && c.liquidity >= 1000.0 else c.volatility <= 0.45 && c.liquidity >= 10000000.0
  {
    assert !AuthorityMissing(SourceNotAuthoritative, c, p) && !AuthorityMissing(OrderOrPositionConflict, c, p);
    assert !EconomicsTooPoor(NonpositiveConservativeR, c, p) && !EconomicsTooPoor(CostBurdenExceedsPolicy, c, p);
    assert !EconomicsTooPoor(DrawdownRExceedsPolicy, c, p) && !EconomicsTooPoor(VolatilityExceedsPolicy, c, p) && !EconomicsTooPoor(LiquidityBelowPolicy, c, p);
  }

  /** And whatever policy is accepted, nothing is granted once losses or drawdown reach the code's halts, on an unhealthy system, or to
      a candidate beyond the code's bounds on cost, volatility, liquidity and drawdown; what is granted is at least a dollar. */
  lemma CodeHaltsStopGrants(c: Candidate, l: Ledger, s: Snapshot, p: Policy, d: Decision)
    requires PolicyAccepted(p) && c.notional > 0.0 && DecidedByPolicy(d, c, l, s, p) && d.granted > 0.0
    ensures s.dailyLossPct < 0.75 && s.weeklyLossPct < 1.50 && s.drawdownPct < 6.0 && !s.killSwitch
    ensures s.lossEvidenceFresh && s.databaseHealthy && s.internetHealthy && s.powerHealthy && s.brokerHealthy
    ensures c.sourceAuthoritative && c.conflictFree && c.conservativeR > 0.0 && c.costRatio <= 0.50 && c.drawdownR <= 6.0
    ensures if c.assetClass.Crypto? then c.volatility <= 1.50 && c.liquidity >= 1000.0 else c.volatility <= 0.45 && c.liquidity >= 10000000.0
    ensures d.granted >= 1.0
  {
    forall reason: Reason
      ensures !SystemUnfit(reason, s) && !LossHalts(reason, s, p) && !AuthorityMissing(reason, c, p) && !EconomicsTooPoor(reason, c, p)
    {
      assert reason !in d.reasons;
      NothingApplies(c, l, s, p, reason);
    }
    FitWithoutReasons(s, p);
    SoundWithoutReasons(c, p);
  }
}
