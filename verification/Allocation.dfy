/**
The greedy allocator of app/cross_asset_allocation.py, `optimize_cross_asset_allocation` (lines
1145-1463): what one decision is, what the running ledger keeps through the whole loop, and the
loop itself.
*/
module Allocation {
  import opened Sums
  import opened Quotients
  import opened AllocationModel

  // ----- why a candidate may be turned down ----------------------------------------------

  datatype Reason =
    | KillSwitchActive | LossEvidenceStale | DatabaseUnhealthy | InternetUnhealthy | PowerUnhealthy | BrokerUnhealthy
    | DailyLossHalt | WeeklyLossHalt | DrawdownHalt
    | SourceNotAuthoritative | ProfitabilityIneligible | ColdStartAuthorityInvalid | ColdStartNotionalExceedsPolicy
    | ExplorationAuthorityInvalid | ExplorationNotionalExceedsPolicy | OrderOrPositionConflict | StrategyNotAllocatable
    | NonpositiveExpectedProfit | NonpositiveExpectedR | NonpositiveConservativeR | NonpositiveMarginalContribution
    | CostBurdenExceedsPolicy | LiquidityBelowPolicy | DrawdownRExceedsPolicy | VolatilityExceedsPolicy
    | MaximumPositionsReached | MaximumSleevePositionsReached | RemainingCapacityBelowMinimum

  function When(condition: bool, reason: Reason): set<Reason> {
    if condition then {reason} else {}
  }

  function SystemReasons(s: Snapshot): set<Reason> {
    When(s.killSwitch, KillSwitchActive)
    + When(!s.lossEvidenceFresh, LossEvidenceStale)
    + When(!s.databaseHealthy, DatabaseUnhealthy)
    + When(!s.internetHealthy, InternetUnhealthy)
    + When(!s.powerHealthy, PowerUnhealthy)
    + When(!s.brokerHealthy, BrokerUnhealthy)
  }

  function LossReasons(s: Snapshot, p: Policy): set<Reason> {
    When(s.dailyLossPct >= p.dailyLossHaltPct, DailyLossHalt)
    + When(s.weeklyLossPct >= p.weeklyLossHaltPct, WeeklyLossHalt)
    + When(s.drawdownPct >= p.drawdownHaltPct, DrawdownHalt)
  }

  predicate BadDiscoveryAuthority(c: Candidate, enabled: bool) {
    !c.assetClass.Crypto? || !c.lane.SupervisedPaper? || !c.strategyState.Exploration? || !enabled
  }

  function AuthorityReasons(c: Candidate, p: Policy): set<Reason> {
    var coldStart := c.sourceType.ColdStartDiscovery?;
    When(!c.sourceAuthoritative, SourceNotAuthoritative)
    + When(!c.profitabilityEligible && !c.explorationEligible && !coldStart, ProfitabilityIneligible)
    + When(coldStart && BadDiscoveryAuthority(c, p.coldStartEnabled), ColdStartAuthorityInvalid)
    + When(coldStart && c.notional > p.coldStartMaxNotional, ColdStartNotionalExceedsPolicy)
    + When(c.explorationEligible && BadDiscoveryAuthority(c, p.explorationEnabled), ExplorationAuthorityInvalid)
    + When(c.explorationEligible && c.notional > p.explorationMaxNotional, ExplorationNotionalExceedsPolicy)
    + When(!c.conflictFree, OrderOrPositionConflict)
    + When(c.strategyState.OtherState?, StrategyNotAllocatable)
  }

  function EconomicReasons(c: Candidate, p: Policy): set<Reason> {
    When(c.expectedProfit <= 0.0, NonpositiveExpectedProfit)
    + When(c.expectedR <= 0.0, NonpositiveExpectedR)
    + When(c.conservativeR <= 0.0, NonpositiveConservativeR)
    + When(c.marginalR <= 0.0, NonpositiveMarginalContribution)
    + When(c.costRatio > p.maxCostRatio, CostBurdenExceedsPolicy)
    + When(c.liquidity < p.minLiquidity.At(IsCrypto(c)), LiquidityBelowPolicy)
    + When(c.drawdownR > p.maxDrawdownR, DrawdownRExceedsPolicy)
    + When(c.volatility > p.maxVolatility.At(IsCrypto(c)), VolatilityExceedsPolicy)
  }

  /** The reasons that do not depend on what the loop has spent. */
  function StandingReasons(c: Candidate, s: Snapshot, p: Policy): set<Reason> {
    (SystemReasons(s) + LossReasons(s, p)) + (AuthorityReasons(c, p) + EconomicReasons(c, p))
  }

  // ----- the ledger -------------------------------------------------------------------------

  /** The capacities that the loop consumes. */
  datatype Ledger = Ledger(
    cash: real,
    gross: real,
    heat: real,
    positions: nat,
    sleevePositions: BySleeve<nat>,
    symbols: map<Symbol, real>,
    clusters: map<Cluster, real>,
    sleeves: BySleeve<real>,
    sleeveHeat: BySleeve<real>,
    strategyHeat: map<Strategy, real>,
    planned: set<Symbol>)

  /** The limits, in dollars, that policy and equity set. */
  datatype Limits = Limits(
    gross: real,
    heat: real,
    symbol: real,
    cluster: real,
    sleeve: BySleeve<real>,
    sleeveHeat: BySleeve<real>,
    strategyHeat: real,
    explorationHeat: real,
    tradeRisk: BySleeve<real>,
    minNotional: real,
    positions: nat,
    sleevePositions: BySleeve<nat>)

  function Throttle(s: Snapshot, p: Policy): real {
    if s.drawdownPct >= p.throttleStartPct then p.throttle else 1.0
  }

  function LimitsOf(s: Snapshot, p: Policy): Limits {
    Limits(PctOf(s.equity, p.maxGrossPct) * Throttle(s, p),
           PctOf(s.equity, p.maxHeatPct) * Throttle(s, p),
           PctOf(s.equity, p.maxSymbolPct),
           PctOf(s.equity, p.maxClusterPct),
           BySleeve(PctOf(s.equity, p.maxSleevePct.equity), PctOf(s.equity, p.maxSleevePct.crypto)),
           BySleeve(PctOf(s.equity, p.maxHeatPct), PctOf(s.equity, p.maxCryptoHeatPct)),
           PctOf(s.equity, p.maxStrategyHeatPct),
           PctOf(s.equity, p.maxExplorationHeatPct),
           BySleeve(PctOf(s.equity, p.maxTradeRiskPct.equity), PctOf(s.equity, p.maxTradeRiskPct.crypto)),
           p.minNotional, p.maxPositions, p.maxSleevePositions)
  }

  function Opening(s: Snapshot, p: Policy): Ledger {
    Ledger(Max(0.0, Min(s.buyingPower, s.cash - PctOf(s.equity, p.cashReservePct))), s.gross, s.heat, s.positions,
           s.sleevePositions, s.symbols, s.clusters, s.sleeves, s.sleeveHeat, s.strategyHeat, {})
  }

  datatype CapName =
    | BuyingPowerAndCashReserve | TotalGrossExposure | SymbolExposure | ClusterExposure | AssetClassExposure
    | TotalStopHeat | StrategyStopHeat | AssetClassStopHeat | TradeStopRisk | ExplorationStopHeat

  /** A capacity in notional, or a heat allowance to be converted at `risk` per dollar. */
  datatype Cap = NotionalCap(name: CapName, room: real) | HeatCap(name: CapName, room: real, risk: real)

  function RiskPerNotional(c: Candidate): real
    requires c.notional > 0.0
  {
    c.stopRisk / c.notional
  }

  function EconomicRisk(c: Candidate, amount: real): real
    requires c.notional > 0.0
  {
    amount * (c.economicRisk / c.notional)
  }

  function Fraction(amount: real, requested: real): real
    requires requested > 0.0
  {
    amount / requested
  }

  function StopRisk(amount: real, riskPerNotional: real): real {
    amount * riskPerNotional
  }

  /** The notional that a heat allowance pays for. */
  function HeatRoom(room: real, riskPerNotional: real): real {
    if riskPerNotional > 0.0 then Max(0.0, room) / riskPerNotional else 0.0
  }

  function Limit(cap: Cap): real {
    if cap.HeatCap? then HeatRoom(cap.room, cap.risk) else cap.room
  }

  /** `risk` is the stop risk of one dollar of notional. */
  function CapsOf(c: Candidate, l: Ledger, m: Limits, risk: real): seq<Cap> {
    var crypto := IsCrypto(c);
    [ NotionalCap(BuyingPowerAndCashReserve, l.cash),
      NotionalCap(TotalGrossExposure, Max(0.0, m.gross - l.gross)),
      NotionalCap(SymbolExposure, Max(0.0, m.symbol - Get(l.symbols, c.symbol))),
      NotionalCap(ClusterExposure, Max(0.0, m.cluster - Get(l.clusters, c.cluster))),
      NotionalCap(AssetClassExposure, Max(0.0, m.sleeve.At(crypto) - l.sleeves.At(crypto))),
      HeatCap(TotalStopHeat, m.heat - l.heat, risk),
      HeatCap(StrategyStopHeat, m.strategyHeat - Get(l.strategyHeat, c.strategy), risk),
      HeatCap(AssetClassStopHeat, m.sleeveHeat.At(crypto) - l.sleeveHeat.At(crypto), risk),
      HeatCap(TradeStopRisk, m.tradeRisk.At(crypto), risk) ]
    + if c.strategyState.Exploration? && risk > 0.0 then
        [HeatCap(ExplorationStopHeat, m.explorationHeat - Get(l.strategyHeat, c.strategy), risk)]
      else []
  }

  function Least(requested: real, caps: seq<Cap>): (r: real)
    ensures r <= requested && forall k :: 0 <= k < |caps| ==> r <= Limit(caps[k])
    ensures r == requested || exists k :: 0 <= k < |caps| && r == Limit(caps[k])
  {
    if caps == [] then requested
    else
      var rest := Least(requested, caps[..|caps| - 1]);
      var last := |caps| - 1;
      assert forall k :: 0 <= k < last ==> caps[..last][k] == caps[k];
      if Limit(caps[last]) < rest then Limit(caps[last]) else rest
  }

  predicate CreatesPosition(c: Candidate, l: Ledger) {
    !c.held && c.symbol !in l.planned
  }

  function CapacityReasons(c: Candidate, l: Ledger, m: Limits, risk: real): set<Reason> {
    When(CreatesPosition(c, l) && l.positions >= m.positions, MaximumPositionsReached)
    + When(CreatesPosition(c, l) && l.sleevePositions.At(IsCrypto(c)) >= m.sleevePositions.At(IsCrypto(c)),
           MaximumSleevePositionsReached)
    + When(Least(c.notional, CapsOf(c, l, m, risk)) < m.minNotional, RemainingCapacityBelowMinimum)
  }

  /** What c gets, when `standing` already speaks against it or not. */
  function Granted(c: Candidate, l: Ledger, m: Limits, risk: real, standing: set<Reason>): real {
    if standing + CapacityReasons(c, l, m, risk) == {} then Least(c.notional, CapsOf(c, l, m, risk)) else 0.0
  }

  /** The ledger after `amount`, at stop risk `risk`, has been granted to c. */
  function Charge(l: Ledger, c: Candidate, amount: real, risk: real): Ledger {
    if amount > 0.0 then
      var crypto := IsCrypto(c);
      var charged := l.(cash := l.cash - amount,
                        gross := l.gross + amount,
                        heat := l.heat + risk,
                        symbols := Add(l.symbols, c.symbol, amount),
                        clusters := Add(l.clusters, c.cluster, amount),
                        sleeves := l.sleeves.With(crypto, l.sleeves.At(crypto) + amount),
                        sleeveHeat := l.sleeveHeat.With(crypto, l.sleeveHeat.At(crypto) + risk),
                        strategyHeat := Add(l.strategyHeat, c.strategy, risk));
      if CreatesPosition(c, l) then
        charged.(positions := l.positions + 1,
                 sleevePositions := l.sleevePositions.With(crypto, l.sleevePositions.At(crypto) + 1),
                 planned := l.planned + {c.symbol})
      else charged
    else l
  }

  datatype Verdict = Rejected | AllocateSupervisedPaperAdvisory | AllocateResearchOnly | AllocateAdvisory

  datatype Decision = Decision(
    rank: nat,
    id: CandidateId,
    verdict: Verdict,
    partial: bool,
    requested: real,
    granted: real,
    grantedRisk: real,
    grantedEconomicRisk: real,
    fraction: real,
    binding: set<CapName>,
    reasons: set<Reason>)

  function VerdictFor(c: Candidate, amount: real): Verdict {
    if amount <= 0.0 then Rejected
    else if c.assetClass.Crypto? && c.lane.SupervisedPaper? then AllocateSupervisedPaperAdvisory
    else if c.lane.ResearchOnly? then AllocateResearchOnly
    else AllocateAdvisory
  }

  /** The capacities that the whole request would use up. */
  function Binding(requested: real, caps: seq<Cap>): set<CapName> {
    set cap | cap in caps && Limit(cap) <= requested :: cap.name
  }

  /** The decision that grants `amount`, at stop risk `risk` per dollar. */
  function DecisionOf(rank: nat, c: Candidate, amount: real, risk: real, binding: set<CapName>, reasons: set<Reason>): Decision
    requires c.notional > 0.0
  {
    Decision(rank, c.id, VerdictFor(c, amount), 0.0 < amount < c.notional,
             c.notional, amount, StopRisk(amount, risk), EconomicRisk(c, amount), Fraction(amount, c.notional), binding, reasons)
  }

  function Decide(rank: nat, c: Candidate, l: Ledger, m: Limits, risk: real, standing: set<Reason>): Decision
    requires c.notional > 0.0
  {
    DecisionOf(rank, c, Granted(c, l, m, risk, standing), risk, Binding(c.notional, CapsOf(c, l, m, risk)),
               standing + CapacityReasons(c, l, m, risk))
  }

  // ----- one decision ------------------------------------------------------------------------

  /** A candidate gets exactly the least of its request and the capacities left, or nothing; it
      gets nothing exactly when there is a reason; and what it gets is worth executing. */
  lemma DecisionIsExact(rank: nat, c: Candidate, l: Ledger, m: Limits, risk: real, standing: set<Reason>)
    requires c.notional > 0.0 && m.minNotional > 0.0
    ensures var d := Decide(rank, c, l, m, risk, standing);
      && (d.granted == 0.0 || d.granted == Least(c.notional, CapsOf(c, l, m, risk)))
      && (d.granted == 0.0 <==> d.reasons != {})
      && (d.granted != 0.0 ==> m.minNotional <= d.granted <= c.notional && 0.0 < d.fraction <= 1.0)
      && (d.verdict.Rejected? <==> d.reasons != {})
      && (d.partial ==> d.binding != {})
  {
    var caps := CapsOf(c, l, m, risk);
    var least := Least(c.notional, caps);
    if least < c.notional {
      var k :| 0 <= k < |caps| && least == Limit(caps[k]);
      assert caps[k] in caps;
      assert caps[k].name in Decide(rank, c, l, m, risk, standing).binding;
    }
    if RemainingCapacityBelowMinimum !in CapacityReasons(c, l, m, risk) {
      FractionWithin(least, c.notional);
    } else {
      assert RemainingCapacityBelowMinimum in standing + CapacityReasons(c, l, m, risk);
    }
  }

  lemma FractionWithin(amount: real, requested: real)
    requires 0.0 < requested
    ensures amount <= requested ==> Fraction(amount, requested) <= 1.0
    ensures 0.0 < amount ==> 0.0 < Fraction(amount, requested)
  {
    assert Fraction(amount, requested) * requested == amount;
    SignOfProduct(1.0 - Fraction(amount, requested), requested);
    SignOfProduct(Fraction(amount, requested), requested);
  }

  // ----- what the ledger keeps -----------------------------------------------------------------

  /** The books balance: money spent is exposure added, every breakdown sums to its total, and
      the position counts are those of the symbols held or planned. */
  ghost predicate Balanced(l: Ledger, s: Snapshot, openingCash: real) {
    && l.cash + (l.gross - s.gross) == openingCash
    && Reconciles(l.positions, l.sleevePositions, l.gross, l.heat, l.symbols, l.clusters, l.sleeves, l.sleeveHeat, l.strategyHeat)
    && NonzeroKeys(l.symbols) == NonzeroKeys(s.symbols) + l.planned
    && NonzeroKeys(s.symbols) !! l.planned
    && Nonnegative(l.symbols)
  }

  /** Room used up to a limit, or not used at all where the limit was already passed. */
  predicate Capped(before: real, after: real, limit: real) {
    before <= after <= Max(before, limit)
  }

  /** No capacity is overdrawn: each stays within its limit, or where it already was beyond. */
  ghost predicate WithinLimits(l: Ledger, s: Snapshot, m: Limits) {
    && l.cash >= 0.0
    && Capped(s.gross, l.gross, m.gross)
    && Capped(s.heat, l.heat, m.heat)
    && (forall k :: k in l.symbols ==> Capped(Get(s.symbols, k), l.symbols[k], m.symbol))
    && (forall k :: k in l.clusters ==> Capped(Get(s.clusters, k), l.clusters[k], m.cluster))
    && (forall k :: k in l.strategyHeat ==> Capped(Get(s.strategyHeat, k), l.strategyHeat[k], m.strategyHeat))
    && (forall b :: Capped(s.sleeves.At(b), l.sleeves.At(b), m.sleeve.At(b)))
    && (forall b :: Capped(s.sleeveHeat.At(b), l.sleeveHeat.At(b), m.sleeveHeat.At(b)))
    && (l.positions == s.positions || l.positions <= m.positions)
    && (forall b :: l.sleevePositions.At(b) == s.sleevePositions.At(b) || l.sleevePositions.At(b) <= m.sleevePositions.At(b))
    && l.symbols.Keys >= s.symbols.Keys && l.clusters.Keys >= s.clusters.Keys && l.strategyHeat.Keys >= s.strategyHeat.Keys
  }

  lemma OpeningIsSound(s: Snapshot, p: Policy)
    requires SnapshotAccepted(s)
    ensures Balanced(Opening(s, p), s, Opening(s, p).cash) && WithinLimits(Opening(s, p), s, LimitsOf(s, p))
  {
  }

  /** Granting any positive amount keeps the books balanced. */
  lemma ChargeKeepsBalance(l: Ledger, c: Candidate, amount: real, risk: real, s: Snapshot, openingCash: real)
    requires Balanced(l, s, openingCash) && amount > 0.0
    requires c.held <==> c.symbol in NonzeroKeys(s.symbols)
    ensures Balanced(Charge(l, c, amount, risk), s, openingCash)
  {
    ChargeMovesTotals(l, c, amount, risk);
    ChargeTouchesSymbol(l, c, amount, risk, s, openingCash);
  }

  lemma ChargeMovesTotals(l: Ledger, c: Candidate, amount: real, risk: real)
    requires amount > 0.0
    ensures var l' := Charge(l, c, amount, risk);
      && l'.cash == l.cash - amount && l'.gross == l.gross + amount && l'.heat == l.heat + risk
      && Total(l'.symbols) == Total(l.symbols) + amount && Total(l'.clusters) == Total(l.clusters) + amount
      && Total(l'.strategyHeat) == Total(l.strategyHeat) + risk
      && l'.sleeves.equity + l'.sleeves.crypto == l.sleeves.equity + l.sleeves.crypto + amount
      && l'.sleeveHeat.equity + l'.sleeveHeat.crypto == l.sleeveHeat.equity + l.sleeveHeat.crypto + risk
      && l'.positions - l'.sleevePositions.equity - l'.sleevePositions.crypto == l.positions - l.sleevePositions.equity - l.sleevePositions.crypto
      && (Nonnegative(l.symbols) ==> Nonnegative(l'.symbols))
  {
    TotalAdd(l.symbols, c.symbol, amount);
    TotalAdd(l.clusters, c.cluster, amount);
    TotalAdd(l.strategyHeat, c.strategy, risk);
  }

  lemma ChargeTouchesSymbol(l: Ledger, c: Candidate, amount: real, risk: real, s: Snapshot, openingCash: real)
    requires Balanced(l, s, openingCash) && amount > 0.0
    requires c.held <==> c.symbol in NonzeroKeys(s.symbols)
    ensures var l' := Charge(l, c, amount, risk);
      && NonzeroKeys(l'.symbols) == NonzeroKeys(s.symbols) + l'.planned
      && NonzeroKeys(s.symbols) !! l'.planned
      && |NonzeroKeys(l'.symbols)| == l'.positions
  {
    SymbolTouched(l.symbols, NonzeroKeys(s.symbols), l.planned, c.symbol, amount);
  }

  /** Charging a symbol exposes it; it is a new position unless it was exposed before. */
  lemma SymbolTouched(symbols: map<Symbol, real>, start: set<Symbol>, planned: set<Symbol>, k: Symbol, amount: real)
    requires Nonnegative(symbols) && amount > 0.0 && NonzeroKeys(symbols) == start + planned && start !! planned
    ensures var exposed := NonzeroKeys(Add(symbols, k, amount));
      if k in start || k in planned then exposed == start + planned && |exposed| == |NonzeroKeys(symbols)|
      else exposed == start + (planned + {k}) && start !! (planned + {k}) && |exposed| == |NonzeroKeys(symbols)| + 1
  {
    AddMakesNonzero(symbols, k, amount);
    AddElement(NonzeroKeys(symbols), k);
  }

  lemma AddMakesNonzero(m: map<Symbol, real>, k: Symbol, v: real)
    requires Nonnegative(m) && v > 0.0
    ensures NonzeroKeys(Add(m, k, v)) == NonzeroKeys(m) + {k}
  {
  }

  lemma AddElement(keys: set<Symbol>, k: Symbol)
    ensures |keys + {k}| == |keys| + if k in keys then 0 else 1
    ensures k in keys ==> keys + {k} == keys
  {
    if k in keys {
      assert keys + {k} == keys;
    }
  }

  /** A heat allowance pays for exactly the amounts that cost no more heat than the allowance. */
  lemma HeatRoomIsExact(amount: real, room: real, risk: real)
    requires risk > 0.0 && 0.0 < amount
    ensures amount <= HeatRoom(room, risk) <==> StopRisk(amount, risk) <= room
  {
    var most := HeatRoom(room, risk);
    assert Times(most, risk) == Max(0.0, room) && StopRisk(amount, risk) == Times(amount, risk);
    TimesOrder(most, amount, risk);
    SignOfProduct(amount, risk);
  }

  /** An amount and its risk fit into every room that c draws on. */
  ghost predicate Fits(amount: real, risk: real, c: Candidate, l: Ledger, m: Limits) {
    0.0 < amount && 0.0 < risk && FitsNotional(amount, c, l, m) && FitsHeat(risk, c, l, m) && HasPlace(c, l, m)
  }

  /** The part of Fits that is about notional. */
  ghost predicate FitsNotional(amount: real, c: Candidate, l: Ledger, m: Limits) {
    && amount <= l.cash
    && amount <= Max(0.0, m.gross - l.gross)
    && amount <= Max(0.0, m.symbol - Get(l.symbols, c.symbol))
    && amount <= Max(0.0, m.cluster - Get(l.clusters, c.cluster))
    && amount <= Max(0.0, m.sleeve.At(IsCrypto(c)) - l.sleeves.At(IsCrypto(c)))
  }

  /** The part of Fits that is about stop risk. */
  ghost predicate FitsHeat(risk: real, c: Candidate, l: Ledger, m: Limits) {
    && risk <= m.heat - l.heat
    && risk <= m.strategyHeat - Get(l.strategyHeat, c.strategy)
    && risk <= m.sleeveHeat.At(IsCrypto(c)) - l.sleeveHeat.At(IsCrypto(c))
    && risk <= m.tradeRisk.At(IsCrypto(c))
    && (c.strategyState.Exploration? ==> risk <= m.explorationHeat - Get(l.strategyHeat, c.strategy))
  }

  ghost predicate HasPlace(c: Candidate, l: Ledger, m: Limits) {
    CreatesPosition(c, l) ==> l.positions < m.positions && l.sleevePositions.At(IsCrypto(c)) < m.sleevePositions.At(IsCrypto(c))
  }

  ghost predicate FitsHeatRooms(amount: real, c: Candidate, l: Ledger, m: Limits, risk: real) {
    && amount <= HeatRoom(m.heat - l.heat, risk)
    && amount <= HeatRoom(m.strategyHeat - Get(l.strategyHeat, c.strategy), risk)
    && amount <= HeatRoom(m.sleeveHeat.At(IsCrypto(c)) - l.sleeveHeat.At(IsCrypto(c)), risk)
    && amount <= HeatRoom(m.tradeRisk.At(IsCrypto(c)), risk)
    && (c.strategyState.Exploration? ==> amount <= HeatRoom(m.explorationHeat - Get(l.strategyHeat, c.strategy), risk))
  }

  lemma WithinCapsIffRooms(amount: real, c: Candidate, l: Ledger, m: Limits, risk: real)
    requires risk > 0.0
    ensures amount <= Least(c.notional, CapsOf(c, l, m, risk)) <==>
      amount <= c.notional && FitsNotional(amount, c, l, m) && FitsHeatRooms(amount, c, l, m, risk)
  {
    var caps := CapsOf(c, l, m, risk);
    var least := Least(c.notional, caps);
    assert least <= Limit(caps[0]) && least <= Limit(caps[1]) && least <= Limit(caps[2]) && least <= Limit(caps[3]) && least <= Limit(caps[4]);
    assert least <= Limit(caps[5]) && least <= Limit(caps[6]) && least <= Limit(caps[7]) && least <= Limit(caps[8]);
    if c.strategyState.Exploration? {
      assert least <= Limit(caps[9]);
    }
  }

  lemma HeatRoomsAreExact(amount: real, c: Candidate, l: Ledger, m: Limits, risk: real)
    requires amount > 0.0 && risk > 0.0
    ensures FitsHeatRooms(amount, c, l, m, risk) <==> FitsHeat(StopRisk(amount, risk), c, l, m)
  {
    HeatRoomIsExact(amount, m.heat - l.heat, risk);
    HeatRoomIsExact(amount, m.strategyHeat - Get(l.strategyHeat, c.strategy), risk);
    HeatRoomIsExact(amount, m.sleeveHeat.At(IsCrypto(c)) - l.sleeveHeat.At(IsCrypto(c)), risk);
    HeatRoomIsExact(amount, m.tradeRisk.At(IsCrypto(c)), risk);
    HeatRoomIsExact(amount, m.explorationHeat - Get(l.strategyHeat, c.strategy), risk);
  }

  /** The least of request and capacities admits exactly the amounts that fit all of them. */
  lemma WithinLeastIffFits(amount: real, c: Candidate, l: Ledger, m: Limits, risk: real)
    requires amount > 0.0 && risk > 0.0
    ensures amount <= Least(c.notional, CapsOf(c, l, m, risk)) <==>
      amount <= c.notional && FitsNotional(amount, c, l, m) && FitsHeat(StopRisk(amount, risk), c, l, m)
  {
    WithinCapsIffRooms(amount, c, l, m, risk);
    HeatRoomsAreExact(amount, c, l, m, risk);
  }

  /** What is granted fits: the capacities really are capacities. */
  lemma GrantFits(c: Candidate, l: Ledger, m: Limits, risk: real, standing: set<Reason>, amount: real)
    requires risk > 0.0 && m.minNotional > 0.0 && standing + CapacityReasons(c, l, m, risk) == {}
    requires amount == Granted(c, l, m, risk, standing)
    ensures Fits(amount, StopRisk(amount, risk), c, l, m)
  {
    NoCapacityReason(c, l, m, risk, standing);
    LeastFits(c, l, m, risk, amount);
  }

  lemma LeastFits(c: Candidate, l: Ledger, m: Limits, risk: real, amount: real)
    requires risk > 0.0 && amount > 0.0 && amount == Least(c.notional, CapsOf(c, l, m, risk)) && HasPlace(c, l, m)
    ensures Fits(amount, StopRisk(amount, risk), c, l, m)
  {
    WithinLeastIffFits(amount, c, l, m, risk);
    SignOfProduct(amount, risk);
  }

  lemma NoCapacityReason(c: Candidate, l: Ledger, m: Limits, risk: real, standing: set<Reason>)
    requires standing + CapacityReasons(c, l, m, risk) == {}
    ensures Granted(c, l, m, risk, standing) == Least(c.notional, CapsOf(c, l, m, risk)) >= m.minNotional
    ensures HasPlace(c, l, m)
  {
    var reasons := standing + CapacityReasons(c, l, m, risk);
    assert RemainingCapacityBelowMinimum !in reasons && MaximumPositionsReached !in reasons && MaximumSleevePositionsReached !in reasons;
  }

  lemma AddStaysCapped<K(!new)>(before: map<K, real>, m: map<K, real>, k: K, v: real, limit: real)
    requires before.Keys <= m.Keys && (forall j :: j in m ==> Capped(Get(before, j), m[j], limit))
    requires 0.0 < v <= limit - Get(m, k)
    requires k !in m ==> Get(m, k) == 0.0
    ensures before.Keys <= Add(m, k, v).Keys
    ensures forall j :: j in Add(m, k, v) ==> Capped(Get(before, j), Add(m, k, v)[j], limit)
  {
  }

  lemma ChargeStaysWithinLimits(l: Ledger, c: Candidate, amount: real, risk: real, s: Snapshot, m: Limits)
    requires WithinLimits(l, s, m) && Fits(amount, risk, c, l, m)
    ensures WithinLimits(Charge(l, c, amount, risk), s, m)
  {
    AddStaysCapped(s.symbols, l.symbols, c.symbol, amount, m.symbol);
    AddStaysCapped(s.clusters, l.clusters, c.cluster, amount, m.cluster);
    AddStaysCapped(s.strategyHeat, l.strategyHeat, c.strategy, risk, m.strategyHeat);
  }

  // ----- the loop -------------------------------------------------------------------------------

  /** One ranked candidate, with what about it does not depend on the ledger. */
  datatype Line = Line(candidate: Candidate, risk: real, standing: set<Reason>)

  function LineOf(c: Candidate, s: Snapshot, p: Policy): Line
    requires c.notional > 0.0
  {
    Line(c, RiskPerNotional(c), StandingReasons(c, s, p))
  }

  /** What one candidate was given: an amount (zero for a rejection) and its stop risk. */
  datatype Posting = Posting(candidate: Candidate, amount: real, risk: real)

  function Settled(postings: seq<Posting>, opening: Ledger): Ledger {
    if postings == [] then opening
    else
      var last := postings[|postings| - 1];
      Charge(Settled(postings[..|postings| - 1], opening), last.candidate, last.amount, last.risk)
  }

  function PostingFor(e: Line, l: Ledger, m: Limits): Posting {
    var amount := Granted(e.candidate, l, m, e.risk, e.standing);
    Posting(e.candidate, amount, StopRisk(amount, e.risk))
  }

  /** The loop: each candidate in turn gets what the ledger of those before it leaves. */
  function Postings(lines: seq<Line>, opening: Ledger, m: Limits): (r: seq<Posting>)
    ensures |r| == |lines|
  {
    if lines == [] then []
    else
      var front := Postings(lines[..|lines| - 1], opening, m);
      front + [PostingFor(lines[|lines| - 1], Settled(front, opening), m)]
  }

  function LedgerAfter(lines: seq<Line>, opening: Ledger, m: Limits): Ledger {
    Settled(Postings(lines, opening, m), opening)
  }

  function DecisionAt(lines: seq<Line>, opening: Ledger, m: Limits, k: nat): Decision
    requires k < |lines| && lines[k].candidate.notional > 0.0
  {
    Decide(k + 1, lines[k].candidate, LedgerAfter(lines[..k], opening, m), m, lines[k].risk, lines[k].standing)
  }

  function DecisionsFor(lines: seq<Line>, opening: Ledger, m: Limits): (r: seq<Decision>)
    requires forall k :: 0 <= k < |lines| ==> lines[k].candidate.notional > 0.0
    ensures |r| == |lines|
    ensures forall k :: 0 <= k < |lines| ==> r[k] == DecisionAt(lines, opening, m, k)
  {
    seq(|lines|, k requires 0 <= k < |lines| => DecisionAt(lines, opening, m, k))
  }

  /** What validation has established of a ranked candidate before the loop starts. */
  predicate Ready(e: Line, s: Snapshot) {
    && e.candidate.notional > 0.0 && e.risk > 0.0
    && (e.candidate.held <==> e.candidate.symbol in NonzeroKeys(s.symbols))
  }

  // ----- what every run of the loop keeps -------------------------------------------------------

  ghost predicate Fitting(t: Posting, l: Ledger, m: Limits) {
    t.amount > 0.0 ==> Fits(t.amount, t.risk, t.candidate, l, m)
  }

  lemma GrantIsFitting(e: Line, l: Ledger, m: Limits)
    requires e.risk > 0.0 && m.minNotional > 0.0
    ensures Fitting(PostingFor(e, l, m), l, m)
  {
    var t := PostingFor(e, l, m);
    if t.amount > 0.0 {
      GrantFits(e.candidate, l, m, e.risk, e.standing, t.amount);
      assert t.risk == StopRisk(t.amount, e.risk) && t.candidate == e.candidate;
      assert Fits(t.amount, t.risk, t.candidate, l, m);
    }
  }

  lemma {:induction false} EveryPostingFits(lines: seq<Line>, opening: Ledger, m: Limits, k: nat)
    requires k < |lines| && m.minNotional > 0.0 && forall e :: e in lines ==> e.risk > 0.0
    ensures var postings := Postings(lines, opening, m);
      postings[k].candidate == lines[k].candidate && Fitting(postings[k], Settled(postings[..k], opening), m)
  {
    var front := Postings(lines[..|lines| - 1], opening, m);
    var postings := Postings(lines, opening, m);
    if k == |lines| - 1 {
      assert postings[..k] == front;
      GrantIsFitting(lines[k], Settled(front, opening), m);
    } else {
      assert postings[..k] == front[..k];
      EveryPostingFits(lines[..|lines| - 1], opening, m, k);
    }
  }

  ghost predicate Sound(l: Ledger, s: Snapshot, m: Limits, openingCash: real) {
    Balanced(l, s, openingCash) && WithinLimits(l, s, m)
  }

  lemma PostingKeepsSound(l: Ledger, t: Posting, s: Snapshot, m: Limits, openingCash: real)
    requires Sound(l, s, m, openingCash) && Fitting(t, l, m)
    requires t.candidate.held <==> t.candidate.symbol in NonzeroKeys(s.symbols)
    ensures Sound(Charge(l, t.candidate, t.amount, t.risk), s, m, openingCash)
  {
    if t.amount > 0.0 {
      ChargeKeepsBalance(l, t.candidate, t.amount, t.risk, s, openingCash);
      ChargeStaysWithinLimits(l, t.candidate, t.amount, t.risk, s, m);
    }
  }

  /** Each posting fits the ledger that those before it leave, and says rightly whether its symbol was held. */
  ghost predicate AllFitting(postings: seq<Posting>, opening: Ledger, m: Limits, s: Snapshot) {
    forall k :: 0 <= k < |postings| ==>
      && Fitting(postings[k], Settled(postings[..k], opening), m)
      && (postings[k].candidate.held <==> postings[k].candidate.symbol in NonzeroKeys(s.symbols))
  }

  lemma FrontFits(postings: seq<Posting>, opening: Ledger, m: Limits, s: Snapshot, last: nat)
    requires AllFitting(postings, opening, m, s) && last + 1 == |postings|
    ensures AllFitting(postings[..last], opening, m, s)
    ensures Fitting(postings[last], Settled(postings[..last], opening), m)
    ensures postings[last].candidate.held <==> postings[last].candidate.symbol in NonzeroKeys(s.symbols)
  {
    forall k | 0 <= k < last
      ensures Fitting(postings[..last][k], Settled(postings[..last][..k], opening), m)
      ensures postings[..last][k].candidate.held <==> postings[..last][k].candidate.symbol in NonzeroKeys(s.symbols)
    {
      assert postings[..last][..k] == postings[..k] && postings[..last][k] == postings[k];
    }
  }

  lemma {:induction false} SettledIsSound(postings: seq<Posting>, opening: Ledger, s: Snapshot, m: Limits)
    requires Sound(opening, s, m, opening.cash) && AllFitting(postings, opening, m, s)
    ensures Sound(Settled(postings, opening), s, m, opening.cash)
  {
    if postings != [] {
      var last := |postings| - 1;
      FrontFits(postings, opening, m, s, last);
      SettledIsSound(postings[..last], opening, s, m);
      PostingKeepsSound(Settled(postings[..last], opening), postings[last], s, m, opening.cash);
    }
  }

  /** After every candidate of every ranked list the books balance and no capacity is
      overdrawn; so the state after the loop would itself reconcile as a snapshot. */
  lemma LoopKeepsLedgerSound(lines: seq<Line>, opening: Ledger, m: Limits, s: Snapshot)
    requires forall e :: e in lines ==> Ready(e, s)
    requires m.minNotional > 0.0 && Sound(opening, s, m, opening.cash)
    ensures Sound(LedgerAfter(lines, opening, m), s, m, opening.cash)
  {
    var postings := Postings(lines, opening, m);
    forall k | 0 <= k < |postings|
      ensures postings[k].candidate == lines[k].candidate && Fitting(postings[k], Settled(postings[..k], opening), m)
      ensures Ready(lines[k], s)
    {
      EveryPostingFits(lines, opening, m, k);
    }
    SettledIsSound(postings, opening, s, m);
  }
}
