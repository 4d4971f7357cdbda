/**
The inputs of the cross-asset allocator (app/cross_asset_allocation.py) and what it demands of
them.  Decimals are reals: the 28-digit rounding of the source's arithmetic is not modelled.
Text identifiers, which are only compared and sorted, are numbers; a check of hashes, formula
versions or timestamps is the flag `current` of the record that carries them.
*/
module AllocationModel {
  import opened Sums

  type Symbol = nat
  type Cluster = nat
  type Strategy = nat
  type CandidateId = nat

  datatype AssetClass = Equity | Etf | Crypto
  datatype Lane = OperationalPaper | ResearchOnly | SupervisedPaper
  datatype SourceType = ProfitabilityDecision | ColdStartDiscovery
  datatype StrategyState = Active | Exploration | OtherState
  datatype Action = Entry | AddOn | RotationEntry

  /** The two sleeves that every snapshot must account for: exactly "equity" and "crypto". */
  datatype BySleeve<T> = BySleeve(equity: T, crypto: T) {
    function At(isCrypto: bool): T { if isCrypto then crypto else equity }

    function With(isCrypto: bool, value: T): BySleeve<T> {
      if isCrypto then this.(crypto := value) else this.(equity := value)
    }
  }

  datatype Candidate = Candidate(
    id: CandidateId,
    sourceType: SourceType,
    sourceId: nat,
    sourceAuthoritative: bool,
    runId: nat,
    assetClass: AssetClass,
    symbol: Symbol,
    cluster: Cluster,
    strategy: Strategy,
    strategyState: StrategyState,
    action: Action,
    lane: Lane,
    current: bool,
    notional: real,
    economicRisk: real,
    stopRisk: real,
    expectedProfit: real,
    expectedR: real,
    conservativeR: real,
    efficiency: real,
    rPerDay: real,
    marginalR: real,
    probabilityPositive: real,
    probabilitySevere: real,
    uncertainty: real,
    costRatio: real,
    holdingDays: real,
    volatility: real,
    liquidity: real,
    correlation: real,
    drawdownR: real,
    held: bool,
    conflictFree: bool,
    profitabilityEligible: bool,
    explorationEligible: bool)

  datatype Policy = Policy(
    maxGrossPct: real,
    maxHeatPct: real,
    maxSymbolPct: real,
    maxClusterPct: real,
    maxSleevePct: BySleeve<real>,
    maxStrategyHeatPct: real,
    maxExplorationHeatPct: real,
    maxCryptoHeatPct: real,
    maxTradeRiskPct: BySleeve<real>,
    maxVolatility: BySleeve<real>,
    cashReservePct: real,
    minNotional: real,
    minLiquidity: BySleeve<real>,
    maxCostRatio: real,
    dailyLossHaltPct: real,
    weeklyLossHaltPct: real,
    throttleStartPct: real,
    drawdownHaltPct: real,
    throttle: real,
    maxDrawdownR: real,
    targetConservativeR: real,
    targetExpectedR: real,
    targetEfficiency: real,
    targetRPerDay: real,
    targetMarginalR: real,
    maxPositions: nat,
    maxSleevePositions: BySleeve<nat>,
    coldStartEnabled: bool,
    coldStartMaxNotional: real,
    explorationEnabled: bool,
    explorationMaxNotional: real,
    weights: seq<real>)

  datatype Snapshot = Snapshot(
    authoritative: bool,
    current: bool,
    equity: real,
    cash: real,
    buyingPower: real,
    gross: real,
    heat: real,
    dailyLossPct: real,
    weeklyLossPct: real,
    drawdownPct: real,
    volatility: real,
    positions: nat,
    sleevePositions: BySleeve<nat>,
    symbols: map<Symbol, real>,
    clusters: map<Cluster, real>,
    sleeves: BySleeve<real>,
    sleeveHeat: BySleeve<real>,
    strategyHeat: map<Strategy, real>,
    killSwitch: bool,
    lossEvidenceFresh: bool,
    databaseHealthy: bool,
    internetHealthy: bool,
    powerHealthy: bool,
    brokerHealthy: bool)

  const TOLERANCE: real := 0.000000000001

  function Abs(x: real): real {
    if x < 0.0 then -x else x
  }

  predicate Within(x: real, low: real, high: real) {
    low <= x <= high
  }

  function IsCrypto(c: Candidate): bool {
    c.assetClass.Crypto?
  }

  function PctOf(equity: real, pct: real): real {
    equity * pct / 100.0
  }

  /** The sum of a sequence of numbers. */
  function Sum(xs: seq<real>): real {
    if xs == [] then 0.0 else Sum(xs[..|xs| - 1]) + xs[|xs| - 1]
  }

  /** The code-level bounds that _policy enforces (lines 926-1072). */
  predicate PolicyAccepted(p: Policy) {
    && Within(p.maxGrossPct, 0.01, 50.0)
    && Within(p.maxHeatPct, 0.01, 1.75)
    && Within(p.maxSymbolPct, 0.01, 6.0)
    && Within(p.maxClusterPct, 0.01, 15.0)
    && Within(p.maxSleevePct.equity, 0.01, 50.0)
    && Within(p.maxSleevePct.crypto, 0.01, 5.0)
    && Within(p.maxStrategyHeatPct, 0.01, 0.6125)
    && Within(p.maxExplorationHeatPct, 0.01, 0.10)
    && Within(p.maxCryptoHeatPct, 0.01, 0.20)
    && Within(p.maxTradeRiskPct.equity, 0.01, 0.35)
    && Within(p.maxTradeRiskPct.crypto, 0.001, 0.05)
    && Within(p.maxVolatility.equity, 0.01, 0.45)
    && Within(p.maxVolatility.crypto, 0.01, 1.50)
    && Within(p.cashReservePct, 20.0, 100.0)
    && Within(p.minNotional, 1.0, 250.0)
    && Within(p.minLiquidity.equity, 10000000.0, 1000000000000.0)
    && Within(p.minLiquidity.crypto, 1000.0, 1000000000000.0)
    && Within(p.maxCostRatio, 0.01, 0.50)
    && Within(p.dailyLossHaltPct, 0.01, 0.75)
    && Within(p.weeklyLossHaltPct, 0.01, 1.50)
    && Within(p.throttleStartPct, 0.01, 6.0)
    && Within(p.drawdownHaltPct, 0.01, 6.0)
    && p.throttleStartPct < p.drawdownHaltPct
    && Within(p.throttle, 0.01, 1.0)
    && Within(p.maxDrawdownR, 0.01, 6.0)
    && Within(p.targetConservativeR, 0.000001, 10.0)
    && Within(p.targetExpectedR, 0.000001, 10.0)
    && Within(p.targetEfficiency, 0.000001, 10.0)
    && Within(p.targetRPerDay, 0.000001, 10.0)
    && Within(p.targetMarginalR, 0.000001, 10.0)
    && 1 <= p.maxPositions <= 5
    && 1 <= p.maxSleevePositions.equity <= 3
    && 1 <= p.maxSleevePositions.crypto <= 2
    && p.coldStartMaxNotional >= 0.0
    && WeightsAccepted(p.weights)
  }

  predicate WeightsAccepted(weights: seq<real>) {
    |weights| == 11 && (forall k :: 0 <= k < 11 ==> 0.0 <= weights[k] <= 1.0) && Sum(weights) == 1.0
  }

  /** The economic consistency checks of CrossAssetCandidate.canonical (lines 612-652). */
  predicate EconomicsConsistent(c: Candidate)
    requires c.economicRisk != 0.0 && c.notional != 0.0 && c.holdingDays != 0.0
  {
    && c.stopRisk >= c.economicRisk
    && Abs(c.expectedProfit / c.economicRisk - c.expectedR) <= TOLERANCE
    && Abs(c.expectedProfit / c.notional - c.efficiency) <= TOLERANCE
    && Abs(c.expectedR / c.holdingDays - c.rPerDay) <= TOLERANCE
    && c.conservativeR <= c.expectedR
    && c.marginalR <= c.conservativeR
    && c.probabilitySevere <= 1.0 - c.probabilityPositive
  }

  /** What CrossAssetCandidate.canonical accepts (lines 400-652). */
  predicate CandidateAccepted(c: Candidate) {
    && c.current
    && (c.assetClass.Crypto? ==> !c.lane.OperationalPaper?)
    && (!c.assetClass.Crypto? ==> !c.lane.SupervisedPaper?)
    && (c.explorationEligible ==>
         c.assetClass.Crypto? && c.lane.SupervisedPaper? && c.strategyState.Exploration? && !c.profitabilityEligible)
    && c.notional > 0.0 && c.economicRisk > 0.0 && c.stopRisk > 0.0 && c.holdingDays > 0.0 && c.liquidity > 0.0
    && Within(c.probabilityPositive, 0.0, 1.0)
    && Within(c.probabilitySevere, 0.0, 1.0)
    && Within(c.uncertainty, 0.0, 1.0)
    && Within(c.volatility, 0.0, 10.0)
    && Within(c.correlation, -1.0, 1.0)
    && c.costRatio >= 0.0 && c.drawdownR >= 0.0
    && EconomicsConsistent(c)
  }

  function NonzeroKeys(m: map<Symbol, real>): set<Symbol> {
    set k | k in m && m[k] != 0.0
  }

  /** The reconciliation equations a snapshot must meet (lines 753-771). */
  ghost predicate Reconciles(positions: int, sleevePositions: BySleeve<nat>, gross: real, heat: real,
                             symbols: map<Symbol, real>, clusters: map<Cluster, real>, sleeves: BySleeve<real>,
                             sleeveHeat: BySleeve<real>, strategyHeat: map<Strategy, real>)
  {
    && sleevePositions.equity + sleevePositions.crypto == positions
    && |NonzeroKeys(symbols)| == positions
    && Total(symbols) == gross
    && Total(clusters) == gross
    && sleeves.equity + sleeves.crypto == gross
    && sleeveHeat.equity + sleeveHeat.crypto == heat
    && Total(strategyHeat) == heat
  }

  /** What CrossAssetPortfolioSnapshot.canonical accepts (lines 688-840). */
  ghost predicate SnapshotAccepted(s: Snapshot) {
    && s.current
    && s.gross >= 0.0 && s.heat >= 0.0 && s.equity > 0.0 && 0.0 <= s.cash <= s.equity && s.buyingPower >= 0.0
    && s.dailyLossPct >= 0.0 && s.weeklyLossPct >= 0.0 && s.drawdownPct >= 0.0
    && Within(s.volatility, 0.0, 10.0)
    && Nonnegative(s.symbols) && Nonnegative(s.clusters) && Nonnegative(s.strategyHeat)
    && s.sleeves.equity >= 0.0 && s.sleeves.crypto >= 0.0 && s.sleeveHeat.equity >= 0.0 && s.sleeveHeat.crypto >= 0.0
    && Reconciles(s.positions, s.sleevePositions, s.gross, s.heat, s.symbols, s.clusters, s.sleeves, s.sleeveHeat, s.strategyHeat)
  }
}
