/**
The conviction engine of app/adaptive_conviction.py: from scored evidence to an opportunity class, a
deployment mode and the stop risk that a trade is permitted. Better evidence never permits less.
*/
module Conviction {
  import opened Wrappers
  import opened Sums

  datatype Input =
    | SetupScore | EvidenceQuality | EvidenceCalibration | RegimeAlignment
    | AccountDrawdown | DailyRealizedLoss | WeeklyRealizedLoss | ExecutionQuality
    | SymbolExposure | ClusterExposure | Correlation | DollarVolume | QuoteSpread
    | RewardToRisk | StopGeometry | PortfolioHeat | GrossExposure
    | ExecutionIntegrity | Reconciliation | Deterioration

  datatype CoreFailure =
    | StrategyNotAuthorized | InvalidStop | StaleMarketData | LiquidityBelowFloor | SpreadTooWide | IntegrityFailed | RiskChecksFailed

  /** What the engine derives from its inputs: scores between zero and one, and what is known and sound. */
  datatype Derived = Derived(
    missing: set<Input>,
    coreFailures: set<CoreFailure>,
    integrityOk: bool,
    noDeterioration: bool,
    setup: real,
    reward: real,
    evidence: real,
    regime: real,
    stopGeometry: real,
    liquidity: real,
    spread: real,
    diversification: real,
    account: real,
    execution: real,
    currentHeat: Option<real>,
    currentGross: Option<real>,
    symbolExposure: Option<real>,
    clusterExposure: Option<real>)

  predicate Unit(score: real) {
    0.0 <= score <= 1.0
  }

  /** The engine clamps every score. */
  predicate Clamped(d: Derived) {
    Unit(d.evidence) && Unit(d.regime) && Unit(d.stopGeometry) && Unit(d.liquidity) && Unit(d.spread)
    && Unit(d.diversification) && Unit(d.account) && Unit(d.execution)
  }

  predicate Calibrated(d: Derived) {
    EvidenceCalibration !in d.missing
  }

  predicate RegimeKnown(d: Derived) {
    RegimeAlignment !in d.missing
  }

  predicate AccountKnown(d: Derived) {
    AccountDrawdown !in d.missing && DailyRealizedLoss !in d.missing && WeeklyRealizedLoss !in d.missing
  }

  predicate ExecutionKnown(d: Derived) {
    ExecutionQuality !in d.missing
  }

  function IfKnown(known: bool, score: real): real {
    if known then score else 0.0
  }

  /** The signals that count next to the setup; what is not known counts as nothing. */
  function Signals(d: Derived): seq<real> {
    [IfKnown(Calibrated(d), d.evidence), IfKnown(RegimeKnown(d), d.regime), d.stopGeometry, d.liquidity, d.spread,
     d.diversification, IfKnown(AccountKnown(d), d.account), IfKnown(ExecutionKnown(d), d.execution)]
  }

  function AtLeast(signals: seq<real>, level: real): nat {
    if signals == [] then 0
    else (if signals[0] >= level then 1 else 0) + AtLeast(signals[1..], level)
  }

  // ----- class and mode -----

  datatype Class = Rejected | Standard | Strong | HighConviction | Exceptional

  datatype Mode = Defensive | Normal | Opportunistic | Aggressive

  function ClassRank(c: Class): nat {
    match c case Rejected => 0 case Standard => 1 case Strong => 2 case HighConviction => 3 case Exceptional => 4
  }

  function ModeRank(m: Mode): nat {
    match m case Defensive => 0 case Normal => 1 case Opportunistic => 2 case Aggressive => 3
  }

  function OpportunityClass(d: Derived): Class {
    if d.coreFailures != {} then Rejected
    else
      var expansionSafe := Calibrated(d) && AccountKnown(d) && RegimeKnown(d) && d.noDeterioration;
      var signals := Signals(d);
      if expansionSafe && d.setup >= 95.0 && d.reward >= 2.5 && AtLeast(signals, 0.90) >= 7 && d.integrityOk then Exceptional
      else if expansionSafe && d.setup >= 90.0 && d.reward >= 2.0 && AtLeast(signals, 0.75) >= 7 && d.integrityOk then HighConviction
      else if expansionSafe && d.setup >= 85.0 && d.reward >= 1.5 && AtLeast(signals, 0.60) >= 6 && d.integrityOk then Strong
      else Standard
  }

  function CompleteExpansion(d: Derived): bool {
    d.missing !! {EvidenceQuality, RegimeAlignment, AccountDrawdown, DailyRealizedLoss, WeeklyRealizedLoss, ExecutionQuality, Correlation}
  }

  predicate CapacityAtLeast(d: Derived, level: real) {
    d.account >= level && d.execution >= level && d.diversification >= level
  }

  function DeploymentMode(c: Class, d: Derived): Mode {
    if c.Rejected? then Defensive
    else if d.account < 0.50 || !d.integrityOk || !d.noDeterioration then Defensive
    else if c.Exceptional? && CompleteExpansion(d) && CapacityAtLeast(d, 0.90) then Aggressive
    else if (c.HighConviction? || c.Exceptional?) && CompleteExpansion(d) && CapacityAtLeast(d, 0.75) then Opportunistic
    else Normal
  }

  // ----- caps -----

  const HARD_TRADE_RISK := 0.35

  datatype Targets = Targets(tradeRiskCap: real, heat: real, gross: real, positions: nat)

  function TargetsOf(m: Mode): Targets {
    match m
    case Defensive => Targets(0.15, 0.50, 20.0, 2)
    case Normal => Targets(0.20, 1.25, 30.0, 3)
    case Opportunistic => Targets(0.30, 1.50, 40.0, 4)
    case Aggressive => Targets(0.35, 1.75, 50.0, 5)
  }

  function OpportunityMultiplier(c: Class): real {
    match c case Rejected => 0.0 case Standard => 0.85 case Strong => 1.0 case HighConviction => 1.15 case Exceptional => 1.25
  }

  datatype Config = Config(baseRisk: real, maximumSymbolExposure: real, maximumClusterExposure: real)

  /** The parts of a record that set risk rather than evidence; zero stands for not given, as it does in the source. */
  datatype Terms = Terms(active: bool, baseRisk: Option<real>, strategyCap: Option<real>, operational: Option<real>)

  function Given(value: Option<real>, otherwise: real): real {
    if value.Some? && value.value != 0.0 then value.value else otherwise
  }

  function Base(terms: Terms, config: Config): (base: real)
    ensures 0.0 <= base <= HARD_TRADE_RISK
  {
    Max(0.0, Min(HARD_TRADE_RISK, Given(terms.baseRisk, config.baseRisk)))
  }

  function RegimeMultiplier(d: Derived): real {
    if RegimeKnown(d) then 0.75 + 0.50 * d.regime else 1.0
  }

  function AccountMultiplier(d: Derived): real {
    if AccountKnown(d) then 0.75 + 0.40 * d.account else 0.85
  }

  function ExecutionMultiplier(d: Derived): real {
    if ExecutionKnown(d) then 0.75 + 0.50 * d.execution else 1.0
  }

  function DiversificationMultiplier(d: Derived): real {
    0.65 + 0.55 * d.diversification
  }

  function Requested(base: real, c: Class, d: Derived): real {
    Times(Times(Times(Times(Times(base, OpportunityMultiplier(c)), RegimeMultiplier(d)), AccountMultiplier(d)),
                ExecutionMultiplier(d)), DiversificationMultiplier(d))
  }

  function HeatCeiling(t: Targets, current: Option<real>): real {
    if current.Some? && current.value >= t.heat then 0.0
    else if current.None? then t.tradeRiskCap
    else Min(t.tradeRiskCap, t.heat - current.value)
  }

  function Room(current: real, target: real): real {
    Clamp((target - current) / Max(target, 0.000000000001))
  }

  function CapacityCeiling(cap: real, current: Option<real>, target: real): real {
    if current.None? then Times(cap, 0.75) else Times(cap, Room(current.value, target))
  }

  datatype Cap = FormulaRequest | StrategyAuthorization | DeploymentModeTradeRisk | HardTradeRisk
               | PortfolioHeatCap | GrossExposureCap | SymbolExposureCap | ClusterExposureCap

  /** The order in which equal caps are named. */
  const BINDING_CAP_ORDER := [FormulaRequest, StrategyAuthorization, DeploymentModeTradeRisk, HardTradeRisk,
                              PortfolioHeatCap, GrossExposureCap, SymbolExposureCap, ClusterExposureCap]

  function CapValue(cap: Cap, c: Class, m: Mode, d: Derived, terms: Terms, config: Config): real {
    var t, base := TargetsOf(m), Base(terms, config);
    match cap
    case FormulaRequest => Max(0.0, Requested(base, c, d))
    case StrategyAuthorization => Max(0.0, Min(HARD_TRADE_RISK, Given(terms.strategyCap, if terms.active then HARD_TRADE_RISK else base)))
    case DeploymentModeTradeRisk => t.tradeRiskCap
    case HardTradeRisk => HARD_TRADE_RISK
    case PortfolioHeatCap => Max(0.0, HeatCeiling(t, d.currentHeat))
    case GrossExposureCap => Max(0.0, CapacityCeiling(t.tradeRiskCap, d.currentGross, t.gross))
    case SymbolExposureCap => Max(0.0, CapacityCeiling(t.tradeRiskCap, d.symbolExposure, config.maximumSymbolExposure))
    case ClusterExposureCap => Max(0.0, CapacityCeiling(t.tradeRiskCap, d.clusterExposure, config.maximumClusterExposure))
  }

  datatype Decision = Decision(class_: Class, mode: Mode, binding: Cap, requested: real, recommended: real, operational: real)

  // ----- the decision -----

  predicate FirstNamed(cap: Cap, i: int, c: Class, m: Mode, d: Derived, terms: Terms, config: Config) {
    && 0 <= i < |BINDING_CAP_ORDER| && BINDING_CAP_ORDER[i] == cap
    && forall j :: 0 <= j < i ==> CapValue(BINDING_CAP_ORDER[j], c, m, d, terms, config) > CapValue(cap, c, m, d, terms, config)
  }

  /** A decision binds the first of the least caps, and a rejected opportunity gets nothing. */
  ghost predicate IsDecision(d: Derived, terms: Terms, config: Config, decision: Decision) {
    var c := OpportunityClass(d);
    var m := DeploymentMode(c, d);
    && decision.class_ == c && decision.mode == m
    && decision.requested == Requested(Base(terms, config), c, d)
    && decision.operational == Max(0.0, Given(terms.operational, 0.0))
    && (exists i :: FirstNamed(decision.binding, i, c, m, d, terms, config))
    && (forall cap: Cap :: CapValue(decision.binding, c, m, d, terms, config) <= CapValue(cap, c, m, d, terms, config))
    && decision.recommended == if c.Rejected? then 0.0 else CapValue(decision.binding, c, m, d, terms, config)
  }

  lemma EveryCapIsListed(cap: Cap)
    ensures exists i :: 0 <= i < |BINDING_CAP_ORDER| && BINDING_CAP_ORDER[i] == cap
  {
    var order := BINDING_CAP_ORDER;
    assert order[0] == FormulaRequest && order[1] == StrategyAuthorization && order[2] == DeploymentModeTradeRisk && order[3] == HardTradeRisk;
    assert order[4] == PortfolioHeatCap && order[5] == GrossExposureCap && order[6] == SymbolExposureCap && order[7] == ClusterExposureCap;
  }

  datatype Fault = EvaluationTimeInvalid

  /** A record of the stream that is replayed: buys that enter or add are decided, everything else is passed over. */
  datatype Record = Record(buys: bool, timed: bool, derived: Derived, terms: Terms)

  method Evaluate(r: Record, config: Config) returns (result: Result<Option<Decision>, Fault>)
    ensures result.Err? <==> r.buys && !r.timed
    ensures result.Ok? ==> (result.value.Some? <==> r.buys)
    ensures result.Ok? && result.value.Some? ==> IsDecision(r.derived, r.terms, config, result.value.value)
  {
    if !r.buys {
      return Ok(None);
    }
    if !r.timed {
      return Err(EvaluationTimeInvalid);
    }
    var d, terms := r.derived, r.terms;
    var c := OpportunityClass(d);
    var m := DeploymentMode(c, d);
    var binding, first := BINDING_CAP_ORDER[0], 0;
    for i := 1 to |BINDING_CAP_ORDER|
      invariant 0 <= first < i && binding == BINDING_CAP_ORDER[first]
      invariant forall j :: 0 <= j < first ==> CapValue(BINDING_CAP_ORDER[j], c, m, d, terms, config) > CapValue(binding, c, m, d, terms, config)
      invariant forall j :: first <= j < i ==> CapValue(BINDING_CAP_ORDER[j], c, m, d, terms, config) >= CapValue(binding, c, m, d, terms, config)
    {
      if CapValue(BINDING_CAP_ORDER[i], c, m, d, terms, config) < CapValue(binding, c, m, d, terms, config) {
        binding, first := BINDING_CAP_ORDER[i], i;
      }
    }
    assert FirstNamed(binding, first, c, m, d, terms, config);
    forall cap: Cap
      ensures CapValue(binding, c, m, d, terms, config) <= CapValue(cap, c, m, d, terms, config)
    {
      EveryCapIsListed(cap);
    }
    return Ok(Some(Decision(c, m, binding, Requested(Base(terms, config), c, d),
                            if c.Rejected? then 0.0 else CapValue(binding, c, m, d, terms, config),
                            Max(0.0, Given(terms.operational, 0.0)))));
  }

  // ----- bounds -----

  lemma TargetsAreBounded(m: Mode)
    ensures 0.0 < TargetsOf(m).tradeRiskCap <= HARD_TRADE_RISK
  {
  }

  /** The permitted risk is the least of the caps: never above the hard ceiling, the mode's cap or the request. */
  lemma RecommendedIsBounded(d: Derived, terms: Terms, config: Config, decision: Decision)
    requires IsDecision(d, terms, config, decision)
    ensures 0.0 <= decision.recommended <= HARD_TRADE_RISK
    ensures decision.recommended <= TargetsOf(decision.mode).tradeRiskCap
    ensures decision.recommended <= Max(0.0, decision.requested)
    ensures d.currentHeat.Some? && d.currentHeat.value >= TargetsOf(decision.mode).heat ==> decision.recommended == 0.0
    ensures d.currentHeat.Some? ==> decision.recommended <= Max(0.0, TargetsOf(decision.mode).heat - d.currentHeat.value)
    ensures decision.class_.Rejected? ==> decision.recommended == 0.0
  {
    TargetsAreBounded(decision.mode);
    var c, m := decision.class_, decision.mode;
    var least := CapValue(decision.binding, c, m, d, terms, config);
    assert least <= CapValue(DeploymentModeTradeRisk, c, m, d, terms, config);
    assert least <= CapValue(FormulaRequest, c, m, d, terms, config);
    assert least <= CapValue(PortfolioHeatCap, c, m, d, terms, config);
    assert least >= 0.0;
  }

  /** Expansion modes never come with a lower class. */
  lemma ModesNeedTheirClass(d: Derived)
    ensures var m := DeploymentMode(OpportunityClass(d), d);
      && (m.Aggressive? ==> OpportunityClass(d).Exceptional?)
      && (m.Opportunistic? ==> ClassRank(OpportunityClass(d)) >= ClassRank(HighConviction))
  {
  }

  // ----- better evidence never permits less -----

  /** e has the same flags, gaps, failures and exposures as d, and every score, the setup and the reward are at least as good. */
  predicate AtLeastAsGood(d: Derived, e: Derived) {
    && e == d.(setup := e.setup, reward := e.reward, evidence := e.evidence, regime := e.regime, stopGeometry := e.stopGeometry,
               liquidity := e.liquidity, spread := e.spread, diversification := e.diversification,
               account := e.account, execution := e.execution)
    && d.setup <= e.setup && d.reward <= e.reward
    && d.evidence <= e.evidence && d.regime <= e.regime && d.stopGeometry <= e.stopGeometry
    && d.liquidity <= e.liquidity && d.spread <= e.spread && d.diversification <= e.diversification
    && d.account <= e.account && d.execution <= e.execution
  }

  lemma {:induction false} AtLeastIsMonotone(a: seq<real>, b: seq<real>, level: real)
    requires |a| == |b| && forall i :: 0 <= i < |a| ==> a[i] <= b[i]
    ensures AtLeast(a, level) <= AtLeast(b, level)
  {
    if a != [] {
      AtLeastIsMonotone(a[1..], b[1..], level);
    }
  }

  lemma SignalsAreMonotone(d: Derived, e: Derived, level: real)
    requires AtLeastAsGood(d, e)
    ensures AtLeast(Signals(d), level) <= AtLeast(Signals(e), level)
  {
    AtLeastIsMonotone(Signals(d), Signals(e), level);
  }

  lemma ClassIsMonotone(d: Derived, e: Derived)
    requires AtLeastAsGood(d, e)
    ensures ClassRank(OpportunityClass(d)) <= ClassRank(OpportunityClass(e))
    ensures OpportunityClass(d).Rejected? <==> OpportunityClass(e).Rejected?
  {
    SignalsAreMonotone(d, e, 0.90);
    SignalsAreMonotone(d, e, 0.75);
    SignalsAreMonotone(d, e, 0.60);
  }

  lemma ModeIsMonotone(d: Derived, e: Derived)
    requires AtLeastAsGood(d, e)
    ensures ModeRank(DeploymentMode(OpportunityClass(d), d)) <= ModeRank(DeploymentMode(OpportunityClass(e), e))
  {
    ClassIsMonotone(d, e);
  }

  lemma TimesIsMonotone(a: real, b: real, c: real, d: real)
    requires 0.0 <= a <= c && 0.0 <= b <= d
    ensures 0.0 <= Times(a, b) <= Times(c, d)
  {
    assert (c - a) * b >= 0.0 && c * (d - b) >= 0.0;
  }

  lemma MultipliersAreMonotone(d: Derived, e: Derived)
    requires Clamped(d) && AtLeastAsGood(d, e)
    ensures 0.0 <= RegimeMultiplier(d) <= RegimeMultiplier(e)
    ensures 0.0 <= AccountMultiplier(d) <= AccountMultiplier(e)
    ensures 0.0 <= ExecutionMultiplier(d) <= ExecutionMultiplier(e)
    ensures 0.0 <= DiversificationMultiplier(d) <= DiversificationMultiplier(e)
  {
  }

  lemma RequestedIsMonotone(base: real, c: Class, k: Class, d: Derived, e: Derived)
    requires base >= 0.0 && Clamped(d) && AtLeastAsGood(d, e) && ClassRank(c) <= ClassRank(k)
    ensures 0.0 <= Requested(base, c, d) <= Requested(base, k, e)
  {
    MultipliersAreMonotone(d, e);
    var o, p := OpportunityMultiplier(c), OpportunityMultiplier(k);
    TimesIsMonotone(base, o, base, p);
    var a, b := Times(base, o), Times(base, p);
    TimesIsMonotone(a, RegimeMultiplier(d), b, RegimeMultiplier(e));
    a, b := Times(a, RegimeMultiplier(d)), Times(b, RegimeMultiplier(e));
    TimesIsMonotone(a, AccountMultiplier(d), b, AccountMultiplier(e));
    a, b := Times(a, AccountMultiplier(d)), Times(b, AccountMultiplier(e));
    TimesIsMonotone(a, ExecutionMultiplier(d), b, ExecutionMultiplier(e));
    a, b := Times(a, ExecutionMultiplier(d)), Times(b, ExecutionMultiplier(e));
    TimesIsMonotone(a, DiversificationMultiplier(d), b, DiversificationMultiplier(e));
  }

  lemma QuotientsInOrder(a: real, b: real, c: real, d: real)
    requires b > 0.0 && d > 0.0 && a * d <= c * b
    ensures a / b <= c / d
  {
    assert (a / b) * b == a && (c / d) * d == c;
    SignWithoutFactors(c / d - a / b, b, d);
  }

  lemma SignWithoutFactors(x: real, b: real, d: real)
    requires b > 0.0 && d > 0.0 && x * b * d >= 0.0
    ensures x >= 0.0
  {
  }

  lemma RoomIsMonotone(current: real, low: real, high: real)
    requires 1.0 <= low <= high
    ensures Room(current, low) <= Room(current, high)
  {
    if current >= 0.0 {
      assert current * (high - low) >= 0.0;
      QuotientsInOrder(low - current, low, high - current, high);
    } else {
      QuotientsInOrder(1.0, 1.0, high - current, high);
      assert 1.0 / 1.0 == 1.0;
    }
  }

  lemma CapacityIsMonotone(m: Mode, n: Mode, current: Option<real>, low: real, high: real)
    requires ModeRank(m) <= ModeRank(n) && (low == high || 1.0 <= low <= high)
    ensures CapacityCeiling(TargetsOf(m).tradeRiskCap, current, low) <= CapacityCeiling(TargetsOf(n).tradeRiskCap, current, high)
  {
    TargetsAreBounded(m);
    if current.None? {
      TimesIsMonotone(TargetsOf(m).tradeRiskCap, 0.75, TargetsOf(n).tradeRiskCap, 0.75);
    } else {
      if low != high {
        RoomIsMonotone(current.value, low, high);
      }
      TimesIsMonotone(TargetsOf(m).tradeRiskCap, Room(current.value, low), TargetsOf(n).tradeRiskCap, Room(current.value, high));
    }
  }

  lemma CapsAreMonotone(cap: Cap, c: Class, k: Class, m: Mode, n: Mode, d: Derived, e: Derived, terms: Terms, config: Config)
    requires Clamped(d) && AtLeastAsGood(d, e) && ClassRank(c) <= ClassRank(k) && ModeRank(m) <= ModeRank(n)
    ensures CapValue(cap, c, m, d, terms, config) <= CapValue(cap, k, n, e, terms, config)
  {
    match cap
    case FormulaRequest => RequestedIsMonotone(Base(terms, config), c, k, d, e);
    case GrossExposureCap => CapacityIsMonotone(m, n, d.currentGross, TargetsOf(m).gross, TargetsOf(n).gross);
    case SymbolExposureCap => CapacityIsMonotone(m, n, d.symbolExposure, config.maximumSymbolExposure, config.maximumSymbolExposure);
    case ClusterExposureCap => CapacityIsMonotone(m, n, d.clusterExposure, config.maximumClusterExposure, config.maximumClusterExposure);
    case _ =>
  }

  /** Better scores, setup and reward never lower the class, the mode or the permitted risk. */
  lemma BetterEvidencePermitsNoLess(d: Derived, e: Derived, terms: Terms, config: Config, before: Decision, after: Decision)
    requires Clamped(d) && AtLeastAsGood(d, e)
    requires IsDecision(d, terms, config, before) && IsDecision(e, terms, config, after)
    ensures ClassRank(before.class_) <= ClassRank(after.class_)
    ensures ModeRank(before.mode) <= ModeRank(after.mode)
    ensures before.recommended <= after.recommended
  {
    ClassIsMonotone(d, e);
    ModeIsMonotone(d, e);
    CapsAreMonotone(after.binding, before.class_, after.class_, before.mode, after.mode, d, e, terms, config);
  }

  // ----- replay -----

  function CountModes(decisions: seq<Decision>, m: Mode): nat {
    if decisions == [] then 0
    else CountModes(decisions[..|decisions| - 1], m) + if decisions[|decisions| - 1].mode == m then 1 else 0
  }

  function CountClasses(decisions: seq<Decision>, c: Class): nat {
    if decisions == [] then 0
    else CountClasses(decisions[..|decisions| - 1], c) + if decisions[|decisions| - 1].class_ == c then 1 else 0
  }

  function Count<K>(counter: map<K, nat>, k: K): nat {
    if k in counter then counter[k] else 0
  }

  /** The records that are decided, in their order. */
  function Decided(records: seq<Record>): seq<Record> {
    if records == [] then []
    else Decided(records[..|records| - 1]) + if records[|records| - 1].buys then [records[|records| - 1]] else []
  }

  ghost predicate AreDecisions(records: seq<Record>, config: Config, decisions: seq<Decision>) {
    && |decisions| == |records|
    && forall i :: 0 <= i < |records| ==> IsDecision(records[i].derived, records[i].terms, config, decisions[i])
  }

  predicate Contradictory(decision: Decision) {
    || (decision.mode.Aggressive? && !decision.class_.Exceptional?)
    || (decision.mode.Opportunistic? && !decision.class_.HighConviction? && !decision.class_.Exceptional?)
  }

  lemma DecisionsDoNotContradict(records: seq<Record>, config: Config, decisions: seq<Decision>)
    requires AreDecisions(records, config, decisions)
    ensures forall i :: 0 <= i < |decisions| ==> !Contradictory(decisions[i])
  {
    forall i | 0 <= i < |decisions|
      ensures !Contradictory(decisions[i])
    {
      ModesNeedTheirClass(records[i].derived);
    }
  }

  lemma SomethingListed(listed: seq<Decision>)
    ensures listed == [] || exists decision :: decision in listed
  {
    assert listed == [] || listed[0] in listed;
  }

  /** Every record that is decided says when. */
  predicate AllTimed(records: seq<Record>) {
    forall i :: 0 <= i < |records| && records[i].buys ==> records[i].timed
  }

  method DecideAll(records: seq<Record>, config: Config) returns (result: Result<seq<Decision>, Fault>)
    ensures result.Ok? <==> AllTimed(records)
    ensures result.Ok? ==> AreDecisions(Decided(records), config, result.value)
  {
    var decisions: seq<Decision> := [];
    for i := 0 to |records|
      invariant AllTimed(records[..i])
      invariant AreDecisions(Decided(records[..i]), config, decisions)
    {
      var decision := Evaluate(records[i], config);
      if decision.Err? {
        return Err(decision.error);
      }
      assert records[..i + 1][..i] == records[..i];
      if decision.value.Some? {
        decisions := decisions + [decision.value.value];
      }
    }
    assert records[..|records|] == records;
    return Ok(decisions);
  }

  datatype Replayed = Replayed(decisions: seq<Decision>, modes: map<Mode, nat>, classes: map<Class, nat>, contradictions: seq<Decision>)

  /** Replaying decides each buy once, counts each decision once in its mode and its class, and finds no contradiction. */
  method Replay(records: seq<Record>, config: Config) returns (result: Result<Replayed, Fault>)
    ensures result.Ok? <==> AllTimed(records)
    ensures result.Ok? ==>
      && AreDecisions(Decided(records), config, result.value.decisions)
      && (forall m :: Count(result.value.modes, m) == CountModes(result.value.decisions, m))
      && (forall c :: Count(result.value.classes, c) == CountClasses(result.value.decisions, c))
      && result.value.contradictions == []
  {
    var all := DecideAll(records, config);
    if all.Err? {
      return Err(all.error);
    }
    var decisions := all.value;
    var modes: map<Mode, nat>, classes: map<Class, nat>, contradictions: seq<Decision> := map[], map[], [];
    for i := 0 to |decisions|
      invariant forall m :: Count(modes, m) == CountModes(decisions[..i], m)
      invariant forall c :: Count(classes, c) == CountClasses(decisions[..i], c)
      invariant forall k <- contradictions :: k in decisions && Contradictory(k)
    {
      var decision := decisions[i];
      assert decisions[..i + 1][..i] == decisions[..i];
      modes := modes[decision.mode := Count(modes, decision.mode) + 1];
      classes := classes[decision.class_ := Count(classes, decision.class_) + 1];
      if decision.mode.Aggressive? && !decision.class_.Exceptional? {
        contradictions := contradictions + [decision];
      }
      if decision.mode.Opportunistic? && !decision.class_.HighConviction? && !decision.class_.Exceptional? {
        contradictions := contradictions + [decision];
      }
    }
    assert decisions[..|decisions|] == decisions;
    DecisionsDoNotContradict(Decided(records), config, decisions);
    SomethingListed(contradictions);
    return Ok(Replayed(decisions, modes, classes, contradictions));
  }
}
