/**
What the conviction engine (app/adaptive_conviction.py, lines 351-437) demands of its evidence and permits on it, said of the
evidence itself: the thresholds of each class and mode, and exactly how much stop risk the exposures leave.
*/
module ConvictionLimits {
  import opened Wrappers
  import opened Sums
  import opened Quotients
  import opened Conviction

  // ----- the thresholds of the classes --------------------------------------------------------

  /** The i-th signal next to the setup is known, if it must be, and at least at this level. */
  predicate Agrees(d: Derived, i: nat, level: real) {
    match i
    case 0 => EvidenceCalibration !in d.missing && d.evidence >= level
    case 1 => RegimeAlignment !in d.missing && d.regime >= level
    case 2 => d.stopGeometry >= level
    case 3 => d.liquidity >= level
    case 4 => d.spread >= level
    case 5 => d.diversification >= level
    case 6 => d.missing !! {AccountDrawdown, DailyRealizedLoss, WeeklyRealizedLoss} && d.account >= level
    case _ => ExecutionQuality !in d.missing && d.execution >= level
  }

  /** All eight signals agree but at most one. */
  ghost predicate AllButOneAgree(d: Derived, level: real) {
    exists out: nat :: AgreeWithout(d, level, out, out)
  }

  ghost predicate AllButTwoAgree(d: Derived, level: real) {
    exists out: nat, also: nat :: AgreeWithout(d, level, out, also)
  }

  predicate AgreeWithout(d: Derived, level: real, out: nat, also: nat) {
    forall i: nat :: i < 8 && i != out && i != also ==> Agrees(d, i, level)
  }

  /** Nothing speaks against taking more than the standard risk. */
  predicate MayExpand(d: Derived) {
    && d.coreFailures == {} && d.integrityOk && d.noDeterioration
    && d.missing !! {EvidenceCalibration, RegimeAlignment, AccountDrawdown, DailyRealizedLoss, WeeklyRealizedLoss}
  }

  lemma SignalsAgree(d: Derived, level: real, i: nat)
    requires level > 0.0 && i < 8
    ensures Signals(d)[i] >= level <==> Agrees(d, i, level)
  {
  }

  /** How many of the first n signals do not reach the level. */
  function Below(signals: seq<real>, level: real): nat {
    if signals == [] then 0 else (if signals[0] >= level then 0 else 1) + Below(signals[1..], level)
  }

  lemma {:induction false} AtLeastOrBelow(signals: seq<real>, level: real)
    ensures AtLeast(signals, level) + Below(signals, level) == |signals|
  {
    if signals != [] {
      AtLeastOrBelow(signals[1..], level);
    }
  }

  lemma {:induction false} NoneBelow(signals: seq<real>, level: real)
    ensures Below(signals, level) == 0 <==> forall i :: 0 <= i < |signals| ==> signals[i] >= level
  {
    if signals != [] {
      NoneBelow(signals[1..], level);
      assert (forall i :: 0 <= i < |signals[1..]| ==> signals[1..][i] >= level) <==> (forall i :: 1 <= i < |signals| ==> signals[i] >= level) by {
        assert forall i :: 1 <= i < |signals| ==> signals[i] == signals[1..][i - 1];
      }
    }
  }

  predicate AllBut(signals: seq<real>, level: real, out: nat, also: nat) {
    forall i :: 0 <= i < |signals| && i != out && i != also ==> signals[i] >= level
  }

  /** At most as many are below as can be left out. */
  lemma {:induction false} FewBelow(signals: seq<real>, level: real, out: nat, also: nat)
    requires AllBut(signals, level, out, also)
    ensures Below(signals, level) <= if out == also then 1 else 2
    decreases |signals|
  {
    if signals != [] {
      if 0 < out && 0 < also {
        RestAllBut(signals, level, out - 1, also - 1);
        FewBelow(signals[1..], level, out - 1, also - 1);
      } else if out == also {
        RestAllBut(signals, level, |signals|, |signals|);
        NoneBelow(signals[1..], level);
      } else {
        var other := if out == 0 then also - 1 else out - 1;
        RestAllBut(signals, level, other, other);
        FewBelow(signals[1..], level, other, other);
      }
    }
  }

  lemma RestAllBut(signals: seq<real>, level: real, out: nat, also: nat)
    requires signals != [] && forall i :: 1 <= i < |signals| && i != out + 1 && i != also + 1 ==> signals[i] >= level
    ensures AllBut(signals[1..], level, out, also)
  {
  }

  /** If at most one is below, it can be left out; if at most two are, both can. */
  lemma {:induction false} LeaveOut(signals: seq<real>, level: real) returns (out: nat, also: nat)
    requires Below(signals, level) <= 2
    ensures AllBut(signals, level, out, also) && (Below(signals, level) <= 1 ==> out == also)
  {
    if signals == [] {
      out, also := 0, 0;
    } else if signals[0] >= level {
      out, also := LeaveOut(signals[1..], level);
      AllButShifted(signals, level, out, also);
      out, also := out + 1, also + 1;
    } else if Below(signals[1..], level) == 0 {
      NoneBelow(signals[1..], level);
      assert forall i :: 1 <= i < |signals| ==> signals[i] == signals[1..][i - 1];
      out, also := 0, 0;
    } else {
      out, also := LeaveOut(signals[1..], level);
      assert out == also;
      AllButShifted(signals, level, out, also);
      out, also := 0, also + 1;
    }
  }

  lemma AllButShifted(signals: seq<real>, level: real, out: nat, also: nat)
    requires signals != [] && AllBut(signals[1..], level, out, also)
    ensures forall i :: 1 <= i < |signals| && i != out + 1 && i != also + 1 ==> signals[i] >= level
  {
    assert forall i :: 1 <= i < |signals| ==> signals[i] == signals[1..][i - 1];
  }

  lemma AllButIsAgreement(d: Derived, level: real, out: nat, also: nat)
    requires level > 0.0
    ensures AllBut(Signals(d), level, out, also) <==> AgreeWithout(d, level, out, also)
  {
    forall i: nat | i < 8
      ensures Signals(d)[i] >= level <==> Agrees(d, i, level)
    {
      SignalsAgree(d, level, i);
    }
  }

  /** Counting seven of the eight signals is leaving out at most one, counting six is leaving out at most two. */
  lemma CountedIsAgreed(d: Derived, level: real)
    requires level > 0.0
    ensures AtLeast(Signals(d), level) >= 7 <==> AllButOneAgree(d, level)
    ensures AtLeast(Signals(d), level) >= 6 <==> AllButTwoAgree(d, level)
  {
    var signals := Signals(d);
    AtLeastOrBelow(signals, level);
    if Below(signals, level) <= 2 {
      var out, also := LeaveOut(signals, level);
      AllButIsAgreement(d, level, out, also);
    }
    forall out: nat, also: nat | AgreeWithout(d, level, out, also)
      ensures Below(signals, level) <= if out == also then 1 else 2
    {
      AllButIsAgreement(d, level, out, also);
      FewBelow(signals, level, out, also);
    }
  }

  lemma AgreementWeakens(d: Derived, high: real, low: real)
    requires low <= high
    ensures AllButOneAgree(d, high) ==> AllButOneAgree(d, low)
    ensures AllButOneAgree(d, high) ==> AllButTwoAgree(d, low)
  {
    if out: nat :| AgreeWithout(d, high, out, out) {
      forall i: nat | i < 8 && i != out
        ensures Agrees(d, i, low)
      {
        assert Agrees(d, i, high);
      }
      assert AgreeWithout(d, low, out, out);
    }
  }

  /** A class is reached exactly when its thresholds and those of nothing better are needed: setup, reward, and how many of the
      eight signals must agree at which level. */
  lemma ClassNeedsEvidence(d: Derived)
    ensures OpportunityClass(d).Rejected? <==> d.coreFailures != {}
    ensures ClassRank(OpportunityClass(d)) >= 2 <==> MayExpand(d) && d.setup >= 85.0 && d.reward >= 1.5 && AllButTwoAgree(d, 0.60)
    ensures ClassRank(OpportunityClass(d)) >= 3 <==> MayExpand(d) && d.setup >= 90.0 && d.reward >= 2.0 && AllButOneAgree(d, 0.75)
    ensures ClassRank(OpportunityClass(d)) >= 4 <==> MayExpand(d) && d.setup >= 95.0 && d.reward >= 2.5 && AllButOneAgree(d, 0.90)
  {
    CountedIsAgreed(d, 0.90);
    CountedIsAgreed(d, 0.75);
    CountedIsAgreed(d, 0.60);
    AgreementWeakens(d, 0.90, 0.75);
    AgreementWeakens(d, 0.75, 0.60);
  }

  // ----- the thresholds of the modes ----------------------------------------------------------

  predicate Capable(d: Derived, level: real) {
    && d.account >= level && d.execution >= level && d.diversification >= level
    && {EvidenceQuality, RegimeAlignment, AccountDrawdown, DailyRealizedLoss, WeeklyRealizedLoss, ExecutionQuality, Correlation} !! d.missing
  }

  /** A mode above normal needs its class and the capacity for it; the account, integrity and execution can each force defence. */
  lemma ModeNeedsCapacity(d: Derived)
    ensures var c, m := OpportunityClass(d), DeploymentMode(OpportunityClass(d), d);
      && (m.Defensive? <==> d.coreFailures != {} || d.account < 0.50 || !d.integrityOk || !d.noDeterioration)
      && (ModeRank(m) >= 2 <==> ClassRank(c) >= 3 && Capable(d, 0.75))
      && (ModeRank(m) >= 3 <==> ClassRank(c) >= 4 && Capable(d, 0.90))
  {
  }

  // ----- what is asked for -----------------------------------------------------------------------

  /** low at score zero, high at score one, and in proportion between them. */
  predicate Interpolates(factor: real, score: real, low: real, high: real) {
    factor - low == (high - low) * score
  }

  /** The factors by which class and evidence scale the base risk. */
  predicate ScalesBy(d: Derived, c: Class, opportunity: real, regime: real, account: real, execution: real, diversification: real) {
    && (match c
        case Rejected => opportunity == 0.0
        case Standard => opportunity == 0.85
        case Strong => opportunity == 1.0
        case HighConviction => opportunity == 1.15
        case Exceptional => opportunity == 1.25)
    && (if RegimeAlignment in d.missing then regime == 1.0 else Interpolates(regime, d.regime, 0.75, 1.25))
    && (if d.missing !! {AccountDrawdown, DailyRealizedLoss, WeeklyRealizedLoss} then Interpolates(account, d.account, 0.75, 1.15) else account == 0.85)
    && (if ExecutionQuality in d.missing then execution == 1.0 else Interpolates(execution, d.execution, 0.75, 1.25))
    && Interpolates(diversification, d.diversification, 0.65, 1.20)
  }

  /** The risk a strategy starts from is the one given with the trade, or else the configured one, within zero and the hard ceiling. */
  predicate StartsFrom(base: real, terms: Terms, config: Config) {
    var asked := if terms.baseRisk.Some? && terms.baseRisk.value != 0.0 then terms.baseRisk.value else config.baseRisk;
    if asked < 0.0 then base == 0.0 else if asked > 0.35 then base == 0.35 else base == asked
  }

  lemma RequestScalesBase(d: Derived, terms: Terms, config: Config, decision: Decision, base: real,
                          opportunity: real, regime: real, account: real, execution: real, diversification: real)
    requires IsDecision(d, terms, config, decision) && StartsFrom(base, terms, config)
    requires ScalesBy(d, decision.class_, opportunity, regime, account, execution, diversification)
    ensures decision.requested == Times(Times(Times(Times(Times(base, opportunity), regime), account), execution), diversification)
  {
    assert opportunity == OpportunityMultiplier(decision.class_) && regime == RegimeMultiplier(d) && account == AccountMultiplier(d);
    assert execution == ExecutionMultiplier(d) && diversification == DiversificationMultiplier(d);
    assert base == Base(terms, config);
  }

  // ----- what the exposures leave -----------------------------------------------------------------

  /** How much of a mode's trade cap a further risk may take: three quarters if the exposure is not known, and otherwise
      the part of the target that is still free. */
  predicate ExposureAllows(risk: real, tradeCap: real, current: Option<real>, target: real) {
    match current
    case None => risk <= 0.75 * tradeCap
    case Some(now) => Times(risk, Max(target, 0.000000000001)) <= Times(tradeCap, target - now)
  }

  lemma FreePart(risk: real, tradeCap: real, free: real, whole: real)
    requires 0.0 < risk <= tradeCap && whole > 0.0
    ensures risk <= Times(tradeCap, Clamp(free / whole)) <==> Times(risk, whole) <= Times(tradeCap, free)
  {
    var part := free / whole;
    assert part * whole == free;
    assert Times(tradeCap, free) == Times(Times(tradeCap, part), whole) by {
      assert tradeCap * (part * whole) == (tradeCap * part) * whole;
    }
    TimesOrder(Times(tradeCap, part), risk, whole);
    SignOfProduct(part, tradeCap);
    SignOfProduct(part - 1.0, tradeCap);
    assert (part - 1.0) * tradeCap == Times(tradeCap, part) - tradeCap;
    assert Times(tradeCap, 0.0) == 0.0 && Times(tradeCap, 1.0) == tradeCap;
  }

  lemma CeilingAllows(risk: real, tradeCap: real, current: Option<real>, target: real)
    requires 0.0 < risk <= tradeCap
    ensures risk <= Max(0.0, CapacityCeiling(tradeCap, current, target)) <==> ExposureAllows(risk, tradeCap, current, target)
  {
    if current.Some? {
      FreePart(risk, tradeCap, target - current.value, Max(target, 0.000000000001));
    }
  }

  /** The open heat and this risk stay within the mode's heat target, if the open heat is known. */
  predicate HeatAllows(risk: real, current: Option<real>, target: real) {
    current.Some? ==> current.value + risk <= target
  }

  /** The authority a strategy has: its own cap if one is given, else the hard ceiling if it is active and its base risk if not,
      and never more than the hard ceiling. */
  predicate AuthorityAllows(risk: real, terms: Terms, config: Config) {
    && risk <= 0.35
    && if terms.strategyCap.Some? && terms.strategyCap.value != 0.0 then risk <= terms.strategyCap.value
       else if terms.active then true
       else risk <= if terms.baseRisk.Some? && terms.baseRisk.value != 0.0 then terms.baseRisk.value else config.baseRisk
  }

  /** What each limit says of a positive risk. */
  predicate CapAllows(cap: Cap, risk: real, d: Derived, terms: Terms, config: Config, t: Targets, requested: real) {
    match cap
    case FormulaRequest => risk <= requested
    case StrategyAuthorization => AuthorityAllows(risk, terms, config)
    case DeploymentModeTradeRisk => risk <= t.tradeRiskCap
    case HardTradeRisk => risk <= 0.35
    case PortfolioHeatCap => risk <= t.tradeRiskCap && HeatAllows(risk, d.currentHeat, t.heat)
    case GrossExposureCap => ExposureAllows(risk, t.tradeRiskCap, d.currentGross, t.gross)
    case SymbolExposureCap => ExposureAllows(risk, t.tradeRiskCap, d.symbolExposure, config.maximumSymbolExposure)
    case ClusterExposureCap => ExposureAllows(risk, t.tradeRiskCap, d.clusterExposure, config.maximumClusterExposure)
  }

  lemma CapIsExact(cap: Cap, risk: real, c: Class, m: Mode, d: Derived, terms: Terms, config: Config)
    requires 0.0 < risk <= TargetsOf(m).tradeRiskCap
    ensures risk <= CapValue(cap, c, m, d, terms, config) <==>
      CapAllows(cap, risk, d, terms, config, TargetsOf(m), Requested(Base(terms, config), c, d))
  {
    match cap
    case GrossExposureCap => CeilingAllows(risk, TargetsOf(m).tradeRiskCap, d.currentGross, TargetsOf(m).gross);
    case SymbolExposureCap => CeilingAllows(risk, TargetsOf(m).tradeRiskCap, d.symbolExposure, config.maximumSymbolExposure);
    case ClusterExposureCap => CeilingAllows(risk, TargetsOf(m).tradeRiskCap, d.clusterExposure, config.maximumClusterExposure);
    case _ =>
  }

  predicate RiskAllowed(risk: real, d: Derived, terms: Terms, config: Config, t: Targets, requested: real) {
    risk <= t.tradeRiskCap && forall cap: Cap :: CapAllows(cap, risk, d, terms, config, t, requested)
  }

  lemma CapsAllow(risk: real, c: Class, m: Mode, d: Derived, terms: Terms, config: Config)
    requires risk > 0.0
    ensures (forall cap: Cap :: risk <= CapValue(cap, c, m, d, terms, config)) <==>
      RiskAllowed(risk, d, terms, config, TargetsOf(m), Requested(Base(terms, config), c, d))
  {
    assert CapValue(DeploymentModeTradeRisk, c, m, d, terms, config) == TargetsOf(m).tradeRiskCap;
    if risk <= TargetsOf(m).tradeRiskCap {
      forall cap: Cap
        ensures risk <= CapValue(cap, c, m, d, terms, config) <==>
          CapAllows(cap, risk, d, terms, config, TargetsOf(m), Requested(Base(terms, config), c, d))
      {
        CapIsExact(cap, risk, c, m, d, terms, config);
      }
    }
  }

  /** The engine permits a positive risk exactly when the opportunity is not rejected and every limit allows it; so what it
      recommends is the most that they allow. */
  lemma PermitsWhatIsAllowed(d: Derived, terms: Terms, config: Config, decision: Decision, risk: real)
    requires IsDecision(d, terms, config, decision) && risk > 0.0
    ensures risk <= decision.recommended <==>
      d.coreFailures == {} && RiskAllowed(risk, d, terms, config, TargetsOf(decision.mode), decision.requested)
  {
    CapsAllow(risk, decision.class_, decision.mode, d, terms, config);
  }

  /** A known exposure at or above its target permits nothing, below it at most the free part of the mode's trade cap, and an
      unknown one at most three quarters. */
  predicate Restrained(recommended: real, tradeCap: real, current: Option<real>, target: real) {
    match current
    case None => recommended <= 0.75 * tradeCap
    case Some(now) =>
      && (now >= target ==> recommended == 0.0)
      && (0.0 <= now < target ==> recommended * target <= tradeCap * (target - now))
  }

  lemma ExposureRestrains(risk: real, tradeCap: real, current: Option<real>, target: real)
    requires 0.0 < risk && 0.0 < tradeCap && ExposureAllows(risk, tradeCap, current, target)
    ensures Restrained(risk, tradeCap, current, target)
  {
    if current.Some? {
      var free, floor := target - current.value, 0.000000000001;
      SignOfProduct(Max(target, floor), risk);
      SignOfProduct(free, tradeCap);
      assert Times(risk, Max(target, floor)) > 0.0 && Times(tradeCap, free) > 0.0;
      if target < floor {
        assert risk * (floor - target) >= 0.0;
      }
    }
  }

  /** Gross exposure restrains what is recommended by the mode's target, symbol and cluster exposure by the configured maximum. */
  lemma ExposuresRestrain(d: Derived, terms: Terms, config: Config, decision: Decision)
    requires IsDecision(d, terms, config, decision)
    ensures var t := TargetsOf(decision.mode);
      && Restrained(decision.recommended, t.tradeRiskCap, d.currentGross, t.gross)
      && Restrained(decision.recommended, t.tradeRiskCap, d.symbolExposure, config.maximumSymbolExposure)
      && Restrained(decision.recommended, t.tradeRiskCap, d.clusterExposure, config.maximumClusterExposure)
  {
    var t, risk := TargetsOf(decision.mode), decision.recommended;
    RecommendedIsBounded(d, terms, config, decision);
    if risk > 0.0 {
      PermitsWhatIsAllowed(d, terms, config, decision, risk);
      assert CapAllows(GrossExposureCap, risk, d, terms, config, t, decision.requested);
      assert CapAllows(SymbolExposureCap, risk, d, terms, config, t, decision.requested);
      assert CapAllows(ClusterExposureCap, risk, d, terms, config, t, decision.requested);
      ExposureRestrains(risk, t.tradeRiskCap, d.currentGross, t.gross);
      ExposureRestrains(risk, t.tradeRiskCap, d.symbolExposure, config.maximumSymbolExposure);
      ExposureRestrains(risk, t.tradeRiskCap, d.clusterExposure, config.maximumClusterExposure);
    } else {
      NothingIsRestrained(t.tradeRiskCap, d.currentGross, t.gross);
      NothingIsRestrained(t.tradeRiskCap, d.symbolExposure, config.maximumSymbolExposure);
      NothingIsRestrained(t.tradeRiskCap, d.clusterExposure, config.maximumClusterExposure);
    }
  }

  lemma NothingIsRestrained(tradeCap: real, current: Option<real>, target: real)
    requires tradeCap > 0.0
    ensures Restrained(0.0, tradeCap, current, target)
  {
    if current.Some? {
      SignOfProduct(target - current.value, tradeCap);
    }
  }

  /** Each mode raises every target over the mode below it, from the defensive ones to the hard ceilings. */
  lemma ModesRaiseTargets(m: Mode, n: Mode)
    ensures ModeRank(m) < ModeRank(n) ==>
      && TargetsOf(m).tradeRiskCap < TargetsOf(n).tradeRiskCap && TargetsOf(m).heat < TargetsOf(n).heat
      && TargetsOf(m).gross < TargetsOf(n).gross && TargetsOf(m).positions < TargetsOf(n).positions
    ensures TargetsOf(Defensive) == Targets(0.15, 0.50, 20.0, 2) && TargetsOf(Aggressive) == Targets(0.35, 1.75, 50.0, 5)
    ensures TargetsOf(Normal).tradeRiskCap == 0.20 && TargetsOf(Opportunistic).tradeRiskCap == 0.30
    ensures TargetsOf(m).gross == 20.0 + 10.0 * ModeRank(m) as real && TargetsOf(m).positions == 2 + ModeRank(m)
    ensures !m.Defensive? ==> TargetsOf(m).heat == 1.0 + 0.25 * ModeRank(m) as real
  {
  }

  /** The operational risk that is reported is the one handed in, if there is one that is positive. */
  lemma OperationalInWords(d: Derived, terms: Terms, config: Config, decision: Decision)
    requires IsDecision(d, terms, config, decision)
    ensures match terms.operational
      case Some(risk) => decision.operational == if risk > 0.0 then risk else 0.0
      case None => decision.operational == 0.0
  {
  }
}
