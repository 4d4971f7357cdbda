/**
The adaptive sizing of app/adaptive_sizing.py: the stop risk that conviction permits becomes a
notional, every ceiling can only lower it, and the revalidation before submission can only lower
what was displayed for approval. Sizes come from the exact decimal sidecars of the inputs; the
float projections beside them only decide which ceilings are expected.
*/
module Sizing {
  import opened Wrappers
  import opened Sums
  import opened Quotients

  const TOLERANCE := 0.00000001

  const CANONICAL_CEILING_ORDER := [
    "stage", "stop_risk", "displayed_quantity", "displayed_stop_risk", "deployment_mode_heat", "deployment_mode_gross",
    "equity", "absolute", "cash_available", "cash_usage", "cash", "buying_power", "symbol", "cluster", "portfolio",
    "allocation", "exploration", "probe", "phase3_heat_cap", "gross_exposure_cap", "exploration_heat_cap",
    "exploration_strategy_cap", "exploration_gross_cap", "probe_heat_cap", "probe_gross_cap", "probe_active_count_cap"]

  /** An exact value as it arrives: not there, not a finite number, or a number. */
  datatype Sidecar = Absent | Unreadable | Exact(value: real)

  datatype Stage = Proposal | FinalRevalidation | OtherStage

  /** The float projections, as far as they are finite. */
  datatype Projection = Projection(
    equity: real,
    entry: real,
    stopDistance: real,
    heatBefore: Option<real>,
    heatTarget: Option<real>,
    grossBefore: Option<real>,
    grossTarget: Option<real>,
    displayedQuantity: Option<real>,
    displayedStopRisk: Option<real>)

  datatype Sidecars = Sidecars(
    equity: Sidecar,
    entry: Sidecar,
    stopDistance: Sidecar,
    recommendedPct: Sidecar,
    operationalNotional: Sidecar,
    operationalRequested: Option<Sidecar>,
    operationalQuantity: Option<Sidecar>,
    operationalStopRisk: Option<Sidecar>,
    ceilings: Option<map<string, Sidecar>>,
    hardTradePct: Sidecar,
    heatBefore: Sidecar,
    grossBefore: Sidecar,
    heatTarget: Sidecar,
    grossTarget: Sidecar,
    displayedQuantity: Sidecar,
    displayedStopRisk: Sidecar,
    minimum: Sidecar,
    displayedCeiling: Sidecar)

  datatype Request = Request(
    buys: bool,
    timed: bool,
    stage: Stage,
    active: bool,
    stageCapUsed: bool,
    criticalMissing: bool,
    requestMissing: bool,
    blocked: bool,
    finalBlocked: bool,
    ceilingNames: set<string>,
    displayedQuantityGiven: bool,
    displayedStopRiskGiven: bool,
    projection: Projection,
    exact: Sidecars)

  datatype Fault = EvaluationTimeInvalid | StageInvalid | EntryIsZero

  datatype Outcome = StayedEqual | Reduced | BecameBlocked | IncreaseConstrained

  /** displayed is only known on the exact path. */
  datatype Decision = Decision(
    authoritative: bool,
    constrained: real,
    quantity: real,
    stopRisk: real,
    displayed: Option<real>,
    final: real,
    finalQuantity: real,
    outcome: Option<Outcome>)

  // ----- stop risk and notional -----

  function Percent(equity: real, pct: real): real {
    equity * pct / 100.0
  }

  /** The notional whose stop loses this much. */
  function NotionalOf(risk: real, entry: real, stopDistance: real): real
    requires stopDistance > 0.0
  {
    risk * entry / stopDistance
  }

  function QuantityOf(notional: real, entry: real): real {
    if entry > 0.0 then notional / entry else 0.0
  }

  function StopRiskOf(notional: real, entry: real, stopDistance: real): real {
    Times(QuantityOf(notional, entry), stopDistance)
  }

  // ----- which ceilings are expected -----

  predicate Sized(p: Projection) {
    p.equity > 0.0 && p.entry > 0.0 && p.stopDistance > 0.0
  }

  /** The names in the ceilings dictionary after the engine has edited it. */
  function ExpectedCeilings(r: Request): set<string> {
    var p := r.projection;
    (r.ceilingNames
     - (if r.stageCapUsed then {} else {"stage"})
     - (if r.active then {"allocation"} else {})
     + (if r.active && Sized(p) then {"stop_risk"} else {})
     - {"phase3_heat_cap", "gross_exposure_cap"})
    + (if Sized(p) && p.heatBefore.Some? && p.heatTarget.Some? then {"deployment_mode_heat"} else {})
    + (if p.equity > 0.0 && p.grossBefore.Some? && p.grossTarget.Some? then {"deployment_mode_gross"} else {})
    + (if r.stage.FinalRevalidation? && p.displayedQuantity.Some? && p.entry > 0.0 then {"displayed_quantity"} else {})
    + (if r.stage.FinalRevalidation? && p.displayedStopRisk.Some? && p.entry > 0.0 && p.stopDistance > 0.0 then {"displayed_stop_risk"} else {})
  }

  function DerivedCeilings(r: Request): set<string> {
    {"deployment_mode_heat", "deployment_mode_gross"} + if r.active then {"stop_risk"} else {}
  }

  // ----- the exact ceilings -----

  predicate Good(s: Sidecar) {
    s.Exact? && s.value >= 0.0
  }

  predicate GoodIfGiven(o: Option<Sidecar>) {
    o.Some? ==> Good(o.value)
  }

  /** A listed ceiling stops the decision when its sidecar is not listed or is negative; an unreadable one is passed over. */
  predicate CeilingRefused(name: string, derived: set<string>, sidecars: map<string, Sidecar>) {
    if name in sidecars then sidecars[name].Exact? && sidecars[name].value < 0.0
    else name !in derived
  }

  function ListedCeilings(names: set<string>, sidecars: map<string, Sidecar>): map<string, real> {
    map name | name in names && name in sidecars && sidecars[name].Exact? :: sidecars[name].value
  }

  /** equity, entry, stop distance and permitted percentage, all read and none negative */
  predicate CoreRead(x: Sidecars) {
    Good(x.equity) && Good(x.entry) && Good(x.stopDistance) && Good(x.recommendedPct)
  }

  predicate ExactlySized(x: Sidecars)
    requires CoreRead(x)
  {
    x.equity.value > 0.0 && x.entry.value > 0.0 && x.stopDistance.value > 0.0
  }

  function WithStopRisk(r: Request, ceilings: map<string, real>): map<string, real>
    requires CoreRead(r.exact) && (r.active && ExactlySized(r.exact) ==> Good(r.exact.hardTradePct))
  {
    var x := r.exact;
    if r.active && ExactlySized(x) then
      ceilings["stop_risk" := NotionalOf(Percent(x.equity.value, x.hardTradePct.value), x.entry.value, x.stopDistance.value)]
    else ceilings
  }

  predicate TargetsRead(x: Sidecars) {
    Good(x.heatBefore) && Good(x.grossBefore) && Good(x.heatTarget) && Good(x.grossTarget)
  }

  function WithTargets(x: Sidecars, ceilings: map<string, real>): map<string, real>
    requires CoreRead(x) && TargetsRead(x)
  {
    var heat := if ExactlySized(x) then
      ceilings["deployment_mode_heat" :=
        NotionalOf(Percent(x.equity.value, Max(0.0, x.heatTarget.value - x.heatBefore.value)), x.entry.value, x.stopDistance.value)]
      else ceilings;
    if x.equity.value > 0.0 then heat["deployment_mode_gross" := Percent(x.equity.value, Max(0.0, x.grossTarget.value - x.grossBefore.value))]
    else heat
  }

  /** What was displayed for approval is read exactly whenever it was displayed. */
  predicate DisplayedRead(r: Request)
    requires CoreRead(r.exact)
  {
    var x := r.exact;
    r.stage.FinalRevalidation? ==>
      && (r.displayedQuantityGiven ==> !x.displayedQuantity.Absent?)
      && (r.displayedStopRiskGiven ==> !x.displayedStopRisk.Absent?)
      && (!x.displayedQuantity.Absent? && x.entry.value > 0.0 ==> Good(x.displayedQuantity))
      && (!x.displayedStopRisk.Absent? && x.entry.value > 0.0 && x.stopDistance.value > 0.0 ==> Good(x.displayedStopRisk))
  }

  function WithDisplayed(r: Request, ceilings: map<string, real>): map<string, real>
    requires CoreRead(r.exact) && DisplayedRead(r)
  {
    var x := r.exact;
    var quantity := if r.stage.FinalRevalidation? && !x.displayedQuantity.Absent? && x.entry.value > 0.0 then
      ceilings["displayed_quantity" := Times(x.displayedQuantity.value, x.entry.value)]
      else ceilings;
    if r.stage.FinalRevalidation? && !x.displayedStopRisk.Absent? && x.entry.value > 0.0 && x.stopDistance.value > 0.0 then
      quantity["displayed_stop_risk" := NotionalOf(x.displayedStopRisk.value, x.entry.value, x.stopDistance.value)]
    else quantity
  }

  predicate CeilingsRead(r: Request) {
    && CoreRead(r.exact)
    && r.exact.ceilings.Some?
    && (forall name :: name in ExpectedCeilings(r) ==> !CeilingRefused(name, DerivedCeilings(r), r.exact.ceilings.value))
    && (r.active && ExactlySized(r.exact) ==> Good(r.exact.hardTradePct))
    && TargetsRead(r.exact)
    && DisplayedRead(r)
  }

  function CeilingsOf(r: Request): map<string, real>
    requires CeilingsRead(r)
  {
    WithDisplayed(r, WithTargets(r.exact, WithStopRisk(r, ListedCeilings(ExpectedCeilings(r), r.exact.ceilings.value))))
  }

  /** The listed ceilings are taken over one by one. */
  method TakeListed(expected: set<string>, derived: set<string>, listed: map<string, Sidecar>) returns (taken: Option<map<string, real>>)
    ensures taken.Some? <==> forall name :: name in expected ==> !CeilingRefused(name, derived, listed)
    ensures taken.Some? ==> taken.value == ListedCeilings(expected, listed)
  {
    var ceilings: map<string, real>, remaining := map[], expected;
    while remaining != {}
      invariant remaining <= expected
      invariant ceilings == ListedCeilings(expected - remaining, listed)
      invariant forall name :: name in expected - remaining ==> !CeilingRefused(name, derived, listed)
      decreases |remaining|
    {
      var name :| name in remaining;
      if CeilingRefused(name, derived, listed) {
        return None;
      }
      if name in listed && listed[name].Exact? {
        ceilings := ceilings[name := listed[name].value];
      }
      remaining := remaining - {name};
    }
    assert expected - {} == expected;
    return Some(ceilings);
  }

  /** Then the engine's own ceilings replace them or are added. */
  method ExactCeilings(r: Request) returns (ceilings: Option<map<string, real>>)
    requires CoreRead(r.exact)
    ensures ceilings == if CeilingsRead(r) then Some(CeilingsOf(r)) else None
  {
    if r.exact.ceilings.None? {
      return None;
    }
    var taken := TakeListed(ExpectedCeilings(r), DerivedCeilings(r), r.exact.ceilings.value);
    if taken.None? || (r.active && ExactlySized(r.exact) && !Good(r.exact.hardTradePct)) || !TargetsRead(r.exact) || !DisplayedRead(r) {
      return None;
    }
    return Some(WithDisplayed(r, WithTargets(r.exact, WithStopRisk(r, taken.value))));
  }

  // ----- the size -----

  ghost predicate IsLeast(least: real, requested: real, ceilings: map<string, real>) {
    && least <= requested && (forall name <- ceilings :: least <= ceilings[name])
    && (least == requested || exists name <- ceilings :: least == ceilings[name])
  }

  /** The fold: canonical names first, then the others. */
  method Constrain(requested: real, ceilings: map<string, real>) returns (constrained: real)
    ensures IsLeast(constrained, requested, ceilings)
  {
    constrained := requested;
    var remaining := ceilings.Keys;
    for i := 0 to |CANONICAL_CEILING_ORDER|
      invariant remaining <= ceilings.Keys
      invariant constrained <= requested && forall name <- ceilings.Keys - remaining :: constrained <= ceilings[name]
      invariant constrained == requested || exists name <- ceilings :: constrained == ceilings[name]
    {
      var name := CANONICAL_CEILING_ORDER[i];
      if name in ceilings {
        constrained := Min(constrained, ceilings[name]);
        remaining := remaining - {name};
      }
    }
    while remaining != {}
      invariant remaining <= ceilings.Keys
      invariant constrained <= requested && forall name <- ceilings.Keys - remaining :: constrained <= ceilings[name]
      invariant constrained == requested || exists name <- ceilings :: constrained == ceilings[name]
      decreases |remaining|
    {
      var name :| name in remaining;
      constrained := Min(constrained, ceilings[name]);
      remaining := remaining - {name};
    }
  }

  function RequestedOf(r: Request): real
    requires CoreRead(r.exact)
  {
    var x := r.exact;
    if ExactlySized(x) && !r.requestMissing then NotionalOf(Percent(x.equity.value, x.recommendedPct.value), x.entry.value, x.stopDistance.value)
    else 0.0
  }

  /** Missing inputs, a block, or less than the minimum leave nothing. */
  function Gate(r: Request, least: real): real
    requires Good(r.exact.minimum)
  {
    if r.criticalMissing || r.blocked || (least > 0.0 && least < r.exact.minimum.value) then 0.0 else least
  }

  predicate DisplayedCeilingRead(r: Request) {
    if r.exact.displayedCeiling.Absent? then r.stage.Proposal? else Good(r.exact.displayedCeiling)
  }

  /** Everything that is read before the quantities are compared. */
  predicate SizeRead(r: Request) {
    && CeilingsRead(r) && Good(r.exact.operationalNotional) && GoodIfGiven(r.exact.operationalRequested)
    && Good(r.exact.minimum) && DisplayedCeilingRead(r)
  }

  /** The comparison divides by the entry price when no operational quantity is given. */
  predicate DividesByZero(r: Request)
    requires SizeRead(r)
  {
    r.exact.operationalQuantity.None? && r.exact.entry.value == 0.0
  }

  predicate ExactlyRead(r: Request) {
    SizeRead(r) && GoodIfGiven(r.exact.operationalQuantity) && GoodIfGiven(r.exact.operationalStopRisk)
  }

  function DisplayedOf(r: Request, constrained: real): real
    requires DisplayedCeilingRead(r)
  {
    if r.exact.displayedCeiling.Absent? then constrained else r.exact.displayedCeiling.value
  }

  function OutcomeOf(r: Request, constrained: real, displayed: real, future: real): Outcome {
    if r.finalBlocked || constrained <= 0.0 then BecameBlocked
    else if constrained > displayed + TOLERANCE then IncreaseConstrained
    else if future < displayed - TOLERANCE then Reduced
    else StayedEqual
  }

  predicate Concludes(r: Request, d: Decision, displayed: real, future: real) {
    && d.outcome == Some(OutcomeOf(r, d.constrained, displayed, future))
    && d.final == if d.outcome == Some(BecameBlocked) then 0.0 else future
  }

  /** The gated least of request and ceilings, and at revalidation nothing above what was displayed. */
  ghost predicate IsSized(r: Request, requested: real, ceilings: map<string, real>, d: Decision)
    requires ExactlyRead(r)
  {
    var x := r.exact;
    && d.authoritative
    && (exists least :: IsLeast(least, requested, ceilings) && d.constrained == Gate(r, least))
    && d.quantity == QuantityOf(d.constrained, x.entry.value)
    && d.stopRisk == Times(d.quantity, x.stopDistance.value)
    && d.displayed == Some(DisplayedOf(r, d.constrained))
    && if r.stage.FinalRevalidation? then
         && (exists future :: IsLeast(future, Min(d.displayed.value, d.constrained), ceilings) && Concludes(r, d, d.displayed.value, future))
         && d.finalQuantity == QuantityOf(d.final, x.entry.value)
       else d.final == d.constrained && d.finalQuantity == d.quantity && d.outcome == None
  }

  /** The exact path. */
  ghost predicate IsExactDecision(r: Request, d: Decision)
    requires ExactlyRead(r)
  {
    IsSized(r, RequestedOf(r), CeilingsOf(r), d)
  }

  /** Without the exact path there is no size. */
  predicate IsFailClosed(r: Request, d: Decision) {
    && !d.authoritative && d.constrained == 0.0 && d.quantity == 0.0 && d.stopRisk == 0.0
    && d.displayed == None && d.final == 0.0 && d.finalQuantity == 0.0
    && d.outcome == if r.stage.FinalRevalidation? then Some(BecameBlocked) else None
  }

  ghost predicate IsSizing(r: Request, result: Result<Option<Decision>, Fault>) {
    if !r.buys then result == Ok(None)
    else if !r.timed then result == Err(EvaluationTimeInvalid)
    else if r.stage.OtherStage? then result == Err(StageInvalid)
    else if SizeRead(r) && GoodIfGiven(r.exact.operationalQuantity) && DividesByZero(r) then result == Err(EntryIsZero)
    else
      && result.Ok? && result.value.Some?
      && if ExactlyRead(r) then IsExactDecision(r, result.value.value) else IsFailClosed(r, result.value.value)
  }

  method Evaluate(r: Request) returns (result: Result<Option<Decision>, Fault>)
    ensures IsSizing(r, result)
  {
    if !r.buys {
      return Ok(None);
    }
    if !r.timed {
      return Err(EvaluationTimeInvalid);
    }
    if r.stage.OtherStage? {
      return Err(StageInvalid);
    }
    if SizeRead(r) && GoodIfGiven(r.exact.operationalQuantity) && DividesByZero(r) {
      return Err(EntryIsZero);
    }
    if !ExactlyRead(r) {
      return Ok(Some(Decision(false, 0.0, 0.0, 0.0, None, 0.0, 0.0, if r.stage.FinalRevalidation? then Some(BecameBlocked) else None)));
    }
    var decision := EvaluateExactly(r);
    return Ok(Some(decision));
  }

  method EvaluateExactly(r: Request) returns (d: Decision)
    requires ExactlyRead(r)
    ensures IsExactDecision(r, d)
  {
    var x := r.exact;
    var read := ExactCeilings(r);
    var ceilings := read.value;
    var least := Constrain(RequestedOf(r), ceilings);
    var constrained := least;
    if r.criticalMissing {
      constrained := 0.0;
    } else if r.blocked || (constrained > 0.0 && constrained < x.minimum.value) {
      constrained := 0.0;
    }
    assert constrained == Gate(r, least);
    var quantity := QuantityOf(constrained, x.entry.value);
    var stopRisk := Times(quantity, x.stopDistance.value);
    var displayed := DisplayedOf(r, constrained);
    if r.stage.FinalRevalidation? {
      var future := Constrain(Min(displayed, constrained), ceilings);
      var outcome := OutcomeOf(r, constrained, displayed, future);
      var final := if outcome.BecameBlocked? then 0.0 else future;
      return Decision(true, constrained, quantity, stopRisk, Some(displayed), final, QuantityOf(final, x.entry.value), Some(outcome));
    }
    return Decision(true, constrained, quantity, stopRisk, Some(displayed), constrained, quantity, None);
  }

  // ----- ceilings only lower -----

  lemma NotionalIsNonnegative(risk: real, entry: real, stopDistance: real)
    requires risk >= 0.0 && entry > 0.0 && stopDistance > 0.0
    ensures NotionalOf(risk, entry, stopDistance) >= 0.0
  {
  }

  lemma PercentIsNonnegative(equity: real, pct: real)
    requires equity >= 0.0 && pct >= 0.0
    ensures Percent(equity, pct) >= 0.0
  {
  }

  lemma TimesIsNonnegative(a: real, b: real)
    requires a >= 0.0 && b >= 0.0
    ensures Times(a, b) >= 0.0
  {
  }

  lemma CeilingsAreNonnegative(r: Request)
    requires CeilingsRead(r)
    ensures Nonnegative(CeilingsOf(r)) && RequestedOf(r) >= 0.0
  {
    var x := r.exact;
    PercentIsNonnegative(x.equity.value, x.recommendedPct.value);
    PercentIsNonnegative(x.equity.value, Max(0.0, x.heatTarget.value - x.heatBefore.value));
    PercentIsNonnegative(x.equity.value, Max(0.0, x.grossTarget.value - x.grossBefore.value));
    if ExactlySized(x) {
      NotionalIsNonnegative(Percent(x.equity.value, x.recommendedPct.value), x.entry.value, x.stopDistance.value);
      NotionalIsNonnegative(Percent(x.equity.value, Max(0.0, x.heatTarget.value - x.heatBefore.value)), x.entry.value, x.stopDistance.value);
      if r.active {
        PercentIsNonnegative(x.equity.value, x.hardTradePct.value);
        NotionalIsNonnegative(Percent(x.equity.value, x.hardTradePct.value), x.entry.value, x.stopDistance.value);
      }
    }
    if r.stage.FinalRevalidation? && Good(x.displayedQuantity) {
      TimesIsNonnegative(x.displayedQuantity.value, x.entry.value);
    }
    if r.stage.FinalRevalidation? && Good(x.displayedStopRisk) && x.entry.value > 0.0 && x.stopDistance.value > 0.0 {
      NotionalIsNonnegative(x.displayedStopRisk.value, x.entry.value, x.stopDistance.value);
    }
    forall name | name in ListedCeilings(ExpectedCeilings(r), x.ceilings.value)
      ensures x.ceilings.value[name].value >= 0.0
    {
      assert !CeilingRefused(name, DerivedCeilings(r), x.ceilings.value);
    }
  }

  lemma SizeFallsWith(r: Request, requested: real, ceilings: map<string, real>, d: Decision)
    requires ExactlyRead(r) && IsSized(r, requested, ceilings, d)
    requires requested >= 0.0 && Nonnegative(ceilings)
    ensures 0.0 <= d.constrained <= requested
    ensures forall name <- ceilings :: d.constrained <= ceilings[name]
    ensures 0.0 <= d.final <= d.constrained
    ensures r.stage.FinalRevalidation? ==> d.final <= d.displayed.value
    ensures r.criticalMissing || r.blocked ==> d.constrained == 0.0
    ensures r.stage.FinalRevalidation? && r.finalBlocked ==> d.final == 0.0
  {
  }

  /**
  No size is negative, none is above the request or a ceiling, and the final one is not above what
  was displayed; whatever is missing or blocked leaves nothing.
  */
  lemma SizeOnlyFalls(r: Request, d: Decision)
    requires ExactlyRead(r) && IsExactDecision(r, d)
    ensures 0.0 <= d.constrained <= RequestedOf(r)
    ensures forall name <- CeilingsOf(r) :: d.constrained <= CeilingsOf(r)[name]
    ensures 0.0 <= d.final <= d.constrained
    ensures r.stage.FinalRevalidation? ==> d.final <= d.displayed.value
    ensures r.criticalMissing || r.blocked ==> d.constrained == 0.0
    ensures r.stage.FinalRevalidation? && r.finalBlocked ==> d.final == 0.0
  {
    CeilingsAreNonnegative(r);
    SizeFallsWith(r, RequestedOf(r), CeilingsOf(r), d);
  }

  // ----- what a ceiling means in shares and in risk -----

  lemma QuantityOfProduct(notional: real, quantity: real, entry: real)
    requires entry > 0.0 && notional <= Times(quantity, entry)
    ensures QuantityOf(notional, entry) <= quantity
  {
    assert (notional / entry) * entry == notional;
    SignOfProduct(quantity - notional / entry, entry);
  }

  lemma NotionalWithinRisk(notional: real, risk: real, entry: real, stopDistance: real)
    requires entry > 0.0 && stopDistance > 0.0 && notional <= NotionalOf(risk, entry, stopDistance)
    ensures StopRiskOf(notional, entry, stopDistance) <= risk
  {
    var quantity := notional / entry;
    assert quantity * entry == notional;
    assert (risk * entry / stopDistance) * stopDistance == risk * entry;
    assert (risk * entry / stopDistance - notional) * stopDistance >= 0.0;
    assert (risk - quantity * stopDistance) * entry >= 0.0;
    SignOfProduct(risk - quantity * stopDistance, entry);
  }

  /** The approved quantity holds, for the constrained and for the final size. */
  lemma ApprovedQuantityHolds(r: Request, d: Decision)
    requires ExactlyRead(r) && IsExactDecision(r, d) && r.stage.FinalRevalidation?
    requires !r.exact.displayedQuantity.Absent? && r.exact.entry.value > 0.0
    ensures d.finalQuantity <= d.quantity <= r.exact.displayedQuantity.value
  {
    SizeOnlyFalls(r, d);
    var entry := r.exact.entry.value;
    assert CeilingsOf(r)["displayed_quantity"] == Times(r.exact.displayedQuantity.value, entry);
    QuantityOfProduct(d.constrained, r.exact.displayedQuantity.value, entry);
    QuantityIsMonotone(d.final, d.constrained, entry);
  }

  lemma QuantityIsMonotone(a: real, b: real, entry: real)
    requires entry > 0.0 && a <= b
    ensures QuantityOf(a, entry) <= QuantityOf(b, entry)
  {
    assert (a / entry) * entry == a && (b / entry) * entry == b;
    SignOfProduct(b / entry - a / entry, entry);
  }

  lemma NothingWithoutASize(r: Request, d: Decision)
    requires ExactlyRead(r) && IsExactDecision(r, d) && !ExactlySized(r.exact)
    ensures d.constrained == 0.0 && d.stopRisk == 0.0
  {
    SizeOnlyFalls(r, d);
  }

  /** The risk at the stop stays within what conviction permits, the hard limit of an active strategy and the approved risk. */
  lemma StopRiskHolds(r: Request, d: Decision)
    requires ExactlyRead(r) && IsExactDecision(r, d) && ExactlySized(r.exact)
    ensures d.stopRisk <= Percent(r.exact.equity.value, r.exact.recommendedPct.value)
    ensures r.active ==> d.stopRisk <= Percent(r.exact.equity.value, r.exact.hardTradePct.value)
    ensures r.stage.FinalRevalidation? && !r.exact.displayedStopRisk.Absent? ==> d.stopRisk <= r.exact.displayedStopRisk.value
    ensures d.stopRisk <= Percent(r.exact.equity.value, Max(0.0, r.exact.heatTarget.value - r.exact.heatBefore.value))
  {
    SizeOnlyFalls(r, d);
    var x, ceilings := r.exact, CeilingsOf(r);
    var equity, entry, stop := x.equity.value, x.entry.value, x.stopDistance.value;
    assert d.stopRisk == StopRiskOf(d.constrained, entry, stop);
    PercentIsNonnegative(equity, x.recommendedPct.value);
    if r.requestMissing {
      NotionalIsNonnegative(Percent(equity, x.recommendedPct.value), entry, stop);
    }
    NotionalWithinRisk(d.constrained, Percent(equity, x.recommendedPct.value), entry, stop);
    HeatCeiling(r);
    NotionalWithinRisk(d.constrained, Percent(equity, Max(0.0, x.heatTarget.value - x.heatBefore.value)), entry, stop);
    if r.active {
      ActiveCeiling(r);
      NotionalWithinRisk(d.constrained, Percent(equity, x.hardTradePct.value), entry, stop);
    }
    if r.stage.FinalRevalidation? && !x.displayedStopRisk.Absent? {
      ApprovedRiskCeiling(r);
      NotionalWithinRisk(d.constrained, x.displayedStopRisk.value, entry, stop);
    }
  }

  lemma HeatCeiling(r: Request)
    requires CeilingsRead(r) && ExactlySized(r.exact)
    ensures "deployment_mode_heat" in CeilingsOf(r)
    ensures var x := r.exact;
      CeilingsOf(r)["deployment_mode_heat"]
      == NotionalOf(Percent(x.equity.value, Max(0.0, x.heatTarget.value - x.heatBefore.value)), x.entry.value, x.stopDistance.value)
  {
  }

  lemma ActiveCeiling(r: Request)
    requires CeilingsRead(r) && ExactlySized(r.exact) && r.active
    ensures "stop_risk" in CeilingsOf(r)
    ensures var x := r.exact;
      CeilingsOf(r)["stop_risk"] == NotionalOf(Percent(x.equity.value, x.hardTradePct.value), x.entry.value, x.stopDistance.value)
  {
  }

  lemma ApprovedRiskCeiling(r: Request)
    requires CeilingsRead(r) && ExactlySized(r.exact) && r.stage.FinalRevalidation? && !r.exact.displayedStopRisk.Absent?
    ensures "displayed_stop_risk" in CeilingsOf(r)
    ensures var x := r.exact;
      CeilingsOf(r)["displayed_stop_risk"] == NotionalOf(x.displayedStopRisk.value, x.entry.value, x.stopDistance.value)
  {
  }

  function PercentOf(amount: real, equity: real): real
    requires equity > 0.0
  {
    amount / equity * 100.0
  }

  lemma PercentWithin(amount: real, equity: real, pct: real)
    requires equity > 0.0 && amount <= Percent(equity, pct)
    ensures PercentOf(amount, equity) <= pct
  {
    assert (amount / equity) * equity == amount;
    SignOfProduct(pct / 100.0 - amount / equity, equity);
  }

  /** Heat and gross exposure end at or below the larger of where they were and the mode's target. */
  lemma TargetsHold(r: Request, d: Decision)
    requires ExactlyRead(r) && IsExactDecision(r, d) && r.exact.equity.value > 0.0
    ensures var x := r.exact;
      && x.heatBefore.value + PercentOf(d.stopRisk, x.equity.value) <= Max(x.heatBefore.value, x.heatTarget.value)
      && x.grossBefore.value + PercentOf(d.constrained, x.equity.value) <= Max(x.grossBefore.value, x.grossTarget.value)
  {
    var x := r.exact;
    SizeOnlyFalls(r, d);
    assert d.constrained <= CeilingsOf(r)["deployment_mode_gross"];
    PercentWithin(d.constrained, x.equity.value, Max(0.0, x.grossTarget.value - x.grossBefore.value));
    if ExactlySized(x) {
      StopRiskHolds(r, d);
    } else {
      NothingWithoutASize(r, d);
      PercentIsNonnegative(x.equity.value, Max(0.0, x.heatTarget.value - x.heatBefore.value));
    }
    PercentWithin(d.stopRisk, x.equity.value, Max(0.0, x.heatTarget.value - x.heatBefore.value));
  }

  /** What the recorded outcome of a revalidation says about the size. */
  lemma OutcomeTellsTheSize(r: Request, d: Decision)
    requires ExactlyRead(r) && IsExactDecision(r, d) && r.stage.FinalRevalidation?
    ensures d.outcome.Some?
    ensures match d.outcome.value
      case BecameBlocked => d.final == 0.0
      case IncreaseConstrained => d.final <= d.displayed.value < d.constrained
      case Reduced => d.final < d.displayed.value - TOLERANCE
      case StayedEqual => d.displayed.value - TOLERANCE <= d.final <= d.displayed.value
  {
    SizeOnlyFalls(r, d);
  }

  // ----- both stages -----

  /** Revalidating a proposal never raises it: the proposal's size is what is displayed for approval. */
  lemma ApprovalNeverGrows(proposal: Request, p: Decision, approval: Request, a: Decision)
    requires ExactlyRead(proposal) && IsExactDecision(proposal, p) && proposal.stage.Proposal? && proposal.exact.displayedCeiling.Absent?
    requires ExactlyRead(approval) && IsExactDecision(approval, a) && approval.stage.FinalRevalidation?
    requires approval.exact.displayedCeiling == Exact(p.displayed.value)
    ensures a.final <= p.final
  {
    SizeOnlyFalls(approval, a);
  }

  /** Every input that fails to be exact, is missing or is blocked gives the size zero. */
  lemma DegradedInputsGiveNothing(r: Request, result: Result<Option<Decision>, Fault>)
    requires IsSizing(r, result) && result.Ok? && result.value.Some?
    requires !ExactlyRead(r) || r.criticalMissing || r.blocked || (r.stage.FinalRevalidation? && r.finalBlocked)
    ensures result.value.value.final == 0.0 && result.value.value.finalQuantity == 0.0
  {
    var d := result.value.value;
    if ExactlyRead(r) {
      SizeOnlyFalls(r, d);
      assert d.final == 0.0;
    }
  }

  /**
  An approved quantity or risk is expected among the listed sidecars as soon as it is displayed, so a
  revalidation that lists only the sizing caps is refused, whatever its exact displayed values are.
  */
  lemma DisplayedCeilingNeedsListedSidecar(r: Request, result: Result<Option<Decision>, Fault>)
    requires IsSizing(r, result) && result.Ok? && result.value.Some? && r.stage.FinalRevalidation?
    requires r.projection.entry > 0.0
    requires r.exact.ceilings.Some?
    requires (r.projection.displayedQuantity.Some? && "displayed_quantity" !in r.exact.ceilings.value)
      || (r.projection.displayedStopRisk.Some? && r.projection.stopDistance > 0.0 && "displayed_stop_risk" !in r.exact.ceilings.value)
    ensures !ExactlyRead(r) && result.value.value.final == 0.0
  {
    var name := if r.projection.displayedQuantity.Some? && "displayed_quantity" !in r.exact.ceilings.value then "displayed_quantity" else "displayed_stop_risk";
    assert name in ExpectedCeilings(r);
    assert CeilingRefused(name, DerivedCeilings(r), r.exact.ceilings.value);
  }
}
