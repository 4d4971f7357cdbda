/**
What the sizing engine (app/adaptive_sizing.py, lines 349-390 and 400-545) grants, said of the request alone: which of the caller's
ceilings bind, and exactly which sizes the exact inputs permit.
*/
module SizingLimits {
  import opened Wrappers
  import opened Sums
  import opened Quotients
  import opened Sizing

  // ----- the caller's ceilings -----

  /** A ceiling of the caller that the engine keeps: neither the stage cap where it is off, nor the equal-risk allocation of an
      active strategy, nor one of the two that the deployment mode replaces. */
  predicate Kept(r: Request, name: string) {
    && name in r.ceilingNames
    && (name == "stage" ==> r.stageCapUsed)
    && (name == "allocation" ==> !r.active)
    && name != "phase3_heat_cap" && name != "gross_exposure_cap"
  }

  predicate Positive(s: Sidecar) {
    s.Exact? && s.value > 0.0
  }

  predicate SizedExactly(r: Request) {
    Positive(r.exact.equity) && Positive(r.exact.entry) && Positive(r.exact.stopDistance)
  }

  /** The engine computes this ceiling itself, and its own value replaces the caller's. */
  predicate Computed(r: Request, name: string) {
    || (name == "stop_risk" && r.active && SizedExactly(r))
    || (name == "deployment_mode_heat" && SizedExactly(r))
    || (name == "deployment_mode_gross" && Positive(r.exact.equity))
    || (name == "displayed_quantity" && r.stage.FinalRevalidation? && !r.exact.displayedQuantity.Absent? && Positive(r.exact.entry))
    || (name == "displayed_stop_risk" && r.stage.FinalRevalidation? && !r.exact.displayedStopRisk.Absent?
        && Positive(r.exact.entry) && Positive(r.exact.stopDistance))
  }

  /** The engine looks for an exact value of this ceiling: it is kept, or the projections let the engine expect it. */
  predicate LookedFor(r: Request, name: string) {
    var p := r.projection;
    || Kept(r, name)
    || (name == "stop_risk" && r.active && p.equity > 0.0 && p.entry > 0.0 && p.stopDistance > 0.0)
    || (name == "deployment_mode_heat" && p.equity > 0.0 && p.entry > 0.0 && p.stopDistance > 0.0 && p.heatBefore.Some? && p.heatTarget.Some?)
    || (name == "deployment_mode_gross" && p.equity > 0.0 && p.grossBefore.Some? && p.grossTarget.Some?)
    || (name == "displayed_quantity" && r.stage.FinalRevalidation? && p.displayedQuantity.Some? && p.entry > 0.0)
    || (name == "displayed_stop_risk" && r.stage.FinalRevalidation? && p.displayedStopRisk.Some? && p.entry > 0.0 && p.stopDistance > 0.0)
  }

  lemma ExpectedAreLookedFor(r: Request, name: string)
    ensures name in ExpectedCeilings(r) <==> LookedFor(r, name)
  {
  }

  /** The exact value of a ceiling that the engine looks for and does not compute itself. */
  predicate Listed(r: Request, name: string, value: real) {
    && LookedFor(r, name) && !Computed(r, name)
    && r.exact.ceilings.Some? && name in r.exact.ceilings.value && r.exact.ceilings.value[name] == Exact(value)
  }

  lemma SizedIsExactlySized(r: Request)
    requires CoreRead(r.exact)
    ensures SizedExactly(r) <==> ExactlySized(r.exact)
    ensures Positive(r.exact.equity) <==> r.exact.equity.value > 0.0
    ensures Positive(r.exact.entry) <==> r.exact.entry.value > 0.0
    ensures Positive(r.exact.stopDistance) <==> r.exact.stopDistance.value > 0.0
  {
  }

  lemma CeilingsAreListedOrComputed(r: Request, name: string)
    requires CeilingsRead(r)
    ensures name in CeilingsOf(r) <==> Computed(r, name) || exists value :: Listed(r, name, value)
    ensures forall value :: Listed(r, name, value) ==> name in CeilingsOf(r) && CeilingsOf(r)[name] == value
  {
    ExpectedAreLookedFor(r, name);
    var listed := ListedCeilings(ExpectedCeilings(r), r.exact.ceilings.value);
    assert name in CeilingsOf(r) <==> Computed(r, name) || name in listed;
    assert !Computed(r, name) && name in listed ==> CeilingsOf(r)[name] == listed[name];
    if name in listed && !Computed(r, name) {
      assert Listed(r, name, listed[name]);
    }
  }

  /** A ceiling that the engine looks for and does not compute holds for the size, before and after revalidation; a negative one leaves nothing. */
  lemma NamedCeilingHolds(r: Request, d: Decision, name: string, value: real)
    requires IsSizing(r, Ok(Some(d))) && Listed(r, name, value)
    ensures 0.0 <= d.final <= d.constrained && (value >= 0.0 ==> d.constrained <= value) && (value < 0.0 ==> d.constrained == 0.0)
  {
    ExpectedAreLookedFor(r, name);
    if ExactlyRead(r) {
      SizeOnlyFalls(r, d);
      CeilingsAreListedOrComputed(r, name);
      assert !CeilingRefused(name, DerivedCeilings(r), r.exact.ceilings.value);
    }
  }

  /** A ceiling without its exact value leaves nothing, unless it is one that the engine derives. */
  lemma CeilingWithoutSidecarGivesNothing(r: Request, d: Decision, name: string)
    requires IsSizing(r, Ok(Some(d))) && LookedFor(r, name)
    requires r.exact.ceilings.None? || name !in r.exact.ceilings.value
    requires name != "deployment_mode_heat" && name != "deployment_mode_gross" && (name == "stop_risk" ==> !r.active)
    ensures !d.authoritative && d.constrained == 0.0 && d.final == 0.0 && d.finalQuantity == 0.0
  {
    ExpectedAreLookedFor(r, name);
    assert r.exact.ceilings.Some? ==> CeilingRefused(name, DerivedCeilings(r), r.exact.ceilings.value);
  }

  // ----- exactly which sizes are permitted -----

  /** The stop of this notional loses at most `dollars`: in shares, quantity times stop distance. */
  predicate LosesAtMost(notional: real, dollars: real, entry: real, stopDistance: real) {
    Times(notional, stopDistance) <= Times(dollars, entry)
  }

  lemma NotionalOfRisk(notional: real, dollars: real, entry: real, stopDistance: real)
    requires stopDistance > 0.0
    ensures notional <= NotionalOf(dollars, entry, stopDistance) <==> LosesAtMost(notional, dollars, entry, stopDistance)
  {
    QuotientTimes(Times(dollars, entry), stopDistance);
    TimesOrder(NotionalOf(dollars, entry, stopDistance), notional, stopDistance);
    assert NotionalOf(dollars, entry, stopDistance) == Quotient(Times(dollars, entry), stopDistance);
  }

  /** Each ceiling that the engine computes, in words. */
  predicate ComputedAllows(r: Request, name: string, notional: real)
    requires CoreRead(r.exact) && TargetsRead(r.exact)
  {
    var x := r.exact;
    var equity, entry, stop := x.equity.value, x.entry.value, x.stopDistance.value;
    match name
    case "stop_risk" => LosesAtMost(notional, equity * (if x.hardTradePct.Exact? then x.hardTradePct.value else 0.0) / 100.0, entry, stop)
    case "deployment_mode_heat" => LosesAtMost(notional, equity * Max(0.0, x.heatTarget.value - x.heatBefore.value) / 100.0, entry, stop)
    case "deployment_mode_gross" => notional <= equity * Max(0.0, x.grossTarget.value - x.grossBefore.value) / 100.0
    case "displayed_quantity" => x.displayedQuantity.Exact? && notional <= x.displayedQuantity.value * entry
    case "displayed_stop_risk" => x.displayedStopRisk.Exact? && LosesAtMost(notional, x.displayedStopRisk.value, entry, stop)
    case _ => false
  }

  function ComputedAs(r: Request, name: string): real
    requires CeilingsRead(r) && Computed(r, name)
  {
    var x := r.exact;
    var equity, entry, stop := x.equity.value, x.entry.value, x.stopDistance.value;
    match name
    case "stop_risk" => NotionalOf(Percent(equity, x.hardTradePct.value), entry, stop)
    case "deployment_mode_heat" => NotionalOf(Percent(equity, Max(0.0, x.heatTarget.value - x.heatBefore.value)), entry, stop)
    case "deployment_mode_gross" => Percent(equity, Max(0.0, x.grossTarget.value - x.grossBefore.value))
    case "displayed_quantity" => Times(x.displayedQuantity.value, entry)
    case _ => NotionalOf(x.displayedStopRisk.value, entry, stop)
  }

  lemma ComputedIsListed(r: Request, name: string)
    requires CeilingsRead(r) && Computed(r, name)
    ensures name in CeilingsOf(r) && CeilingsOf(r)[name] == ComputedAs(r, name)
  {
  }

  lemma ComputedIsExact(r: Request, name: string, notional: real)
    requires CeilingsRead(r) && Computed(r, name)
    ensures notional <= ComputedAs(r, name) <==> ComputedAllows(r, name, notional)
  {
    var x := r.exact;
    var equity, entry, stop := x.equity.value, x.entry.value, x.stopDistance.value;
    if name == "stop_risk" {
      NotionalOfRisk(notional, Percent(equity, x.hardTradePct.value), entry, stop);
    } else if name == "deployment_mode_heat" {
      NotionalOfRisk(notional, Percent(equity, Max(0.0, x.heatTarget.value - x.heatBefore.value)), entry, stop);
    } else if name == "displayed_stop_risk" {
      NotionalOfRisk(notional, x.displayedStopRisk.value, entry, stop);
    }
  }

  /** The trade can be sized and the stop loses no more than the permitted percentage of equity. */
  predicate RequestPermits(r: Request, notional: real)
    requires CoreRead(r.exact)
  {
    var x := r.exact;
    && SizedExactly(r) && !r.requestMissing
    && LosesAtMost(notional, x.equity.value * x.recommendedPct.value / 100.0, x.entry.value, x.stopDistance.value)
  }

  /** The engine's own ceilings and every listed one allow this size. */
  ghost predicate CeilingsPermit(r: Request, notional: real)
    requires CoreRead(r.exact) && TargetsRead(r.exact)
  {
    && (forall name :: Computed(r, name) ==> ComputedAllows(r, name, notional))
    && (forall name, value :: Listed(r, name, value) ==> notional <= value)
  }

  ghost predicate Permitted(r: Request, notional: real)
    requires CoreRead(r.exact) && TargetsRead(r.exact)
  {
    RequestPermits(r, notional) && CeilingsPermit(r, notional)
  }

  lemma RequestAllows(r: Request, notional: real)
    requires CoreRead(r.exact) && notional > 0.0
    ensures notional <= RequestedOf(r) <==> RequestPermits(r, notional)
  {
    var x := r.exact;
    if ExactlySized(x) {
      NotionalOfRisk(notional, Percent(x.equity.value, x.recommendedPct.value), x.entry.value, x.stopDistance.value);
    }
  }

  predicate WithinAll(notional: real, ceilings: map<string, real>) {
    forall name <- ceilings :: notional <= ceilings[name]
  }

  lemma CeilingsAllow(r: Request, notional: real)
    requires CeilingsRead(r)
    ensures WithinAll(notional, CeilingsOf(r)) <==> CeilingsPermit(r, notional)
  {
    forall name: string
      ensures Computed(r, name) ==> name in CeilingsOf(r) && (notional <= CeilingsOf(r)[name] <==> ComputedAllows(r, name, notional))
      ensures forall value :: Listed(r, name, value) ==> name in CeilingsOf(r) && CeilingsOf(r)[name] == value
      ensures name in CeilingsOf(r) ==> Computed(r, name) || Listed(r, name, CeilingsOf(r)[name])
    {
      CeilingsAreListedOrComputed(r, name);
      if Computed(r, name) {
        ComputedIsListed(r, name);
        ComputedIsExact(r, name, notional);
      }
    }
  }

  lemma LeastIsWithin(least: real, requested: real, ceilings: map<string, real>, notional: real)
    requires IsLeast(least, requested, ceilings)
    ensures notional <= least <==> notional <= requested && WithinAll(notional, ceilings)
  {
  }

  lemma LeastIsPermitted(r: Request, least: real, notional: real)
    requires CeilingsRead(r) && IsLeast(least, RequestedOf(r), CeilingsOf(r)) && notional > 0.0
    ensures notional <= least <==> Permitted(r, notional)
  {
    LeastIsWithin(least, RequestedOf(r), CeilingsOf(r), notional);
    RequestAllows(r, notional);
    CeilingsAllow(r, notional);
  }

  /** A positive size is granted exactly when nothing is missing or blocked, it is permitted, and so is the least executable
      notional. */
  lemma GrantsWhatIsPermitted(r: Request, d: Decision, notional: real)
    requires ExactlyRead(r) && IsSizing(r, Ok(Some(d))) && notional > 0.0
    ensures notional <= d.constrained <==>
      && !r.criticalMissing && !r.blocked && Permitted(r, notional)
      && (r.exact.minimum.value > 0.0 ==> Permitted(r, r.exact.minimum.value))
  {
    var least :| IsLeast(least, RequestedOf(r), CeilingsOf(r)) && d.constrained == Gate(r, least);
    LeastIsPermitted(r, least, notional);
    if r.exact.minimum.value > 0.0 {
      LeastIsPermitted(r, least, r.exact.minimum.value);
    }
  }

  /** Revalidation grants exactly what is still granted, what was displayed, and nothing if it is blocked. */
  lemma RevalidationGrantsWhatWasDisplayed(r: Request, d: Decision, notional: real)
    requires ExactlyRead(r) && IsSizing(r, Ok(Some(d))) && r.stage.FinalRevalidation? && notional > 0.0
    ensures r.exact.displayedCeiling.Exact?
    ensures notional <= d.final <==> !r.finalBlocked && notional <= d.constrained && notional <= r.exact.displayedCeiling.value
  {
    SizeOnlyFalls(r, d);
    CeilingsAreNonnegative(r);
  }

  lemma SharesOfNotional(notional: real, entry: real)
    requires entry > 0.0
    ensures Times(QuantityOf(notional, entry), entry) == notional
  {
  }

  lemma SizedSharesAgree(r: Request, requested: real, ceilings: map<string, real>, d: Decision, entry: real)
    requires ExactlyRead(r) && IsSized(r, requested, ceilings, d) && entry == r.exact.entry.value > 0.0
    ensures Times(d.quantity, entry) == d.constrained && Times(d.finalQuantity, entry) == d.final
    ensures d.stopRisk == Times(d.quantity, r.exact.stopDistance.value)
    ensures r.stage.Proposal? ==> d.final == d.constrained && d.outcome.None?
  {
    SharesOfNotional(d.constrained, entry);
    SharesOfNotional(d.final, entry);
  }

  /** Shares and stop risk are those of the notional. */
  lemma SizesAgree(r: Request, d: Decision)
    requires ExactlyRead(r) && IsSizing(r, Ok(Some(d))) && r.exact.entry.value > 0.0
    ensures Times(d.quantity, r.exact.entry.value) == d.constrained && Times(d.finalQuantity, r.exact.entry.value) == d.final
    ensures d.stopRisk == Times(d.quantity, r.exact.stopDistance.value)
    ensures r.stage.Proposal? ==> d.final == d.constrained && d.outcome.None?
  {
    SizedSharesAgree(r, RequestedOf(r), CeilingsOf(r), d, r.exact.entry.value);
  }

  /** What a revalidation reports: a block comes first, then a larger size than displayed, then a smaller one. */
  lemma OutcomeInWords(r: Request, d: Decision)
    requires ExactlyRead(r) && IsSizing(r, Ok(Some(d))) && r.stage.FinalRevalidation?
    ensures d.outcome.Some? && d.displayed.Some? && r.exact.displayedCeiling == Exact(d.displayed.value)
    ensures var blocked, displayed := r.finalBlocked || d.constrained <= 0.0, d.displayed.value;
      && (d.outcome == Some(BecameBlocked) <==> blocked)
      && (d.outcome == Some(IncreaseConstrained) <==> !blocked && d.constrained > displayed + 0.00000001)
      && (d.outcome == Some(Reduced) <==> !blocked && d.constrained <= displayed + 0.00000001 && d.final < displayed - 0.00000001)
      && (d.outcome == Some(StayedEqual) <==> !blocked && d.constrained <= displayed + 0.00000001 && d.final >= displayed - 0.00000001)
  {
  }

  /** An exact value is there, finite and not negative. */
  predicate Readable(s: Sidecar) {
    s.Exact? && s.value >= 0.0
  }

  /** Every exact value that a decision rests on must be readable; one that is missing, not a number or negative leaves nothing. */
  lemma UnreadableInputGivesNothing(r: Request, d: Decision)
    requires IsSizing(r, Ok(Some(d)))
    requires var x := r.exact;
      || !Readable(x.equity) || !Readable(x.entry) || !Readable(x.stopDistance) || !Readable(x.recommendedPct)
      || !Readable(x.operationalNotional) || !Readable(x.minimum)
      || !Readable(x.heatBefore) || !Readable(x.heatTarget) || !Readable(x.grossBefore) || !Readable(x.grossTarget)
      || (x.operationalRequested.Some? && !Readable(x.operationalRequested.value))
      || (x.operationalQuantity.Some? && !Readable(x.operationalQuantity.value))
      || (x.operationalStopRisk.Some? && !Readable(x.operationalStopRisk.value))
      || (r.active && SizedExactly(r) && !Readable(x.hardTradePct))
      || (!x.displayedCeiling.Absent? && !Readable(x.displayedCeiling))
      || (r.stage.FinalRevalidation? && x.displayedCeiling.Absent?)
      || (r.stage.FinalRevalidation? && r.displayedQuantityGiven && x.displayedQuantity.Absent?)
      || (r.stage.FinalRevalidation? && r.displayedStopRiskGiven && x.displayedStopRisk.Absent?)
      || (r.stage.FinalRevalidation? && !x.displayedQuantity.Absent? && !Readable(x.displayedQuantity) && Positive(x.entry))
    ensures !d.authoritative && d.constrained == 0.0 && d.quantity == 0.0 && d.stopRisk == 0.0 && d.final == 0.0 && d.finalQuantity == 0.0
  {
  }
}
