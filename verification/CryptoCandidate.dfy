/**
The crypto candidates that app/cross_asset_runtime.py builds for the allocator, and what the
allocator's own checks make of them. The numbers are computed from prices and a probability; the
checks recompute the same relations, and here they are shown to agree.
*/
module CryptoCandidate {
  import opened Wrappers
  import opened Sums
  import opened Quotients
  import opened AllocationModel

  const BASIS_POINTS := 10000.0
  const HOURS_PER_DAY := 24.0
  const SHORTEST_DAYS := 0.000000000001

  /** Verified market and strategy prices, with volatility and the notional at the top of the book. */
  datatype Quote = Quote(entry: real, bid: real, stop: real, target: real, volatility: real, liquidity: real)

  /** How each amount is read: prices and liquidity positive, volatility not negative. */
  predicate QuoteRead(q: Quote) {
    q.entry > 0.0 && q.bid > 0.0 && q.stop > 0.0 && q.target > 0.0 && q.volatility >= 0.0 && q.liquidity > 0.0
  }

  predicate PricesInOrder(q: Quote) {
    q.stop < q.entry < q.target && q.bid <= q.entry
  }

  datatype Budget = Budget(equity: real, tradeRiskPct: real, maximumOrder: real, maximumCrypto: real, currentCrypto: real, feeBps: real, slippageBps: real)

  predicate BudgetRead(b: Budget) {
    b.equity > 0.0 && b.tradeRiskPct >= 0.0 && b.maximumOrder > 0.0 && b.feeBps >= 0.0 && b.slippageBps >= 0.0
  }

  /** Where the probability of the trade comes from. */
  datatype Evidence =
    | ColdStart(probability: real, uncertainty: real, correlation: real, cap: real)
    | Exploring(probability: real, uncertainty: real, correlation: real, cap: real, hours: real)
    | Verified(probability: real, uncertainty: real, correlation: real, hours: real, severe: real)

  /** The ranges in which each kind of evidence is read or configured. */
  predicate EvidenceRead(e: Evidence) {
    match e
    case ColdStart(p, u, c, cap) => Within(p, 0.0, 1.0) && Within(u, 0.0, 1.0) && Within(c, -1.0, 1.0) && cap > 0.0
    case Exploring(p, u, c, cap, hours) =>
      Within(p, 0.50, 0.90) && Within(u, 0.0, 0.25) && p - u > 0.0 && c == 1.0 && Within(cap, 5.0, 500.0) && Within(hours, 1.0, 720.0)
    case Verified(p, u, c, hours, severe) => p > 0.0 && u >= 0.0 && c >= 0.0 && hours > 0.0 && severe >= 0.0
  }

  function HoldingHours(e: Evidence): real {
    match e case ColdStart(_, _, _, _) => HOURS_PER_DAY case Exploring(_, _, _, _, hours) => hours case Verified(_, _, _, hours, _) => hours
  }

  function SevereRate(e: Evidence): real {
    if e.Verified? then e.severe else 1.0 - e.probability
  }

  function OrderCap(e: Evidence, b: Budget): real {
    if e.Verified? then b.maximumOrder else e.cap
  }

  // ----- the numbers -----

  function FeesAndSlippage(b: Budget): real {
    (b.feeBps * 2.0 + b.slippageBps * 2.0) / BASIS_POINTS
  }

  function LossFraction(q: Quote, b: Budget): real
    requires QuoteRead(q)
  {
    Quotient(q.entry - q.stop, q.entry) + FeesAndSlippage(b)
  }

  /** quantize(0.01, ROUND_DOWN), for amounts that are not negative */
  function DownToCent(x: real): real {
    (x * 100.0).Floor as real / 100.0
  }

  function RiskBudget(b: Budget): real {
    b.equity * b.tradeRiskPct / 100.0
  }

  /** The least of the order limits, what is left for crypto, and the notional that risks the budget. */
  function Affordable(q: Quote, e: Evidence, b: Budget): real
    requires QuoteRead(q)
  {
    var loss := LossFraction(q, b);
    var exposure := Max(0.0, b.maximumCrypto - b.currentCrypto);
    Min(Min(b.maximumOrder, OrderCap(e, b)),
        Min(if exposure > 0.0 then exposure else b.maximumOrder, if loss > 0.0 then Quotient(RiskBudget(b), loss) else 0.0))
  }

  function Proposed(q: Quote, e: Evidence, b: Budget): real
    requires QuoteRead(q)
  {
    DownToCent(Affordable(q, e, b))
  }

  function Edge(p: real, gain: real, downside: real): real {
    Times(p, gain) - Times(1.0 - p, downside)
  }

  /** The candidate's numbers, from a notional, what a winner gains and a loser costs, and the costs of the round trip. */
  function WithNumbers(identity: Candidate, notional: real, gain: real, downside: real, costs: real, q: Quote, e: Evidence, b: Budget,
                       winner: bool, profitable: bool): Candidate
    requires notional > 0.0 && downside > 0.0 && b.equity > 0.0
  {
    var gross := Edge(e.probability, gain, downside);
    var profit := gross - costs;
    var conservative := Edge(Max(0.0, e.probability - e.uncertainty), gain, downside) - costs;
    var expectedR := Quotient(profit, downside);
    var conservativeR := Quotient(conservative, downside);
    var days := HoldingHours(e) / HOURS_PER_DAY;
    identity.(
      notional := notional, economicRisk := downside, stopRisk := downside + costs,
      expectedProfit := profit, expectedR := expectedR, conservativeR := conservativeR,
      efficiency := Quotient(profit, notional),
      rPerDay := Quotient(expectedR, Max(SHORTEST_DAYS, days)),
      marginalR := if conservativeR >= 0.0 then conservativeR * 0.80 else conservativeR,
      probabilityPositive := e.probability, probabilitySevere := SevereRate(e), uncertainty := e.uncertainty,
      costRatio := if gross > 0.0 then Quotient(costs, gross) else 1.0,
      holdingDays := days, volatility := q.volatility, liquidity := q.liquidity, correlation := e.correlation,
      drawdownR := Max(0.0, Quotient(downside + costs, b.equity)),
      profitabilityEligible := e.Verified? && profitable && profit > 0.0 && conservative > 0.0 && (!identity.held || winner),
      explorationEligible := e.Exploring?)
  }

  /** Everything that is not economics: the candidate belongs to the supervised crypto lane. */
  predicate IdentityBuilt(c: Candidate, e: Evidence) {
    && c.current && c.assetClass.Crypto? && c.lane.SupervisedPaper?
    && (!e.Verified? ==> c.strategyState.Exploration?)
  }

  /** A candidate, or none when a price, an amount or the evidence is out of order, or nothing is left to propose. */
  function Build(identity: Candidate, q: Quote, e: Evidence, b: Budget, winner: bool, profitable: bool): Option<Candidate> {
    if !QuoteRead(q) || !PricesInOrder(q) || !BudgetRead(b) || !EvidenceRead(e) then None
    else if e.Exploring? && identity.held then None
    else
      var notional := Proposed(q, e, b);
      if notional <= 0.0 then None
      else
        var quantity := Quotient(notional, q.entry);
        var downside := Times(quantity, q.entry - q.stop);
        QuantityIsPositive(notional, q);
        Some(WithNumbers(identity, notional, Times(quantity, q.target - q.entry), downside,
                         Times(quantity, q.entry - q.bid) + Times(notional, FeesAndSlippage(b)), q, e, b, winner, profitable))
  }

  lemma QuantityIsPositive(notional: real, q: Quote)
    requires notional > 0.0 && QuoteRead(q) && PricesInOrder(q)
    ensures var quantity := Quotient(notional, q.entry);
      quantity > 0.0 && Times(quantity, q.entry - q.stop) > 0.0 && Times(quantity, q.target - q.entry) > 0.0 && Times(quantity, q.entry - q.bid) >= 0.0
  {
    QuotientSign(notional, q.entry);
    ProductSign(Quotient(notional, q.entry), q.entry - q.stop);
    ProductSign(Quotient(notional, q.entry), q.target - q.entry);
    ProductSign(Quotient(notional, q.entry), q.entry - q.bid);
  }

  lemma ProductSign(a: real, b: real)
    requires a > 0.0
    ensures b > 0.0 ==> Times(a, b) > 0.0
    ensures b >= 0.0 ==> Times(a, b) >= 0.0
  {
  }

  // ----- the builder meets the checks -----

  lemma EdgeIsMonotone(low: real, high: real, gain: real, downside: real)
    requires low <= high && gain > 0.0 && downside > 0.0
    ensures Edge(low, gain, downside) <= Edge(high, gain, downside)
  {
    var step := high - low;
    assert step * gain >= 0.0 && step * downside >= 0.0;
    assert Edge(high, gain, downside) - Edge(low, gain, downside) == step * gain + step * downside;
  }

  /** The builder divides by the holding time, but by no less than the shortest. */
  predicate HeldLongEnough(e: Evidence) {
    HoldingHours(e) / HOURS_PER_DAY >= SHORTEST_DAYS
  }

  /** How far the daily rate that the builder writes is from the one that the check recomputes. */
  function RateGap(expectedR: real, days: real): real
    requires days > 0.0
  {
    Abs(expectedR / days - Quotient(expectedR, Max(SHORTEST_DAYS, days)))
  }

  lemma NumbersAreConsistent(identity: Candidate, notional: real, gain: real, downside: real, costs: real, q: Quote, e: Evidence, b: Budget,
                             winner: bool, profitable: bool)
    requires notional > 0.0 && gain > 0.0 && downside > 0.0 && costs >= 0.0 && b.equity > 0.0
    requires EvidenceRead(e)
    ensures var c := WithNumbers(identity, notional, gain, downside, costs, q, e, b, winner, profitable);
      && c.holdingDays > 0.0 && (HeldLongEnough(e) ==> RateGap(c.expectedR, c.holdingDays) == 0.0)
      && (EconomicsConsistent(c) <==> SevereRate(e) <= 1.0 - e.probability && RateGap(c.expectedR, c.holdingDays) <= TOLERANCE)
  {
    var low := Max(0.0, e.probability - e.uncertainty);
    var profit, conservative := Edge(e.probability, gain, downside) - costs, Edge(low, gain, downside) - costs;
    EdgeIsMonotone(low, e.probability, gain, downside);
    QuotientOrder(conservative, profit, downside);
  }

  /** The ranges that the allocator adds to the economics. */
  predicate WithinRanges(q: Quote, e: Evidence) {
    q.volatility <= 10.0 && e.probability <= 1.0 && e.uncertainty <= 1.0 && e.correlation <= 1.0
  }

  lemma NumbersAreInRange(identity: Candidate, notional: real, gain: real, downside: real, costs: real, q: Quote, e: Evidence, b: Budget,
                          winner: bool, profitable: bool)
    requires notional > 0.0 && gain > 0.0 && downside > 0.0 && costs >= 0.0 && b.equity > 0.0
    requires EvidenceRead(e) && QuoteRead(q) && IdentityBuilt(identity, e) && SevereRate(e) <= 1.0 - e.probability
    ensures var c := WithNumbers(identity, notional, gain, downside, costs, q, e, b, winner, profitable);
      c.holdingDays != 0.0 && (CandidateAccepted(c) <==> EconomicsConsistent(c) && WithinRanges(q, e))
  {
    QuotientSign(costs, Max(0.000001, Edge(e.probability, gain, downside)));
    QuotientSign(downside + costs, b.equity);
    if Edge(e.probability, gain, downside) > 0.0 {
      QuotientSign(costs, Edge(e.probability, gain, downside));
    }
  }

  /** Every cold-start or exploration candidate passes all economic checks, and is accepted exactly when its volatility is in range. */
  lemma DiscoveryCandidatesAreConsistent(identity: Candidate, q: Quote, e: Evidence, b: Budget, winner: bool, profitable: bool)
    requires !e.Verified? && IdentityBuilt(identity, e)
    requires Build(identity, q, e, b, winner, profitable).Some?
    ensures var c := Build(identity, q, e, b, winner, profitable).value;
      && c.economicRisk > 0.0 && c.notional > 0.0 && c.holdingDays > 0.0
      && EconomicsConsistent(c)
      && (CandidateAccepted(c) <==> q.volatility <= 10.0)
  {
    var notional := Proposed(q, e, b);
    var quantity := Quotient(notional, q.entry);
    QuantityIsPositive(notional, q);
    CostsAreNonnegative(notional, q, b);
    var gain, downside := Times(quantity, q.target - q.entry), Times(quantity, q.entry - q.stop);
    var costs := Times(quantity, q.entry - q.bid) + Times(notional, FeesAndSlippage(b));
    NumbersAreConsistent(identity, notional, gain, downside, costs, q, e, b, winner, profitable);
    NumbersAreInRange(identity, notional, gain, downside, costs, q, e, b, winner, profitable);
  }

  lemma CostsAreNonnegative(notional: real, q: Quote, b: Budget)
    requires notional > 0.0 && QuoteRead(q) && PricesInOrder(q) && BudgetRead(b)
    ensures Times(Quotient(notional, q.entry), q.entry - q.bid) + Times(notional, FeesAndSlippage(b)) >= 0.0
  {
    QuantityIsPositive(notional, q);
    ProductSign(notional, FeesAndSlippage(b));
  }

  /**
  A candidate with verified profitability passes the economic checks exactly when its severe-loss
  rate leaves room for its wins and its holding time is at least the shortest one, or so little is
  expected of it that its daily rate is reproduced all the same.
  */
  lemma VerifiedCandidatesAreConsistent(identity: Candidate, q: Quote, e: Evidence, b: Budget, winner: bool, profitable: bool)
    requires e.Verified?
    requires Build(identity, q, e, b, winner, profitable).Some?
    ensures var c := Build(identity, q, e, b, winner, profitable).value;
      && c.economicRisk > 0.0 && c.notional > 0.0 && c.holdingDays > 0.0
      && (EconomicsConsistent(c) <==>
           e.severe <= 1.0 - e.probability && (HeldLongEnough(e) || RateGap(c.expectedR, HoldingHours(e) / HOURS_PER_DAY) <= TOLERANCE))
  {
    var notional := Proposed(q, e, b);
    var quantity := Quotient(notional, q.entry);
    QuantityIsPositive(notional, q);
    CostsAreNonnegative(notional, q, b);
    NumbersAreConsistent(identity, notional, Times(quantity, q.target - q.entry), Times(quantity, q.entry - q.stop),
                         Times(quantity, q.entry - q.bid) + Times(notional, FeesAndSlippage(b)), q, e, b, winner, profitable);
  }

  lemma DownToCentIsClose(x: real)
    ensures DownToCent(x) <= x < DownToCent(x) + 0.01
  {
  }

  /** A built candidate proposes no more than any of its budgets, and whole cents. */
  lemma ProposedWithinBudgets(identity: Candidate, q: Quote, e: Evidence, b: Budget, winner: bool, profitable: bool)
    requires Build(identity, q, e, b, winner, profitable).Some?
    ensures var c := Build(identity, q, e, b, winner, profitable).value;
      && 0.0 < c.notional <= b.maximumOrder && c.notional <= OrderCap(e, b)
      && (b.maximumCrypto > b.currentCrypto ==> c.notional <= b.maximumCrypto - b.currentCrypto)
      && Times(c.notional, LossFraction(q, b)) <= RiskBudget(b)
  {
    var loss := LossFraction(q, b);
    QuotientSign(q.entry - q.stop, q.entry);
    DownToCentIsClose(Affordable(q, e, b));
    RiskWithin(Proposed(q, e, b), RiskBudget(b), loss);
  }

  lemma RiskWithin(notional: real, risk: real, loss: real)
    requires loss > 0.0 && notional <= Quotient(risk, loss)
    ensures Times(notional, loss) <= risk
  {
    assert (Quotient(risk, loss) - notional) * loss >= 0.0;
    assert Quotient(risk, loss) * loss == risk;
  }

  // ----- the numbers in words -----

  /** Within every budget: the order limits, what is left for crypto if anything is, and the risk budget for the loss at the stop and
      the fees and slippage of both legs. */
  predicate WithinBudgets(amount: real, q: Quote, e: Evidence, b: Budget)
    requires q.entry > 0.0
  {
    && amount <= b.maximumOrder
    && amount <= (if e.Verified? then b.maximumOrder else e.cap)
    && (b.currentCrypto < b.maximumCrypto ==> b.currentCrypto + amount <= b.maximumCrypto)
    && Times(amount, Quotient(q.entry - q.stop, q.entry) + (b.feeBps * 2.0 + b.slippageBps * 2.0) / 10000.0) <= b.equity * b.tradeRiskPct / 100.0
  }

  predicate WholeCents(amount: real) {
    (amount * 100.0).Floor as real == amount * 100.0
  }

  lemma AffordableIsExact(amount: real, q: Quote, e: Evidence, b: Budget)
    requires QuoteRead(q) && PricesInOrder(q) && BudgetRead(b)
    ensures amount <= Affordable(q, e, b) <==> WithinBudgets(amount, q, e, b)
  {
    var loss := LossFraction(q, b);
    LossIsPositive(q, b);
    QuotientTimes(RiskBudget(b), loss);
    TimesOrder(Quotient(RiskBudget(b), loss), amount, loss);
  }

  lemma LossIsPositive(q: Quote, b: Budget)
    requires QuoteRead(q) && PricesInOrder(q) && BudgetRead(b)
    ensures LossFraction(q, b) > 0.0
  {
    QuotientSign(q.entry - q.stop, q.entry);
  }

  lemma DownToCentIsLargest(x: real, amount: real)
    requires WholeCents(amount)
    ensures WholeCents(DownToCent(x)) && (amount <= x <==> amount <= DownToCent(x))
  {
    var cents := (x * 100.0).Floor;
    assert DownToCent(x) * 100.0 == cents as real;
    if amount <= x {
      assert (amount * 100.0).Floor <= cents;
    }
  }

  /** The proposal is the largest amount of whole cents within the budgets, and there is one exactly when the inputs can be read, no
      exploring position is held already, and at least one cent is within the budgets. */
  lemma ProposesTheMost(identity: Candidate, q: Quote, e: Evidence, b: Budget, winner: bool, profitable: bool, amount: real)
    requires QuoteRead(q) && PricesInOrder(q) && BudgetRead(b) && EvidenceRead(e) && WholeCents(amount)
    ensures var built := Build(identity, q, e, b, winner, profitable);
      && (built.Some? <==> !(e.Exploring? && identity.held) && WithinBudgets(0.01, q, e, b))
      && (built.Some? ==> WholeCents(built.value.notional) && (amount <= built.value.notional <==> WithinBudgets(amount, q, e, b)))
  {
    AffordableIsExact(amount, q, e, b);
    AffordableIsExact(0.01, q, e, b);
    DownToCentIsLargest(Affordable(q, e, b), amount);
    OneCent();
    DownToCentIsLargest(Affordable(q, e, b), 0.01);
    PositiveCents(Proposed(q, e, b));
  }

  lemma OneCent()
    ensures WholeCents(0.01)
  {
    assert 0.01 * 100.0 == 1.0;
  }

  lemma PositiveCents(amount: real)
    requires WholeCents(amount)
    ensures amount > 0.0 <==> amount >= 0.01
  {
    if amount > 0.0 {
      assert (amount * 100.0).Floor >= 1;
    }
  }

  /** What a candidate of `quantity` units gains at the target, loses at the stop, and pays in spread, fees and slippage. */
  predicate Trades(c: Candidate, q: Quote, b: Budget, quantity: real, gain: real, costs: real)
    requires q.entry > 0.0
  {
    && Times(quantity, q.entry) == c.notional
    && gain == Times(quantity, q.target - q.entry)
    && c.economicRisk == Times(quantity, q.entry - q.stop)
    && costs == Times(quantity, q.entry - q.bid) + Times(c.notional, (b.feeBps + b.feeBps + b.slippageBps + b.slippageBps) / 10000.0)
    && c.stopRisk == c.economicRisk + costs
  }

  /** What is expected of it: winners gain and losers cost, by their probabilities, less the costs of the round trip. */
  predicate Expects(c: Candidate, e: Evidence, b: Budget, gain: real, costs: real)
    requires c.economicRisk > 0.0 && c.notional > 0.0 && b.equity > 0.0
  {
    var p := e.probability;
    var low := if p >= e.uncertainty then p - e.uncertainty else 0.0;
    && c.expectedProfit == Times(p, gain) - Times(1.0 - p, c.economicRisk) - costs
    && Times(c.expectedR, c.economicRisk) == c.expectedProfit
    && Times(c.efficiency, c.notional) == c.expectedProfit
    && Times(c.conservativeR, c.economicRisk) == Times(low, gain) - Times(1.0 - low, c.economicRisk) - costs
    && Times(c.drawdownR, b.equity) == c.stopRisk
    && (if c.conservativeR < 0.0 then c.marginalR == c.conservativeR else c.marginalR * 5.0 == c.conservativeR * 4.0)
    && (if c.expectedProfit + costs > 0.0 then Times(c.costRatio, c.expectedProfit + costs) == costs else c.costRatio == 1.0)
    && Times(c.rPerDay, if c.holdingDays < 0.000000000001 then 0.000000000001 else c.holdingDays) == c.expectedR
    && (if e.Verified? then c.probabilitySevere == e.severe else c.probabilitySevere + p == 1.0)
  }

  lemma NumbersInWords(identity: Candidate, notional: real, gain: real, downside: real, costs: real, q: Quote, e: Evidence, b: Budget,
                       winner: bool, profitable: bool)
    requires notional > 0.0 && downside > 0.0 && costs >= 0.0 && b.equity > 0.0
    ensures Expects(WithNumbers(identity, notional, gain, downside, costs, q, e, b, winner, profitable), e, b, gain, costs)
  {
    var gross := Edge(e.probability, gain, downside);
    var conservative := Edge(Max(0.0, e.probability - e.uncertainty), gain, downside) - costs;
    QuotientTimes(gross - costs, downside);
    QuotientTimes(gross - costs, notional);
    QuotientTimes(conservative, downside);
    QuotientTimes(downside + costs, b.equity);
    QuotientTimes(Quotient(gross - costs, downside), Max(SHORTEST_DAYS, HoldingHours(e) / HOURS_PER_DAY));
    QuotientSign(downside + costs, b.equity);
    if gross > 0.0 {
      QuotientTimes(costs, gross);
    }
  }

  /** Every built candidate is accounted for by its prices, its evidence and the fees. */
  lemma BuiltInWords(identity: Candidate, q: Quote, e: Evidence, b: Budget, winner: bool, profitable: bool) returns (quantity: real, gain: real, costs: real)
    requires Build(identity, q, e, b, winner, profitable).Some?
    ensures var c := Build(identity, q, e, b, winner, profitable).value;
      && q.entry > 0.0 && c.notional > 0.0 && c.economicRisk > 0.0 && b.equity > 0.0
      && Trades(c, q, b, quantity, gain, costs) && Expects(c, e, b, gain, costs)
      && c.probabilityPositive == e.probability && c.uncertainty == e.uncertainty && c.correlation == e.correlation
      && c.volatility == q.volatility && c.liquidity == q.liquidity && (c.explorationEligible <==> e.Exploring?)
      && c.holdingDays * 24.0 == (match e case ColdStart(_, _, _, _) => 24.0 case Exploring(_, _, _, _, hours) => hours case Verified(_, _, _, hours, _) => hours)
      && (c.profitabilityEligible <==>
           e.Verified? && profitable && c.expectedProfit > 0.0 && c.conservativeR > 0.0 && (identity.held ==> winner))
  {
    var notional := Proposed(q, e, b);
    quantity := Quotient(notional, q.entry);
    QuantityIsPositive(notional, q);
    CostsAreNonnegative(notional, q, b);
    QuotientTimes(notional, q.entry);
    gain := Times(quantity, q.target - q.entry);
    var downside := Times(quantity, q.entry - q.stop);
    costs := Times(quantity, q.entry - q.bid) + Times(notional, FeesAndSlippage(b));
    NumbersInWords(identity, notional, gain, downside, costs, q, e, b, winner, profitable);
    ConservativeSign(Edge(Max(0.0, e.probability - e.uncertainty), gain, downside) - costs, downside);
  }

  lemma ConservativeSign(conservative: real, downside: real)
    requires downside > 0.0
    ensures conservative > 0.0 <==> Quotient(conservative, downside) > 0.0
  {
    QuotientTimes(conservative, downside);
    SignOfProduct(Quotient(conservative, downside), downside);
  }
}
