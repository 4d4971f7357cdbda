/**
Heat over whole runs of the crypto lane. A reservation counts for its stop risk, but the position
that a fill opens counts for its full market value. So the heat limit, unlike the others, is not
kept by fills. What an account has committed says exactly when it is, before anything is filled.
*/
module CryptoHeat {
  import opened Wrappers
  import opened Sums
  import opened CryptoEvidence
  import opened CryptoRiskPolicy
  import opened CryptoRun

  predicate BuyFill(step: Step) {
    step.Fill? && step.intent.side.Buy?
  }

  /** The stop risk that a fill gives back. */
  function RiskReleased(w: World, step: Step): real
    requires step.Fill?
  {
    match IntentAt(w, step.key) case None => 0.0 case Some(i) => i.stopRisk - step.intent.stopRisk
  }

  ghost predicate WithinHeat(p: Policy, equity: real, w: World) {
    Exposure(w, StopRisk) <= Limit(p, equity, StopRisk)
  }

  /** A reserved buy stays at or below its ceiling. */
  lemma ReservedRiskIsGranted(p: Policy, equity: real, w: World, step: Step)
    requires step.Reserve? && step.intent.side.Buy? && Allowed(p, equity, w, step)
    ensures step.situation.equity == equity
    ensures 0.0 < step.intent.stopRisk <= AuthorityOf(p, step.situation, Seen(w, step.intent.symbol), Request(true, step.action)).hardStopRisk
  {
  }

  lemma SeenHeat(w: World, symbol: string)
    ensures Seen(w, symbol).openHeat + Seen(w, symbol).pendingHeat == Exposure(w, StopRisk)
  {
  }

  lemma ReservedRiskFits(p: Policy, equity: real, w: World, step: Step)
    requires step.Reserve? && step.intent.side.Buy? && Allowed(p, equity, w, step)
    ensures Exposure(w, StopRisk) + step.intent.stopRisk <= Limit(p, equity, StopRisk)
  {
    ReservedRiskIsGranted(p, equity, w, step);
    GrantedRiskFits(p, step.situation, Seen(w, step.intent.symbol), Request(true, step.action), step.intent.stopRisk, Exposure(w, StopRisk));
    SeenHeat(w, step.intent.symbol);
  }

  lemma GrantedRiskFits(p: Policy, s: Situation, a: Aggregate, r: Request, risk: real, heat: real)
    requires 0.0 < risk <= AuthorityOf(p, s, a, r).hardStopRisk
    ensures heat == a.openHeat + a.pendingHeat ==> heat + risk <= Limit(p, s.equity, StopRisk)
  {
    StopRiskFits(p, s, a, r, risk);
  }

  lemma HeatAfterReserve(p: Policy, equity: real, w: World, step: Step)
    requires WellFormed(w) && step.Reserve? && step.key !in w.orders && step.key !in w.intents && IntentAccepted(step.intent)
    requires step.intent.side.Buy? ==> Exposure(w, StopRisk) + step.intent.stopRisk <= Limit(p, equity, StopRisk)
    ensures Exposure(After(w, step), StopRisk) <= Max(Exposure(w, StopRisk), Limit(p, equity, StopRisk))
  {
    NewIntentAdds(w, step.key, step.intent, StopRisk);
  }

  /** A buy fill swaps stop risk for market value; nothing else raises heat above the limit. */
  lemma HeatAfterStep(p: Policy, equity: real, w: World, step: Step)
    requires Sound(p, equity, w) && Allowed(p, equity, w, step)
    ensures if BuyFill(step) then Exposure(After(w, step), StopRisk) == Exposure(w, StopRisk) + step.value - RiskReleased(w, step)
            else Exposure(After(w, step), StopRisk) <= Max(Exposure(w, StopRisk), Limit(p, equity, StopRisk))
  {
    match step
    case Reserve(_, intent, _, _) =>
      ReservedKeyIsNew(p, equity, w, step);
      if intent.side.Buy? {
        ReservedRiskFits(p, equity, w, step);
      }
      HeatAfterReserve(p, equity, w, step);
    case Submit(_, _) => SubmitAddsNothing(w, step, StopRisk);
    case Fill(_, _, _, _, _, _, _, _) => FillMoves(w, step, StopRisk);
    case Close(_, _, _) => CloseOnlyReleases(w, step, StopRisk);
  }

  ghost predicate WithinHeatThroughout(p: Policy, equity: real, w: World, steps: seq<Step>)
    decreases |steps|
  {
    WithinHeat(p, equity, w) && (steps != [] ==> WithinHeatThroughout(p, equity, After(w, steps[0]), steps[1..]))
  }

  // ----- what an account has committed -----

  /** What filling the rest of a buy can add to heat: its value comes in, and its stop risk goes in the same ratio. */
  function Growth(intent: Intent): (growth: real)
    ensures growth >= 0.0
  {
    if intent.cryptoClass && intent.side.Buy? && intent.remaining > 0.0 then Max(0.0, intent.notional - intent.stopRisk) else 0.0
  }

  function Growths(intents: map<string, Intent>): map<string, real> {
    map k | k in intents :: Growth(intents[k])
  }

  /** The heat that is there, and all that the reserved buys can add to it. */
  ghost function Committed(w: World): real {
    Exposure(w, StopRisk) + Total(Growths(w.intents))
  }

  predicate BuyReservation(step: Step) {
    step.Reserve? && step.intent.side.Buy?
  }

  function GrowthAt(intent: Option<Intent>): real {
    if intent.Some? then Growth(intent.value) else 0.0
  }

  lemma PutChangesOneGrowth(w: World, key: string, order: Option<Order>, intent: Option<Intent>)
    ensures Total(Growths(Put(w, key, order, intent).intents)) == Total(Growths(w.intents)) - GrowthAt(IntentAt(w, key)) + GrowthAt(intent)
  {
    var before, after := Growths(w.intents), Growths(Put(w, key, order, intent).intents);
    assert before - {key} == after - {key};
    TotalWithout(before, key);
    TotalWithout(after, key);
  }

  /** A fill adds to heat at most what it takes from the growth that is left. */
  lemma ValueIsCovered(notional: real, stopRisk: real, kept: real, value: real)
    requires 0.0 <= kept <= 1.0 && value <= notional - Times(notional, kept)
    ensures value - stopRisk + Times(stopRisk, kept) <= Max(0.0, notional - stopRisk) - Max(0.0, Times(notional, kept) - Times(stopRisk, kept))
  {
    assert Times(notional, kept) - Times(stopRisk, kept) == Times(notional - stopRisk, kept);
    KeepsAPart(notional - stopRisk, kept);
    KeepsAPart(stopRisk - notional, kept);
    assert Times(stopRisk - notional, kept) == -Times(notional - stopRisk, kept);
  }

  lemma FillIsCovered(w: World, step: Step)
    requires WellFormed(w) && step.Fill? && FillsStep(w, step)
    ensures PositionAmount(Position(step.intent.symbol, true, step.quantity, step.value, step.average), StopRisk)
          - IntentAmount(w.intents[step.key], StopRisk) + IntentAmount(step.intent, StopRisk)
         <= Growth(w.intents[step.key]) - Growth(step.intent)
  {
    var before := w.intents[step.key];
    if step.intent.side.Buy? {
      var kept := Kept(before, step.filled);
      ValueIsCovered(before.notional, before.stopRisk, kept, step.value);
      KeepsAPart(before.notional, kept);
      KeepsAPart(before.stopRisk, kept);
    }
  }

  lemma CommittedAfterReserve(w: World, step: Step)
    requires WellFormed(w) && step.Reserve? && step.key !in w.orders && step.key !in w.intents && IntentAccepted(step.intent)
    ensures if BuyReservation(step) then Committed(After(w, step)) == Committed(w) + step.intent.stopRisk + Growth(step.intent)
            else Committed(After(w, step)) <= Committed(w)
  {
    NewIntentAdds(w, step.key, step.intent, StopRisk);
    PutChangesOneGrowth(w, step.key, OrderAt(w, step.key), Some(step.intent));
  }

  lemma CommittedAfterFill(w: World, step: Step)
    requires WellFormed(w) && step.Fill? && FillsStep(w, step)
    ensures Committed(After(w, step)) <= Committed(w)
  {
    FillMoves(w, step, StopRisk);
    FillIsCovered(w, step);
    PutChangesOneGrowth(w, step.key, step.left, Some(step.intent));
  }

  lemma CommittedAfterClose(w: World, step: Step)
    requires WellFormed(w) && step.Close?
    ensures Committed(After(w, step)) <= Committed(w)
  {
    CloseOnlyReleases(w, step, StopRisk);
    PutChangesOneGrowth(w, step.key, if step.closesOrder then None else OrderAt(w, step.key), if step.closesIntent then None else IntentAt(w, step.key));
  }

  /** Only a buy reservation raises what is committed, by its stop risk and what filling it can add. */
  lemma CommittedAfterStep(p: Policy, equity: real, w: World, step: Step)
    requires WellFormed(w) && Allowed(p, equity, w, step)
    ensures if BuyReservation(step) then Committed(After(w, step)) == Committed(w) + step.intent.stopRisk + Growth(step.intent)
            else Committed(After(w, step)) <= Committed(w)
  {
    match step
    case Reserve(_, _, _, _) =>
      ReservedKeyIsNew(p, equity, w, step);
      CommittedAfterReserve(w, step);
    case Submit(key, order) =>
      SubmitAddsNothing(w, step, StopRisk);
      PutChangesOneGrowth(w, key, Some(order), IntentAt(w, key));
    case Fill(_, _, _, _, _, _, _, _) => CommittedAfterFill(w, step);
    case Close(_, _, _) => CommittedAfterClose(w, step);
  }

  lemma CommittedCoversHeat(w: World)
    requires WellFormed(w)
    ensures Exposure(w, StopRisk) <= Committed(w)
  {
    EntryWithinTotal(Growths(w.intents), "");
  }

  // ----- the run that fills everything -----

  /** The reserved buys that can still add to heat. */
  function Growing(w: World): set<string> {
    set k | k in w.intents && Growth(w.intents[k]) > 0.0
  }

  function OrderFor(intent: Intent, key: string): Order {
    Order(key, "b", intent.symbol, true, intent.side, intent.remaining, intent.notional)
  }

  /** The order of a growing buy is placed, for all that it reserves. */
  lemma PlacingKeepsCommitted(w: World, key: string)
    requires WellFormed(w) && key in Growing(w) && key !in w.orders
    ensures var next := After(w, Submit(key, OrderFor(w.intents[key], key)));
      && Submits(w, key, OrderFor(w.intents[key], key)) && WellFormed(next) && next.intents == w.intents && key in next.orders
      && Committed(next) == Committed(w)
  {
    var order := OrderFor(w.intents[key], key);
    PutKeepsWellFormed(w, key, Some(order), IntentAt(w, key));
    SubmitAddsNothing(w, Submit(key, order), StopRisk);
    assert After(w, Submit(key, order)).intents == w.intents;
  }

  /** The whole remaining quantity of a reservation is filled, for its whole notional. */
  function WholeFill(key: string, intent: Intent): Step
    requires intent.remaining > 0.0
  {
    Fill(key, FilledBy(intent, intent.remaining), intent.remaining, None, intent.notional, intent.remaining, intent.notional, None)
  }

  function FillAll(w: World, key: string): Step
    requires key in Growing(w)
  {
    WholeFill(key, w.intents[key])
  }

  lemma {:induction false} BookKeepsPositions(positions: seq<Position>, symbol: string, quantity: real, value: real)
    requires (forall p <- positions :: PositionAccepted(p)) && quantity >= 0.0 && value >= 0.0
    ensures forall p <- Book(positions, symbol, quantity, value, None) :: PositionAccepted(p)
  {
    if positions != [] {
      var front, last := positions[..|positions| - 1], positions[|positions| - 1];
      assert last in positions && forall p <- front :: p in positions;
      BookKeepsPositions(front, symbol, quantity, value);
    }
  }

  lemma FillAllLeavesNothing(w: World, key: string)
    requires key in Growing(w)
    ensures var left := FillAll(w, key).intent; left.remaining == 0.0 && left.notional == 0.0 && left.stopRisk == 0.0
  {
    WholeFillLeavesNothing(w.intents[key]);
  }

  lemma WholeFillIsAllowed(w: World, key: string, intent: Intent)
    requires WellFormed(w) && key in w.intents && w.intents[key] == intent
    requires intent.cryptoClass && intent.side.Buy? && intent.remaining > 0.0
    ensures FillsStep(w, WholeFill(key, intent)) && WellFormed(After(w, WholeFill(key, intent)))
  {
    var step := WholeFill(key, intent);
    WholeFillLeavesNothing(intent);
    BookKeepsPositions(w.positions, intent.symbol, step.quantity, step.value);
    PutKeepsWellFormed(w, key, None, Some(step.intent));
  }

  /** Filling all of it turns growth into heat and leaves the committed amount as it was. */
  lemma FillAllMoves(w: World, key: string)
    requires WellFormed(w) && key in Growing(w) && FillsStep(w, FillAll(w, key))
    ensures Committed(After(w, FillAll(w, key))) == Committed(w)
  {
    var step := FillAll(w, key);
    FillAllLeavesNothing(w, key);
    FillMoves(w, step, StopRisk);
    PutChangesOneGrowth(w, key, None, Some(step.intent));
  }

  lemma FillAllFinishes(w: World, key: string)
    requires key in Growing(w)
    ensures Growing(After(w, FillAll(w, key))) == Growing(w) - {key}
  {
    FillAllLeavesNothing(w, key);
  }

  lemma {:induction false} NothingGrows(m: map<string, real>)
    requires forall k <- m :: m[k] == 0.0
    ensures Total(m) == 0.0
    decreases |m|
  {
    if m != map[] {
      var k :| k in m;
      TotalSplit(m, k);
      NothingGrows(m - {k});
    }
  }

  lemma CommittedWithoutGrowth(w: World)
    requires Growing(w) == {}
    ensures Committed(w) == Exposure(w, StopRisk)
  {
    forall k | k in w.intents
      ensures Growths(w.intents)[k] == 0.0
    {
      assert k !in Growing(w);
    }
    NothingGrows(Growths(w.intents));
  }

  predicate NoNewBuys(steps: seq<Step>) {
    forall step <- steps :: !BuyReservation(step)
  }

  /** Every fill is of an order that is open at the broker. */
  predicate FillsOpenOrders(w: World, steps: seq<Step>)
    decreases |steps|
  {
    steps != [] ==> (steps[0].Fill? ==> steps[0].key in w.orders) && FillsOpenOrders(After(w, steps[0]), steps[1..])
  }

  lemma OpenFillsStart(w: World, step: Step, rest: seq<Step>)
    requires (step.Fill? ==> step.key in w.orders) && FillsOpenOrders(After(w, step), rest)
    ensures FillsOpenOrders(w, [step] + rest)
  {
    assert ([step] + rest)[1..] == rest;
  }

  lemma PlacingLeavesFewer(w: World, next: World, key: string)
    requires key in Growing(w) && key !in w.orders && next.intents == w.intents && next.orders.Keys == w.orders.Keys + {key}
    ensures Growing(next) == Growing(w) && |Growing(next) - next.orders.Keys| < |Growing(w) - w.orders.Keys|
  {
    assert Growing(w) - w.orders.Keys == (Growing(next) - next.orders.Keys) + {key};
  }

  lemma FillingLeavesFewer(w: World, key: string)
    requires key in Growing(w)
    ensures |Growing(After(w, FillAll(w, key)))| < |Growing(w)|
  {
    FillAllFinishes(w, key);
    assert Growing(w) == (Growing(w) - {key}) + {key};
  }

  /** While something can grow, one more step takes it further: its order is placed, or filled. */
  lemma NextTowardsHeat(p: Policy, equity: real, w: World, key: string) returns (step: Step)
    requires WellFormed(w) && key in Growing(w)
    ensures Allowed(p, equity, w, step) && !BuyReservation(step) && (step.Fill? ==> step.key in w.orders)
    ensures WellFormed(After(w, step)) && Committed(After(w, step)) == Committed(w)
    ensures var next := After(w, step);
      || |Growing(next)| < |Growing(w)|
      || (|Growing(next)| == |Growing(w)| && |Growing(next) - next.orders.Keys| < |Growing(w) - w.orders.Keys|)
  {
    if key in w.orders {
      step := FillAll(w, key);
      WholeFillIsAllowed(w, key, w.intents[key]);
      FillAllMoves(w, key);
      FillingLeavesFewer(w, key);
    } else {
      step := Submit(key, OrderFor(w.intents[key], key));
      PlacingKeepsCommitted(w, key);
      PlacingLeavesFewer(w, After(w, step), key);
    }
  }

  /** Some allowed run places and fills what it needs to turn all that is committed into heat. */
  lemma {:induction false} FillEverything(p: Policy, equity: real, w: World) returns (steps: seq<Step>)
    requires WellFormed(w)
    ensures NoNewBuys(steps) && AllowedRun(p, equity, w, steps) && FillsOpenOrders(w, steps)
    ensures Exposure(AfterRun(w, steps), StopRisk) == Committed(w)
    decreases |Growing(w)|, |Growing(w) - w.orders.Keys|
  {
    if Growing(w) == {} {
      steps := [];
      CommittedWithoutGrowth(w);
    } else {
      var key :| key in Growing(w);
      var step := NextTowardsHeat(p, equity, w, key);
      var rest := FillEverything(p, equity, After(w, step));
      RunStarts(p, equity, w, step, rest);
      OpenFillsStart(w, step, rest);
      steps := [step] + rest;
    }
  }

  // ----- when heat is safe -----

  /** Whatever is submitted, filled, closed or sold from here on, without a new buy the limit holds. */
  ghost predicate HeatIsSafe(p: Policy, equity: real, w: World) {
    forall steps: seq<Step> :: NoNewBuys(steps) && AllowedRun(p, equity, w, steps) ==> WithinHeatThroughout(p, equity, w, steps)
  }

  lemma {:induction false} CommittedBoundsHeat(p: Policy, equity: real, w: World, steps: seq<Step>)
    requires WellFormed(w) && Committed(w) <= Limit(p, equity, StopRisk)
    requires NoNewBuys(steps) && AllowedRun(p, equity, w, steps)
    ensures WithinHeatThroughout(p, equity, w, steps)
    decreases |steps|
  {
    CommittedCoversHeat(w);
    if steps != [] {
      assert steps[0] in steps;
      CommittedAfterStep(p, equity, w, steps[0]);
      StepKeepsWellFormed(p, equity, w, steps[0]);
      CommittedBoundsHeat(p, equity, After(w, steps[0]), steps[1..]);
    }
  }

  lemma {:induction false} ThroughoutAtEnd(p: Policy, equity: real, w: World, steps: seq<Step>)
    requires WithinHeatThroughout(p, equity, w, steps)
    ensures WithinHeat(p, equity, AfterRun(w, steps))
    decreases |steps|
  {
    if steps != [] {
      ThroughoutAtEnd(p, equity, After(w, steps[0]), steps[1..]);
    }
  }

  /** Heat is safe exactly when the positions and, for each reserved buy, the larger of stop risk and notional fit its limit. */
  lemma HeatIsSafeIffCommittedFits(p: Policy, equity: real, w: World)
    requires WellFormed(w)
    ensures HeatIsSafe(p, equity, w) <==> Committed(w) <= Limit(p, equity, StopRisk)
  {
    if Committed(w) <= Limit(p, equity, StopRisk) {
      forall steps: seq<Step> | NoNewBuys(steps) && AllowedRun(p, equity, w, steps)
        ensures WithinHeatThroughout(p, equity, w, steps)
      {
        CommittedBoundsHeat(p, equity, w, steps);
      }
    } else {
      var steps := FillEverything(p, equity, w);
      if WithinHeatThroughout(p, equity, w, steps) {
        ThroughoutAtEnd(p, equity, w, steps);
      }
    }
  }

  // ----- whole runs with new buys -----

  ghost predicate SafeThroughout(p: Policy, equity: real, w: World, steps: seq<Step>)
    decreases |steps|
  {
    HeatIsSafe(p, equity, w) && (steps != [] ==> SafeThroughout(p, equity, After(w, steps[0]), steps[1..]))
  }

  /** A guard the caller can check before it reserves: the buy counts for the larger of its stop risk and its notional. */
  ghost predicate LeavesRoom(p: Policy, equity: real, w: World, step: Step) {
    BuyReservation(step) ==> Committed(w) + step.intent.stopRisk + Growth(step.intent) <= Limit(p, equity, StopRisk)
  }

  ghost predicate ReservationsLeaveRoom(p: Policy, equity: real, w: World, steps: seq<Step>)
    decreases |steps|
  {
    steps != [] ==> LeavesRoom(p, equity, w, steps[0]) && ReservationsLeaveRoom(p, equity, After(w, steps[0]), steps[1..])
  }

  /** A run keeps heat safe at every moment exactly when each buy that it reserves leaves room for what is committed. */
  lemma {:induction false} HeatStaysSafeIffReservationsLeaveRoom(p: Policy, equity: real, w: World, steps: seq<Step>)
    requires WellFormed(w) && Committed(w) <= Limit(p, equity, StopRisk) && AllowedRun(p, equity, w, steps)
    ensures SafeThroughout(p, equity, w, steps) <==> ReservationsLeaveRoom(p, equity, w, steps)
    decreases |steps|
  {
    HeatIsSafeIffCommittedFits(p, equity, w);
    if steps != [] {
      var next := After(w, steps[0]);
      CommittedAfterStep(p, equity, w, steps[0]);
      StepKeepsWellFormed(p, equity, w, steps[0]);
      HeatIsSafeIffCommittedFits(p, equity, next);
      if Committed(next) <= Limit(p, equity, StopRisk) {
        HeatStaysSafeIffReservationsLeaveRoom(p, equity, next, steps[1..]);
      }
    }
  }

  lemma {:induction false} SafeRunsKeepHeat(p: Policy, equity: real, w: World, steps: seq<Step>)
    requires SafeThroughout(p, equity, w, steps)
    ensures WithinHeatThroughout(p, equity, w, steps)
    decreases |steps|
  {
    assert WithinHeatThroughout(p, equity, w, []);
    if steps != [] {
      SafeRunsKeepHeat(p, equity, After(w, steps[0]), steps[1..]);
    }
  }

  /** If every buy is reserved under that guard, the heat limit holds after every step of every run. */
  lemma GuardedRunsKeepHeat(p: Policy, equity: real, w: World, steps: seq<Step>)
    requires WellFormed(w) && Committed(w) <= Limit(p, equity, StopRisk) && AllowedRun(p, equity, w, steps)
    requires ReservationsLeaveRoom(p, equity, w, steps)
    ensures WithinHeatThroughout(p, equity, w, steps)
  {
    HeatStaysSafeIffReservationsLeaveRoom(p, equity, w, steps);
    SafeRunsKeepHeat(p, equity, w, steps);
  }

  /** Once heat is at its limit no buy can be reserved. */
  lemma HotLaneReservesNoBuy(p: Policy, equity: real, w: World, step: Step)
    requires Exposure(w, StopRisk) >= Limit(p, equity, StopRisk)
    requires step.Reserve? && step.intent.side.Buy?
    ensures !Allowed(p, equity, w, step)
  {
    if Allowed(p, equity, w, step) {
      NoBuyWhenHalted(p, step.situation, Seen(w, step.intent.symbol), Request(true, step.action));
    }
  }

  // ----- a run that breaks the heat limit -----

  function SamplePolicy(): Policy {
    Policy(50.0, 5.0, 3.0, 5.0, 0.05, 0.20, 10.0, 1.0, 2.0, 1.0, 2.0, 2.0, 4.0, 0.5, 0.5, 1.0, 0.5, 2, 1000.0, false)
  }

  function SampleSituation(): Situation {
    Situation(100000.0, 100000.0, 100000.0, 100000.0, true, 0.0, 0.0, 0.0, 0.0, 0.0, None)
  }

  function EmptyWorld(): World {
    World(100000.0, [], map[], map[])
  }

  predicate SmallBuy(i: Intent) {
    && i.clientId == "c" && i.symbol == "BTC/USD" && i.side.Buy? && i.cryptoClass && i.remaining > 0.0
    && 0.0 < i.notional <= 1000.0 && 0.0 < i.stopRisk <= 50.0
  }

  function SampleReserve(i: Intent): Step {
    Reserve(i.clientId, i, SampleSituation(), Enter)
  }

  function SampleSubmit(i: Intent): Step {
    Submit(i.clientId, OrderFor(i, i.clientId))
  }

  /** The order is reserved, placed and filled. */
  function SampleRun(i: Intent): seq<Step>
    requires i.remaining > 0.0
  {
    [SampleReserve(i)] + ([SampleSubmit(i)] + [WholeFill(i.clientId, i)])
  }

  lemma NothingOutstanding(w: World, m: Measure)
    requires w.orders == map[] && w.intents == map[]
    ensures Outstanding(w, m) == 0.0
  {
    assert Groups(w, m) == map[];
  }

  lemma SampleIsSound()
    ensures PolicyAccepted(SamplePolicy()) && Sound(SamplePolicy(), 100000.0, EmptyWorld())
    ensures WithinHeat(SamplePolicy(), 100000.0, EmptyWorld())
  {
    forall m: Measure
      ensures Exposure(EmptyWorld(), m) == 0.0
    {
      NothingOutstanding(EmptyWorld(), m);
    }
    assert ActiveBuys(EmptyWorld()) == {};
  }

  /** What is seen of an account with nothing on it. */
  predicate SeesNothing(a: Aggregate) {
    && a.allGross == a.cryptoGross == a.symbolGross == a.quantity == a.openHeat == 0.0 && a.averageEntry.None?
    && a.pendingCrypto == a.pendingAll == a.pendingHeat == 0.0
    && a.cryptoHoldings == a.intents == a.activeOrders == a.symbolActiveOrders == 0
  }

  lemma EmptyWorldShowsNothing(symbol: string)
    ensures SeesNothing(Seen(EmptyWorld(), symbol))
  {
    NothingOutstanding(EmptyWorld(), CryptoBuys);
    NothingOutstanding(EmptyWorld(), AllBuys);
    NothingOutstanding(EmptyWorld(), StopRisk);
    assert Active(EmptyWorld()) == map[] && KeysOf(map[], symbol) == {};
  }

  lemma SampleIsNotThrottled()
    ensures Throttle(SamplePolicy(), SampleSituation()) == 1.0 && !LossHalt(SamplePolicy(), SampleSituation()) && DrawdownOf(SampleSituation()) == 0.0
  {
  }

  lemma SampleCapacities(a: Aggregate)
    requires SeesNothing(a)
    ensures Smallest(CapacitiesOf(SamplePolicy(), SampleSituation(), a)) == 1000.0
    ensures StopRiskRoom(SamplePolicy(), SampleSituation(), a) == 50.0
  {
    SampleIsNotThrottled();
    assert CapacitiesOf(SamplePolicy(), SampleSituation(), a) == Capacities(1000.0, 50000.0, 5000.0, 3000.0, 5000.0, 90000.0, 100000.0);
    assert Percent(100000.0, 0.05) == 50.0 && Percent(100000.0, 0.20) == 200.0;
  }

  lemma SampleFailsNoCheck(a: Aggregate)
    requires SeesNothing(a)
    ensures FailedChecks(SamplePolicy(), SampleSituation(), a, Request(true, Enter), 1000.0, 50.0) == {}
  {
    SampleIsNotThrottled();
    assert FailedAccountChecks(SamplePolicy(), SampleSituation(), Request(true, Enter)) == {};
    assert FailedLossChecks(SamplePolicy(), SampleSituation(), Request(true, Enter)) == {};
    assert FailedPositionChecks(SamplePolicy(), SampleSituation(), a, Request(true, Enter)) == {};
    assert FailedCapacityChecks(Request(true, Enter), 1000.0, 50.0) == {};
  }

  lemma UnthrottledAuthority(p: Policy, s: Situation, a: Aggregate, r: Request, notional: real, stopRisk: real)
    requires PolicyAccepted(p) && SituationAccepted(s) && p.maximumOrderNotional >= 0.0 && !Refused(p, s, a, r) && Throttle(p, s) == 1.0
    requires Smallest(CapacitiesOf(p, s, a)) == notional && StopRiskRoom(p, s, a) == stopRisk
    ensures AuthorityOf(p, s, a, r) == Authority(notional, stopRisk, FailedChecks(p, s, a, r, notional, stopRisk))
  {
    ThrottledByOne(notional);
  }

  lemma SampleIsNotRefused(a: Aggregate)
    requires SeesNothing(a)
    ensures PolicyAccepted(SamplePolicy()) && SituationAccepted(SampleSituation()) && SamplePolicy().maximumOrderNotional == 1000.0
    ensures !Refused(SamplePolicy(), SampleSituation(), a, Request(true, Enter))
  {
  }

  lemma SampleAuthority(a: Aggregate)
    requires SeesNothing(a)
    ensures AuthorityOf(SamplePolicy(), SampleSituation(), a, Request(true, Enter)) == Authority(1000.0, 50.0, {})
  {
    SampleIsNotThrottled();
    SampleIsNotRefused(a);
    SampleCapacities(a);
    SampleFailsNoCheck(a);
    UnthrottledAuthority(SamplePolicy(), SampleSituation(), a, Request(true, Enter), 1000.0, 50.0);
  }

  function Reserved(i: Intent): World {
    After(EmptyWorld(), SampleReserve(i))
  }

  function Submitted(i: Intent): World {
    After(Reserved(i), SampleSubmit(i))
  }

  lemma SampleAuthorityAtStart()
    ensures var authority := AuthorityOf(SamplePolicy(), SampleSituation(), Seen(EmptyWorld(), "BTC/USD"), Request(true, Enter));
      authority.failed == {} && authority.hardNotional == 1000.0 && authority.hardStopRisk == 50.0
  {
    EmptyWorldShowsNothing("BTC/USD");
    SampleAuthority(Seen(EmptyWorld(), "BTC/USD"));
  }

  lemma SampleReserveIsAllowed(i: Intent)
    requires SmallBuy(i)
    ensures Allowed(SamplePolicy(), 100000.0, EmptyWorld(), SampleReserve(i))
  {
    SampleAuthorityAtStart();
    assert Reserves(SamplePolicy(), 100000.0, EmptyWorld(), i.clientId, i, SampleSituation(), Enter);
  }

  lemma ReservedHeat(i: Intent)
    requires SmallBuy(i)
    ensures Exposure(Reserved(i), StopRisk) == i.stopRisk && WellFormed(Reserved(i)) && Reserved(i).orders == map[]
    ensures Reserved(i).intents == map[i.clientId := i] && Reserved(i).positions == []
  {
    NothingOutstanding(EmptyWorld(), StopRisk);
    PutChangesOneGroup(EmptyWorld(), i.clientId, None, Some(i), StopRisk);
    assert EmptyWorld().orders - {i.clientId} == EmptyWorld().orders;
  }

  lemma SubmittedHeat(i: Intent, reserved: World)
    requires SmallBuy(i) && WellFormed(reserved) && reserved.orders == map[] && reserved.intents == map[i.clientId := i]
    ensures Submits(reserved, i.clientId, OrderFor(i, i.clientId))
    ensures var submitted := After(reserved, SampleSubmit(i));
      && Exposure(submitted, StopRisk) == Exposure(reserved, StopRisk) && WellFormed(submitted)
      && submitted.intents == reserved.intents && submitted.positions == reserved.positions
  {
    PutKeepsWellFormed(reserved, i.clientId, Some(OrderFor(i, i.clientId)), IntentAt(reserved, i.clientId));
    SubmitAddsNothing(reserved, SampleSubmit(i), StopRisk);
  }

  lemma FilledHeat(i: Intent, submitted: World)
    requires SmallBuy(i) && WellFormed(submitted) && submitted.intents == map[i.clientId := i]
    ensures FillsStep(submitted, WholeFill(i.clientId, i))
    ensures Exposure(After(submitted, WholeFill(i.clientId, i)), StopRisk) == Exposure(submitted, StopRisk) - i.stopRisk + i.notional
  {
    WholeFillIsAllowed(submitted, i.clientId, i);
    WholeFillLeavesNothing(i);
    FillMoves(submitted, WholeFill(i.clientId, i), StopRisk);
  }

  lemma RunOfThree(p: Policy, equity: real, w: World, a: Step, b: Step, c: Step)
    requires Allowed(p, equity, w, a) && Allowed(p, equity, After(w, a), b) && Allowed(p, equity, After(After(w, a), b), c)
    ensures AllowedRun(p, equity, w, [a] + ([b] + [c]))
  {
    assert [c] + [] == [c];
    RunStarts(p, equity, After(After(w, a), b), c, []);
    RunStarts(p, equity, After(w, a), b, [c]);
    RunStarts(p, equity, w, a, [b] + [c]);
  }

  lemma SampleRunEnds(w: World, a: Step, b: Step, c: Step)
    ensures AfterRun(w, [a] + ([b] + [c])) == After(After(After(w, a), b), c)
  {
    assert ([a] + ([b] + [c]))[1..] == [b] + [c] && ([b] + [c])[1..] == [c] && [c][1..] == [];
    assert AfterRun(After(After(w, a), b), [c]) == After(After(After(w, a), b), c);
    assert AfterRun(After(w, a), [b] + [c]) == AfterRun(After(After(w, a), b), [c]);
  }

  lemma SampleRunIsAllowed(i: Intent)
    requires SmallBuy(i)
    ensures AllowedRun(SamplePolicy(), 100000.0, EmptyWorld(), SampleRun(i))
  {
    SampleReserveIsAllowed(i);
    ReservedHeat(i);
    SubmittedHeat(i, Reserved(i));
    FilledHeat(i, Submitted(i));
    RunOfThree(SamplePolicy(), 100000.0, EmptyWorld(), SampleReserve(i), SampleSubmit(i), WholeFill(i.clientId, i));
  }

  /** The heat after the run is what the order was worth, however small its stop risk. */
  lemma SampleHeat(i: Intent)
    requires SmallBuy(i)
    ensures Exposure(AfterRun(EmptyWorld(), SampleRun(i)), StopRisk) == i.notional
  {
    SampleRunEnds(EmptyWorld(), SampleReserve(i), SampleSubmit(i), WholeFill(i.clientId, i));
    ReservedHeat(i);
    SubmittedHeat(i, Reserved(i));
    FilledHeat(i, Submitted(i));
  }

  /** From an empty account: a reserved, submitted and filled order of 1000 with a stop risk of 50, against a heat limit of 200. */
  lemma FilledOrderCanBreakHeat(i: Intent, end: World)
    requires SmallBuy(i) && i.notional == 1000.0 && i.stopRisk == 50.0 && end == AfterRun(EmptyWorld(), SampleRun(i))
    ensures Exposure(end, StopRisk) == 1000.0 && Limit(SamplePolicy(), 100000.0, StopRisk) == 200.0
  {
    SampleHeat(i);
  }
}
