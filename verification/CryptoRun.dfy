/**
Whole runs of the supervised crypto lane: an order is reserved against the derived authority of
app/crypto_risk.py, submitted under the same client identity, filled within its reservation, and
closed. Equity and prices stay fixed. The account limits hold after every step of every run, except
those on heat and on the number of all orders, which CryptoHeat and CryptoOrderCount take up.
*/
module CryptoRun {
  import opened Wrappers
  import opened Sums
  import opened Quotients
  import opened CryptoEvidence
  import opened CryptoRiskPolicy

  /** Orders and intents are kept under the identity that the evidence files them by. */
  datatype World = World(cash: real, positions: seq<Position>, orders: map<string, Order>, intents: map<string, Intent>)

  // ----- exposures -----

  function OrderAmounts(orders: map<string, Order>, m: Measure): map<string, real> {
    map k | k in orders :: OrderAmount(orders[k], m)
  }

  function IntentAmounts(intents: map<string, Intent>, m: Measure): map<string, real> {
    map k | k in intents :: IntentAmount(intents[k], m)
  }

  function Groups(w: World, m: Measure): map<string, real> {
    Joined(OrderAmounts(w.orders, m), IntentAmounts(w.intents, m))
  }

  ghost function Outstanding(w: World, m: Measure): real {
    Total(Groups(w, m))
  }

  ghost function Exposure(w: World, m: Measure): real {
    PositionTotal(w.positions, m) + Outstanding(w, m)
  }

  function Limit(p: Policy, equity: real, m: Measure): real {
    match m
    case AllBuys => Percent(equity, p.totalPct)
    case CryptoBuys => Percent(equity, p.clusterPct)
    case SymbolBuys(_) => Percent(equity, p.symbolPct)
    case StopRisk => Percent(equity, p.heatPct)
    case Sells(_) => 0.0
  }

  predicate Notional(m: Measure) {
    m.AllBuys? || m.CryptoBuys? || m.SymbolBuys?
  }

  // ----- unresolved orders -----

  predicate ActiveOrder(w: World, k: string) {
    k in w.orders && w.orders[k].crypto
  }

  predicate ActiveIntent(w: World, k: string) {
    k in w.intents && w.intents[k].cryptoClass
  }

  function Active(w: World): map<string, string> {
    map k | k in w.orders.Keys + w.intents.Keys && (ActiveOrder(w, k) || ActiveIntent(w, k)) ::
      if ActiveOrder(w, k) then w.orders[k].symbol else w.intents[k].symbol
  }

  predicate Buys(w: World, k: string) {
    if ActiveOrder(w, k) then w.orders[k].side.Buy? else ActiveIntent(w, k) && w.intents[k].side.Buy?
  }

  function ActiveBuys(w: World): set<string> {
    set k | k in Active(w) && Buys(w, k)
  }

  // ----- what the risk service sees -----

  ghost function Seen(w: World, symbol: string): Aggregate {
    Aggregate(
      PositionTotal(w.positions, AllBuys),
      PositionTotal(w.positions, CryptoBuys),
      PositionTotal(w.positions, SymbolBuys(symbol)),
      QuantityOf(w.positions, symbol),
      AverageEntry(w.positions, symbol),
      PositionTotal(w.positions, StopRisk),
      Outstanding(w, CryptoBuys),
      Outstanding(w, AllBuys),
      Outstanding(w, Sells(symbol)),
      Outstanding(w, StopRisk),
      CryptoHoldings(w.positions),
      |w.intents|,
      |Active(w)|,
      |KeysOf(Active(w), symbol)|)
  }

  // ----- steps -----

  datatype Step =
    | Reserve(key: string, intent: Intent, situation: Situation, action: Action)
    | Submit(key: string, order: Order)
    | Fill(key: string, intent: Intent, filled: real, left: Option<Order>, cash: real, quantity: real, value: real, average: Option<real>)
    | Close(key: string, closesOrder: bool, closesIntent: bool)

  /** The records under one identity are replaced or taken away. */
  function Put(w: World, key: string, order: Option<Order>, intent: Option<Intent>): World {
    w.(orders := match order case None => w.orders - {key} case Some(o) => w.orders[key := o],
       intents := match intent case None => w.intents - {key} case Some(i) => w.intents[key := i])
  }

  function OrderAt(w: World, key: string): Option<Order> {
    if key in w.orders then Some(w.orders[key]) else None
  }

  function IntentAt(w: World, key: string): Option<Intent> {
    if key in w.intents then Some(w.intents[key]) else None
  }

  /** A fill changes the position in its symbol, or opens it. */
  function Book(positions: seq<Position>, symbol: string, quantity: real, value: real, average: Option<real>): seq<Position> {
    if positions == [] then [Position(symbol, true, quantity, value, average)]
    else
      var front, last := positions[..|positions| - 1], positions[|positions| - 1];
      if HoldsSymbol(last, symbol) then front + [last.(quantity := last.quantity + quantity, value := last.value + value, averageEntry := average)]
      else Book(front, symbol, quantity, value, average) + [last]
  }

  function After(w: World, step: Step): World {
    match step
    case Reserve(key, intent, _, _) => Put(w, key, OrderAt(w, key), Some(intent))
    case Submit(key, order) => Put(w, key, Some(order), IntentAt(w, key))
    case Fill(key, intent, _, order, cash, quantity, value, average) =>
      Put(w, key, order, Some(intent)).(
        cash := if intent.side.Buy? then w.cash - cash else w.cash + cash,
        positions := Book(w.positions, intent.symbol, quantity, value, average))
    case Close(key, closesOrder, closesIntent) =>
      Put(w, key, if closesOrder then None else OrderAt(w, key), if closesIntent then None else IntentAt(w, key))
  }

  /** A reservation needs an eligible decision, and a buy stays at or below its ceilings. */
  ghost predicate Reserves(p: Policy, equity: real, w: World, key: string, intent: Intent, s: Situation, action: Action) {
    var authority := AuthorityOf(p, s, Seen(w, intent.symbol), Request(intent.side.Buy?, action));
    && key !in w.orders && key !in w.intents && intent.clientId == key && intent.cryptoClass && IntentAccepted(intent)
    && s.equity == equity && s.cash == w.cash
    && !intent.side.OtherSide? && authority.failed == {}
    && (intent.side.Buy? ==> 0.0 < intent.notional <= authority.hardNotional && 0.0 < intent.stopRisk <= authority.hardStopRisk)
  }

  /** The order repeats its intent: same identity, symbol and side, and at most the reserved notional. */
  predicate Matches(order: Order, intent: Intent) {
    && order.crypto && order.symbol == intent.symbol && order.side == intent.side
    && (order.side.Buy? ==> order.pending <= intent.notional)
  }

  predicate Submits(w: World, key: string, order: Order) {
    && ActiveIntent(w, key) && key !in w.orders && order.clientId == key
    && OrderAccepted(order) && Matches(order, w.intents[key]) && (!order.side.Buy? ==> order.pending == 0.0)
  }

  /** The part of a reservation that is left when some of what remains is filled. */
  function Kept(i: Intent, filled: real): (kept: real)
    requires 0.0 < filled <= i.remaining
    ensures 0.0 <= kept <= 1.0 && (filled == i.remaining ==> kept == 0.0)
  {
    QuotientSign(i.remaining - filled, i.remaining);
    QuotientBelow(i.remaining, i.remaining, 1.0);
    QuotientOrder(i.remaining - filled, i.remaining, i.remaining);
    Quotient(i.remaining - filled, i.remaining)
  }

  lemma KeepsAPart(amount: real, kept: real)
    requires 0.0 <= kept <= 1.0
    ensures amount >= 0.0 ==> 0.0 <= Times(amount, kept) <= amount
    ensures kept == 0.0 ==> Times(amount, kept) == 0.0
  {
    if amount >= 0.0 {
      assert amount * (1.0 - kept) >= 0.0;
    }
  }

  /** A recorded fill lowers notional and stop risk by one ratio, that of the quantity that remains. */
  function FilledBy(i: Intent, filled: real): (after: Intent)
    requires 0.0 < filled <= i.remaining
    ensures IntentAccepted(i) ==> Lowered(i, after)
  {
    var kept := Kept(i, filled);
    KeepsAPart(i.notional, kept);
    KeepsAPart(i.stopRisk, kept);
    i.(remaining := i.remaining - filled, notional := Times(i.notional, kept), stopRisk := Times(i.stopRisk, kept))
  }

  lemma WholeFillLeavesNothing(i: Intent)
    requires i.remaining > 0.0
    ensures FilledBy(i, i.remaining) == i.(remaining := 0.0, notional := 0.0, stopRisk := 0.0)
  {
    KeepsAPart(i.notional, Kept(i, i.remaining));
    KeepsAPart(i.stopRisk, Kept(i, i.remaining));
  }

  predicate Lowered(before: Intent, after: Intent) {
    && after == before.(remaining := after.remaining, notional := after.notional, stopRisk := after.stopRisk)
    && 0.0 <= after.remaining <= before.remaining
    && 0.0 <= after.notional <= before.notional
    && 0.0 <= after.stopRisk <= before.stopRisk
  }

  predicate OrderLowered(before: Order, after: Order) {
    && after == before.(remaining := after.remaining, pending := after.pending)
    && 0.0 <= after.remaining <= before.remaining && 0.0 <= after.pending <= before.pending
  }

  /** What a buy pays and what it is worth come out of the notional that its reservation gives back. */
  predicate Fills(w: World, key: string, intent: Intent, filled: real, order: Option<Order>, cash: real, quantity: real, value: real, average: Option<real>) {
    && ActiveIntent(w, key) && 0.0 < filled <= w.intents[key].remaining && intent == FilledBy(w.intents[key], filled)
    && (order.Some? ==> key in w.orders && OrderLowered(w.orders[key], order.value) && Matches(order.value, intent))
    && cash >= 0.0
    && (forall p <- Book(w.positions, intent.symbol, quantity, value, average) :: PositionAccepted(p))
    && match intent.side
       case Buy => cash <= w.intents[key].notional - intent.notional && 0.0 <= value <= w.intents[key].notional - intent.notional
       case Sell => value <= 0.0
       case OtherSide => false
  }

  ghost predicate Allowed(p: Policy, equity: real, w: World, step: Step) {
    match step
    case Reserve(key, intent, situation, action) => Reserves(p, equity, w, key, intent, situation, action)
    case Submit(key, order) => Submits(w, key, order)
    case Fill(key, intent, filled, order, cash, quantity, value, average) => Fills(w, key, intent, filled, order, cash, quantity, value, average)
    case Close(_, _, _) => true
  }

  // ----- what every run keeps -----

  predicate WellFormed(w: World) {
    && (forall p <- w.positions :: PositionAccepted(p))
    && (forall k <- w.orders :: OrderAccepted(w.orders[k]) && (!w.orders[k].side.Buy? ==> w.orders[k].pending == 0.0))
    && (forall k <- w.intents :: IntentAccepted(w.intents[k]))
    && (forall k <- w.orders :: k in w.intents ==> Matches(w.orders[k], w.intents[k]))
  }

  predicate OneOrderPerSymbol(w: World) {
    forall k, l :: k in Active(w) && l in Active(w) && Active(w)[k] == Active(w)[l] ==> k == l
  }

  ghost predicate WithinLimits(p: Policy, equity: real, w: World) {
    && (forall m: Measure :: Notional(m) ==> Exposure(w, m) <= Limit(p, equity, m))
    && Percent(equity, p.cashReservePct) + Outstanding(w, CryptoBuys) <= w.cash
    && OneOrderPerSymbol(w)
    && |ActiveBuys(w)| <= p.maximumPositions
  }

  ghost predicate Sound(p: Policy, equity: real, w: World) {
    WellFormed(w) && WithinLimits(p, equity, w)
  }

  // ----- one identity at a time -----

  function Amount(w: World, key: string, m: Measure): real {
    Max(match OrderAt(w, key) case None => 0.0 case Some(o) => OrderAmount(o, m),
        match IntentAt(w, key) case None => 0.0 case Some(i) => IntentAmount(i, m))
  }

  lemma TotalWithout(m: map<string, real>, key: string)
    ensures Total(m) == Get(m, key) + Total(m - {key})
  {
    if key in m {
      TotalSplit(m, key);
    } else {
      assert m - {key} == m;
    }
  }

  lemma GroupIsAmount(w: World, key: string, m: Measure)
    ensures Get(Groups(w, m), key) == Amount(w, key, m)
  {
  }

  predicate AgreeElsewhere(a: map<string, real>, b: map<string, real>, key: string) {
    a.Keys - {key} == b.Keys - {key} && forall k <- a :: k != key ==> k in b && a[k] == b[k]
  }

  lemma JoinedElsewhere(a: map<string, real>, b: map<string, real>, also: map<string, real>, andAlso: map<string, real>, key: string)
    requires AgreeElsewhere(a, also, key) && AgreeElsewhere(b, andAlso, key)
    ensures Joined(a, b) - {key} == Joined(also, andAlso) - {key}
  {
    forall k | k != key
      ensures Get(a, k) == Get(also, k) && Get(b, k) == Get(andAlso, k)
      ensures (k in a <==> k in also) && (k in b <==> k in andAlso)
    {
      assert k in a.Keys - {key} <==> k in also.Keys - {key};
      assert k in b.Keys - {key} <==> k in andAlso.Keys - {key};
    }
  }

  lemma OtherGroupsStay(w: World, key: string, order: Option<Order>, intent: Option<Intent>, m: Measure)
    ensures Groups(Put(w, key, order, intent), m) - {key} == Groups(w, m) - {key}
  {
    var next := Put(w, key, order, intent);
    assert AgreeElsewhere(OrderAmounts(next.orders, m), OrderAmounts(w.orders, m), key);
    assert AgreeElsewhere(IntentAmounts(next.intents, m), IntentAmounts(w.intents, m), key);
    JoinedElsewhere(OrderAmounts(next.orders, m), IntentAmounts(next.intents, m), OrderAmounts(w.orders, m), IntentAmounts(w.intents, m), key);
  }

  /** Changing one identity changes the outstanding amount by what that identity counts for. */
  lemma PutChangesOneGroup(w: World, key: string, order: Option<Order>, intent: Option<Intent>, m: Measure)
    ensures var next := Put(w, key, order, intent);
      Outstanding(next, m) == Outstanding(w, m) - Amount(w, key, m) + Amount(next, key, m)
  {
    var next := Put(w, key, order, intent);
    TotalWithout(Groups(w, m), key);
    TotalWithout(Groups(next, m), key);
    GroupIsAmount(w, key, m);
    GroupIsAmount(next, key, m);
    OtherGroupsStay(w, key, order, intent, m);
  }

  lemma {:induction false} BookAddsValue(positions: seq<Position>, symbol: string, quantity: real, value: real, average: Option<real>, m: Measure)
    ensures PositionTotal(Book(positions, symbol, quantity, value, average), m)
         == PositionTotal(positions, m) + PositionAmount(Position(symbol, true, quantity, value, average), m)
  {
    var booked := Book(positions, symbol, quantity, value, average);
    if positions != [] {
      var front, last := positions[..|positions| - 1], positions[|positions| - 1];
      assert booked[..|booked| - 1] == if HoldsSymbol(last, symbol) then front else Book(front, symbol, quantity, value, average);
      if !HoldsSymbol(last, symbol) {
        BookAddsValue(front, symbol, quantity, value, average, m);
      }
    } else {
      assert booked[..0] == [];
    }
  }

  lemma NarrowerIsSmaller(w: World, symbol: string)
    requires WellFormed(w)
    ensures Outstanding(w, SymbolBuys(symbol)) <= Outstanding(w, CryptoBuys)
  {
    TotalIsMonotone(Groups(w, SymbolBuys(symbol)), Groups(w, CryptoBuys));
  }

  // ----- how much a step adds -----

  lemma ReservedKeyIsNew(p: Policy, equity: real, w: World, step: Step)
    requires step.Reserve? && Allowed(p, equity, w, step)
    ensures step.key !in w.orders && step.key !in w.intents && step.intent.cryptoClass && IntentAccepted(step.intent)
    ensures After(w, step) == Put(w, step.key, None, Some(step.intent))
  {
  }

  lemma NewIntentAdds(w: World, key: string, intent: Intent, m: Measure)
    requires key !in w.orders && key !in w.intents && IntentAmount(intent, m) >= 0.0
    ensures Outstanding(Put(w, key, None, Some(intent)), m) == Outstanding(w, m) + IntentAmount(intent, m)
  {
    PutChangesOneGroup(w, key, None, Some(intent), m);
  }

  /** What step adds to the outstanding amount of a buy measure, and to the positions. */
  lemma ReserveAdds(w: World, step: Step, p: Policy, equity: real, m: Measure)
    requires WellFormed(w) && step.Reserve? && Allowed(p, equity, w, step) && !m.Sells?
    ensures Exposure(After(w, step), m) == Exposure(w, m) + IntentAmount(step.intent, m)
    ensures Outstanding(After(w, step), m) == Outstanding(w, m) + IntentAmount(step.intent, m)
  {
    ReservedKeyIsNew(p, equity, w, step);
    NewIntentAdds(w, step.key, step.intent, m);
  }

  lemma SubmitAddsNothing(w: World, step: Step, m: Measure)
    requires WellFormed(w) && step.Submit? && Submits(w, step.key, step.order) && !m.Sells?
    ensures Exposure(After(w, step), m) == Exposure(w, m) && Outstanding(After(w, step), m) == Outstanding(w, m)
  {
    PutChangesOneGroup(w, step.key, Some(step.order), IntentAt(w, step.key), m);
    OrderCountsWithinIntent(step.order, w.intents[step.key], m);
  }

  /** An order counts for no more than the intent that it repeats. */
  lemma OrderCountsWithinIntent(order: Order, intent: Intent, m: Measure)
    requires OrderAccepted(order) && IntentAccepted(intent) && Matches(order, intent) && (!order.side.Buy? ==> order.pending == 0.0) && !m.Sells?
    ensures 0.0 <= OrderAmount(order, m) <= IntentAmount(intent, m)
  {
  }

  lemma CloseOnlyReleases(w: World, step: Step, m: Measure)
    requires WellFormed(w) && step.Close? && !m.Sells?
    ensures Exposure(After(w, step), m) <= Exposure(w, m) && Outstanding(After(w, step), m) <= Outstanding(w, m)
  {
    PutChangesOneGroup(w, step.key, if step.closesOrder then None else OrderAt(w, step.key), if step.closesIntent then None else IntentAt(w, step.key), m);
  }

  /** A linked buy counts for what its intent reserves. */
  lemma LinkedAmount(w: World, key: string, m: Measure)
    requires WellFormed(w) && key in w.intents && !m.Sells?
    ensures Amount(w, key, m) == IntentAmount(w.intents[key], m)
  {
    if key in w.orders {
      assert Matches(w.orders[key], w.intents[key]);
    }
  }

  predicate FillsStep(w: World, step: Step)
    requires step.Fill?
  {
    Fills(w, step.key, step.intent, step.filled, step.left, step.cash, step.quantity, step.value, step.average)
  }

  lemma FillIsLinked(w: World, step: Step, m: Measure)
    requires WellFormed(w) && step.Fill? && FillsStep(w, step) && !m.Sells?
    ensures Amount(Put(w, step.key, step.left, Some(step.intent)), step.key, m) == IntentAmount(step.intent, m)
  {
  }

  lemma FillMoves(w: World, step: Step, m: Measure)
    requires WellFormed(w) && step.Fill? && FillsStep(w, step) && !m.Sells?
    ensures Outstanding(After(w, step), m) == Outstanding(w, m) - IntentAmount(w.intents[step.key], m) + IntentAmount(step.intent, m)
    ensures PositionTotal(After(w, step).positions, m)
         == PositionTotal(w.positions, m) + PositionAmount(Position(step.intent.symbol, true, step.quantity, step.value, step.average), m)
  {
    PutChangesOneGroup(w, step.key, step.left, Some(step.intent), m);
    LinkedAmount(w, step.key, m);
    BookAddsValue(w.positions, step.intent.symbol, step.quantity, step.value, step.average, m);
    FillIsLinked(w, step, m);
  }

  // ----- the limits -----

  lemma ReservedNotionalFits(p: Policy, equity: real, w: World, step: Step, m: Measure)
    requires Sound(p, equity, w) && step.Reserve? && Allowed(p, equity, w, step) && Notional(m)
    ensures Exposure(w, m) + IntentAmount(step.intent, m) <= Limit(p, equity, m)
  {
    if step.intent.side.Buy? {
      var symbol := step.intent.symbol;
      BuyFitsEveryLimit(p, step.situation, Seen(w, symbol), Request(true, step.action), step.intent.notional);
      NarrowerIsSmaller(w, symbol);
      assert m == SymbolBuys(symbol) || m == AllBuys || m == CryptoBuys || IntentAmount(step.intent, m) == 0.0;
    }
  }

  /** What a fill moves into the position comes out of the reservation. */
  lemma FillKeepsExposure(w: World, step: Step, m: Measure)
    requires WellFormed(w) && step.Fill? && FillsStep(w, step) && Notional(m)
    ensures Exposure(After(w, step), m) <= Exposure(w, m)
  {
    FillMoves(w, step, m);
  }

  lemma StepKeepsExposure(p: Policy, equity: real, w: World, step: Step, m: Measure)
    requires Sound(p, equity, w) && Allowed(p, equity, w, step) && Notional(m)
    ensures Exposure(After(w, step), m) <= Limit(p, equity, m)
  {
    match step
    case Reserve(_, _, _, _) =>
      ReserveAdds(w, step, p, equity, m);
      ReservedNotionalFits(p, equity, w, step, m);
    case Submit(_, _) => SubmitAddsNothing(w, step, m);
    case Fill(_, _, _, _, _, _, _, _) => FillKeepsExposure(w, step, m);
    case Close(_, _, _) => CloseOnlyReleases(w, step, m);
  }

  lemma StepKeepsCash(p: Policy, equity: real, w: World, step: Step)
    requires Sound(p, equity, w) && Allowed(p, equity, w, step)
    ensures Percent(equity, p.cashReservePct) + Outstanding(After(w, step), CryptoBuys) <= After(w, step).cash
  {
    match step
    case Reserve(_, intent, situation, action) =>
      ReserveAdds(w, step, p, equity, CryptoBuys);
      if intent.side.Buy? {
        BuyFitsEveryLimit(p, situation, Seen(w, intent.symbol), Request(true, action), intent.notional);
      }
    case Submit(_, _) => SubmitAddsNothing(w, step, CryptoBuys);
    case Fill(_, _, _, _, _, _, _, _) => FillMoves(w, step, CryptoBuys);
    case Close(_, _, _) => CloseOnlyReleases(w, step, CryptoBuys);
  }

  lemma PutKeepsWellFormed(w: World, key: string, order: Option<Order>, intent: Option<Intent>)
    requires WellFormed(w)
    requires order.Some? ==> OrderAccepted(order.value) && (!order.value.side.Buy? ==> order.value.pending == 0.0)
    requires intent.Some? ==> IntentAccepted(intent.value)
    requires order.Some? && intent.Some? ==> Matches(order.value, intent.value)
    ensures WellFormed(Put(w, key, order, intent))
  {
  }

  lemma StepKeepsWellFormed(p: Policy, equity: real, w: World, step: Step)
    requires WellFormed(w) && Allowed(p, equity, w, step)
    ensures WellFormed(After(w, step))
  {
    match step
    case Reserve(key, intent, _, _) => PutKeepsWellFormed(w, key, OrderAt(w, key), Some(intent));
    case Submit(key, order) => PutKeepsWellFormed(w, key, Some(order), IntentAt(w, key));
    case Fill(key, intent, _, left, _, _, _, _) => PutKeepsWellFormed(w, key, left, Some(intent));
    case Close(key, closesOrder, closesIntent) =>
      PutKeepsWellFormed(w, key, if closesOrder then None else OrderAt(w, key), if closesIntent then None else IntentAt(w, key));
  }

  // ----- one order for each symbol -----

  lemma NoneActive(active: map<string, string>, symbol: string)
    requires |KeysOf(active, symbol)| == 0
    ensures forall k <- active :: active[k] != symbol
  {
    forall k | k in active
      ensures active[k] != symbol
    {
      assert k !in KeysOf(active, symbol);
    }
  }

  /** An order looks the same before and after: its symbol, and whether it buys. */
  predicate SameOrder(w: World, next: World, k: string) {
    k in Active(w) && k in Active(next) && Active(w)[k] == Active(next)[k] && (Buys(w, k) <==> Buys(next, k))
  }

  lemma OtherOrdersStay(w: World, key: string, order: Option<Order>, intent: Option<Intent>, k: string)
    requires k != key && k in Active(Put(w, key, order, intent))
    ensures SameOrder(w, Put(w, key, order, intent), k)
  {
  }

  lemma OrderUnderKey(w: World, step: Step)
    requires WellFormed(w) && !step.Reserve? && step.key in Active(After(w, step))
    requires match step
      case Submit(key, order) => Submits(w, key, order)
      case Fill(_, _, _, _, _, _, _, _) => FillsStep(w, step)
      case _ => true
    ensures SameOrder(w, After(w, step), step.key)
  {
    match step
    case Submit(key, order) =>
    case Fill(key, intent, _, left, _, _, _, _) =>
    case Close(key, _, _) =>
      assert key in w.orders && key in w.intents ==> Matches(w.orders[key], w.intents[key]);
  }

  /** Only a reservation adds an unresolved order, and every step keeps the symbol and side of the others. */
  lemma ActiveAfter(p: Policy, equity: real, w: World, step: Step, k: string)
    requires WellFormed(w) && Allowed(p, equity, w, step) && k in Active(After(w, step))
    ensures if step.Reserve? && k == step.key then Active(After(w, step))[k] == step.intent.symbol && (Buys(After(w, step), k) <==> step.intent.side.Buy?)
            else SameOrder(w, After(w, step), k)
  {
    if k == step.key {
      if !step.Reserve? {
        OrderUnderKey(w, step);
      }
    } else {
      match step
      case Reserve(key, intent, _, _) => OtherOrdersStay(w, key, OrderAt(w, key), Some(intent), k);
      case Submit(key, order) => OtherOrdersStay(w, key, Some(order), IntentAt(w, key), k);
      case Fill(key, intent, _, left, _, _, _, _) => OtherOrdersStay(w, key, left, Some(intent), k);
      case Close(key, closesOrder, closesIntent) =>
        OtherOrdersStay(w, key, if closesOrder then None else OrderAt(w, key), if closesIntent then None else IntentAt(w, key), k);
    }
  }

  lemma StepKeepsOnePerSymbol(p: Policy, equity: real, w: World, step: Step)
    requires Sound(p, equity, w) && Allowed(p, equity, w, step)
    ensures OneOrderPerSymbol(After(w, step))
  {
    var active := Active(After(w, step));
    if step.Reserve? {
      AuthorityLeavesSymbolFree(p, step.situation, Seen(w, step.intent.symbol), Request(step.intent.side.Buy?, step.action));
      NoneActive(Active(w), step.intent.symbol);
    }
    forall k, l | k in active && l in active && active[k] == active[l]
      ensures k == l
    {
      ActiveAfter(p, equity, w, step, k);
      ActiveAfter(p, equity, w, step, l);
    }
  }

  lemma AuthorityLeavesSymbolFree(p: Policy, s: Situation, a: Aggregate, r: Request)
    requires AuthorityOf(p, s, a, r).failed == {}
    ensures a.symbolActiveOrders == 0 && (r.buy ==> a.activeOrders < p.maximumPositions)
  {
    var failed := AuthorityOf(p, s, a, r).failed;
    assert CompleteRiskInputs !in failed && OpenCryptoOrders !in failed;
  }

  lemma SubsetIsSmaller(a: set<string>, b: set<string>)
    requires a <= b
    ensures |a| <= |b|
  {
    assert b == a + (b - a);
  }

  lemma StepKeepsOrderCount(p: Policy, equity: real, w: World, step: Step)
    requires Sound(p, equity, w) && Allowed(p, equity, w, step)
    ensures |ActiveBuys(After(w, step))| <= p.maximumPositions
  {
    var buys := ActiveBuys(After(w, step));
    forall k | k in buys
      ensures k in ActiveBuys(w) || (step.Reserve? && step.intent.side.Buy? && k == step.key)
    {
      ActiveAfter(p, equity, w, step, k);
    }
    if step.Reserve? && step.intent.side.Buy? {
      AuthorityLeavesSymbolFree(p, step.situation, Seen(w, step.intent.symbol), Request(true, step.action));
      SubsetIsSmaller(ActiveBuys(w), Active(w).Keys);
      SubsetIsSmaller(buys, ActiveBuys(w) + {step.key});
    } else {
      SubsetIsSmaller(buys, ActiveBuys(w));
    }
  }

  /** Every step keeps the total, sleeve, cluster and symbol limits, the cash reserve and the order rules. */
  lemma StepKeepsLimits(p: Policy, equity: real, w: World, step: Step)
    requires Sound(p, equity, w) && Allowed(p, equity, w, step)
    ensures Sound(p, equity, After(w, step))
  {
    StepKeepsWellFormed(p, equity, w, step);
    forall m: Measure | Notional(m)
      ensures Exposure(After(w, step), m) <= Limit(p, equity, m)
    {
      StepKeepsExposure(p, equity, w, step, m);
    }
    StepKeepsCash(p, equity, w, step);
    StepKeepsOnePerSymbol(p, equity, w, step);
    StepKeepsOrderCount(p, equity, w, step);
  }

  // ----- runs -----

  function AfterRun(w: World, steps: seq<Step>): World
    decreases |steps|
  {
    if steps == [] then w else AfterRun(After(w, steps[0]), steps[1..])
  }

  ghost predicate AllowedRun(p: Policy, equity: real, w: World, steps: seq<Step>)
    decreases |steps|
  {
    steps != [] ==> Allowed(p, equity, w, steps[0]) && AllowedRun(p, equity, After(w, steps[0]), steps[1..])
  }

  lemma RunStarts(p: Policy, equity: real, w: World, step: Step, rest: seq<Step>)
    requires Allowed(p, equity, w, step) && AllowedRun(p, equity, After(w, step), rest)
    ensures AllowedRun(p, equity, w, [step] + rest) && AfterRun(w, [step] + rest) == AfterRun(After(w, step), rest)
  {
    assert ([step] + rest)[1..] == rest;
  }

  /** The limits hold after every run, because they hold after every step. */
  lemma {:induction false} RunKeepsLimits(p: Policy, equity: real, w: World, steps: seq<Step>)
    requires Sound(p, equity, w) && AllowedRun(p, equity, w, steps)
    ensures Sound(p, equity, AfterRun(w, steps))
    decreases |steps|
  {
    if steps != [] {
      StepKeepsLimits(p, equity, w, steps[0]);
      RunKeepsLimits(p, equity, After(w, steps[0]), steps[1..]);
    }
  }

  /** Whatever the policy, a run never takes more of the equity than the ceilings written in the code. */
  lemma RunStaysUnderCodeCeilings(p: Policy, equity: real, w: World, steps: seq<Step>, symbol: string)
    requires PolicyAccepted(p) && equity >= 0.0 && Sound(p, equity, w) && AllowedRun(p, equity, w, steps)
    ensures Exposure(AfterRun(w, steps), AllBuys) <= Percent(equity, 50.0)
    ensures Exposure(AfterRun(w, steps), CryptoBuys) <= Percent(equity, 5.0)
    ensures Exposure(AfterRun(w, steps), SymbolBuys(symbol)) <= Percent(equity, 3.0)
  {
    RunKeepsLimits(p, equity, w, steps);
    SoundStaysUnderCodeCeilings(p, equity, AfterRun(w, steps), symbol);
  }

  lemma SoundStaysUnderCodeCeilings(p: Policy, equity: real, w: World, symbol: string)
    requires PolicyAccepted(p) && equity >= 0.0 && Sound(p, equity, w)
    ensures Exposure(w, AllBuys) <= Percent(equity, 50.0)
    ensures Exposure(w, CryptoBuys) <= Percent(equity, 5.0)
    ensures Exposure(w, SymbolBuys(symbol)) <= Percent(equity, 3.0)
  {
    PercentIsMonotone(equity, p.totalPct, 50.0);
    PercentIsMonotone(equity, p.clusterPct, 5.0);
    PercentIsMonotone(equity, p.symbolPct, 3.0);
    assert Exposure(w, AllBuys) <= Limit(p, equity, AllBuys);
    assert Exposure(w, CryptoBuys) <= Limit(p, equity, CryptoBuys);
    assert Exposure(w, SymbolBuys(symbol)) <= Limit(p, equity, SymbolBuys(symbol));
  }
}
