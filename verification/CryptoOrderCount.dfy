/**
The number of unresolved crypto orders over whole runs. The risk service compares it with
maximum_positions for buys only, so a sell can take it past the bound; here is when runs keep it.
*/
module CryptoOrderCount {
  import opened Wrappers
  import opened CryptoEvidence
  import opened CryptoRiskPolicy
  import opened CryptoRun
  import opened CryptoHeat

  predicate SellReservation(step: Step) {
    step.Reserve? && step.intent.side.Sell?
  }

  lemma NewIntentIsActive(w: World, key: string, intent: Intent)
    requires key !in w.orders && key !in w.intents && intent.cryptoClass
    ensures key !in Active(w) && Active(Put(w, key, None, Some(intent))) == Active(w)[key := intent.symbol]
  {
  }

  lemma OneMoreKey(m: map<string, string>, key: string, symbol: string)
    requires key !in m
    ensures |m[key := symbol]| == |m| + 1
  {
    assert m[key := symbol].Keys == m.Keys + {key};
    assert |m[key := symbol]| == |m[key := symbol].Keys| && |m| == |m.Keys|;
  }

  lemma ReserveAddsOneOrder(p: Policy, equity: real, w: World, step: Step)
    requires step.Reserve? && Allowed(p, equity, w, step)
    ensures |Active(After(w, step))| == |Active(w)| + 1
  {
    ReservedKeyIsNew(p, equity, w, step);
    NewIntentIsActive(w, step.key, step.intent);
    OneMoreKey(Active(w), step.key, step.intent.symbol);
  }

  lemma OtherStepsAddNone(p: Policy, equity: real, w: World, step: Step)
    requires WellFormed(w) && !step.Reserve? && Allowed(p, equity, w, step)
    ensures |Active(After(w, step))| <= |Active(w)|
  {
    var before, after := Active(w), Active(After(w, step));
    forall k | k in after.Keys
      ensures k in before.Keys
    {
      ActiveAfter(p, equity, w, step, k);
    }
    SubsetIsSmaller(after.Keys, before.Keys);
  }

  ghost predicate CountThroughout(p: Policy, w: World, steps: seq<Step>)
    decreases |steps|
  {
    |Active(w)| <= p.maximumPositions && (steps != [] ==> CountThroughout(p, After(w, steps[0]), steps[1..]))
  }

  /** Each sell is reserved while a buy would still have an order slot. */
  ghost predicate SellsFindSlots(p: Policy, w: World, steps: seq<Step>)
    decreases |steps|
  {
    steps != [] ==>
      && (SellReservation(steps[0]) ==> Seen(w, steps[0].intent.symbol).activeOrders < p.maximumPositions)
      && SellsFindSlots(p, After(w, steps[0]), steps[1..])
  }

  /** A step keeps the bound unless it reserves a sell without a free slot. */
  lemma StepKeepsCount(p: Policy, equity: real, w: World, step: Step)
    requires WellFormed(w) && |Active(w)| <= p.maximumPositions && Allowed(p, equity, w, step)
    ensures |Active(After(w, step))| <= p.maximumPositions
      <==> (SellReservation(step) ==> Seen(w, step.intent.symbol).activeOrders < p.maximumPositions)
  {
    if step.Reserve? {
      ReserveAddsOneOrder(p, equity, w, step);
      AuthorityLeavesSymbolFree(p, step.situation, Seen(w, step.intent.symbol), Request(step.intent.side.Buy?, step.action));
    } else {
      OtherStepsAddNone(p, equity, w, step);
    }
  }

  /** A run keeps the number of unresolved orders within maximum_positions exactly when each of its sells finds a slot. */
  lemma {:induction false} CountHoldsIffSellsFindSlots(p: Policy, equity: real, w: World, steps: seq<Step>)
    requires WellFormed(w) && |Active(w)| <= p.maximumPositions && AllowedRun(p, equity, w, steps)
    ensures CountThroughout(p, w, steps) <==> SellsFindSlots(p, w, steps)
    decreases |steps|
  {
    if steps != [] {
      var next := After(w, steps[0]);
      StepKeepsCount(p, equity, w, steps[0]);
      StepKeepsWellFormed(p, equity, w, steps[0]);
      if |Active(next)| <= p.maximumPositions {
        CountHoldsIffSellsFindSlots(p, equity, next, steps[1..]);
      }
    }
  }

  /** Under the two guards, for buys on heat and for sells on slots, a run keeps every limit after every step. */
  lemma GuardedRunsKeepEveryLimit(p: Policy, equity: real, w: World, steps: seq<Step>)
    requires Sound(p, equity, w) && Committed(w) <= Limit(p, equity, StopRisk) && |Active(w)| <= p.maximumPositions
    requires AllowedRun(p, equity, w, steps) && ReservationsLeaveRoom(p, equity, w, steps) && SellsFindSlots(p, w, steps)
    ensures Sound(p, equity, AfterRun(w, steps)) && WithinHeatThroughout(p, equity, w, steps) && CountThroughout(p, w, steps)
  {
    RunKeepsLimits(p, equity, w, steps);
    GuardedRunsKeepHeat(p, equity, w, steps);
    CountHoldsIffSellsFindSlots(p, equity, w, steps);
  }

  // ----- a run that passes the bound -----

  const BTC := "BTC/USD"
  const HELD := Position(BTC, true, 1.0, 100.0, None)

  function HoldingWorld(): World {
    World(100000.0, [HELD], map[], map[])
  }

  /** Each order of this run is filed under its symbol. */
  function BuyOf(symbol: string): Step {
    Reserve(symbol, Intent(symbol, symbol, symbol, Buy, 1.0, 100.0, 10.0, true), SampleSituation(), Enter)
  }

  function SellOf(symbol: string): Step {
    Reserve(symbol, Intent(symbol, symbol, symbol, Sell, 1.0, 0.0, 0.0, true), SampleSituation(), Reduce)
  }

  function ThreeOrders(first: string, second: string): seq<Step> {
    [BuyOf(first)] + ([BuyOf(second)] + [SellOf(BTC)])
  }

  /** An account this small leaves the sample policy's full ceilings. */
  lemma SmallAccountMayBuy(a: Aggregate)
    requires 0.0 <= a.allGross + a.pendingAll <= 1000.0 && 0.0 <= a.cryptoGross + a.pendingCrypto <= 1000.0
    requires 0.0 <= a.symbolGross + a.pendingCrypto <= 1000.0 && 0.0 <= a.pendingCrypto <= 1000.0
    requires 0.0 <= a.openHeat + a.pendingHeat <= 150.0
    requires a.quantity == 0.0 && a.cryptoHoldings < 2 && a.intents < 2 && a.activeOrders < 2 && a.symbolActiveOrders == 0
    ensures var authority := AuthorityOf(SamplePolicy(), SampleSituation(), a, Request(true, Enter));
      authority.failed == {} && authority.hardNotional == 1000.0 && authority.hardStopRisk == 50.0
  {
    var p, s := SamplePolicy(), SampleSituation();
    assert DrawdownOf(s) == 0.0;
    assert Throttle(p, s) == 1.0;
    assert Smallest(CapacitiesOf(p, s, a)) == 1000.0;
  }

  lemma SellIsAuthorized(a: Aggregate)
    requires a.symbolActiveOrders == 0
    ensures AuthorityOf(SamplePolicy(), SampleSituation(), a, Request(false, Reduce)).failed == {}
  {
  }

  /** The account after buys of these symbols have been reserved. */
  ghost predicate HasReserved(w: World, symbols: set<string>) {
    HasIntents(w, symbols) && HasOutstanding(w, |symbols|)
  }

  predicate HasIntents(w: World, symbols: set<string>) {
    && w.cash == 100000.0 && w.positions == [HELD] && w.orders == map[] && w.intents.Keys == symbols
    && forall k <- w.intents :: w.intents[k].cryptoClass && w.intents[k].symbol == k
  }

  ghost predicate HasOutstanding(w: World, n: nat) {
    && Outstanding(w, AllBuys) == 100.0 * n as real && Outstanding(w, CryptoBuys) == 100.0 * n as real
    && Outstanding(w, StopRisk) == 10.0 * n as real
  }

  lemma HeldExposure(m: Measure)
    ensures PositionTotal([HELD], m) == PositionAmount(HELD, m) && 0.0 <= PositionAmount(HELD, m) <= 100.0
  {
    assert [HELD][..0] == [];
    assert PositionTotal([HELD], m) == PositionTotal([HELD][..0], m) + PositionAmount(HELD, m);
  }

  lemma NotHeld(symbol: string)
    requires symbol != BTC
    ensures QuantityOf([HELD], symbol) == 0.0 && CryptoHoldings([HELD]) == 1
  {
    assert [HELD][..0] == [];
  }

  lemma AllActive(w: World, symbols: set<string>, symbol: string)
    requires HasReserved(w, symbols) && symbol !in symbols
    ensures |Active(w)| == |symbols| && |w.intents| == |symbols| && |KeysOf(Active(w), symbol)| == 0
  {
    assert Active(w).Keys == w.intents.Keys;
    assert |Active(w).Keys| == |w.intents.Keys|;
    assert KeysOf(Active(w), symbol) == {};
  }

  lemma MayReserveBuy(w: World, symbols: set<string>, symbol: string)
    requires HasReserved(w, symbols) && |symbols| < 2 && symbol !in symbols && symbol != BTC
    ensures Allowed(SamplePolicy(), 100000.0, w, BuyOf(symbol))
  {
    HeldExposure(AllBuys);
    HeldExposure(CryptoBuys);
    HeldExposure(SymbolBuys(symbol));
    HeldExposure(StopRisk);
    NotHeld(symbol);
    AllActive(w, symbols, symbol);
    SmallAccountMayBuy(Seen(w, symbol));
    assert Reserves(SamplePolicy(), 100000.0, w, symbol, BuyOf(symbol).intent, SampleSituation(), Enter);
  }

  lemma MayReserveSell(w: World, symbols: set<string>, symbol: string)
    requires HasReserved(w, symbols) && symbol !in symbols
    ensures Allowed(SamplePolicy(), 100000.0, w, SellOf(symbol)) && |Active(w)| == |symbols|
  {
    AllActive(w, symbols, symbol);
    SellIsAuthorized(Seen(w, symbol));
    assert Reserves(SamplePolicy(), 100000.0, w, symbol, SellOf(symbol).intent, SampleSituation(), Reduce);
  }

  lemma OutstandingOfOneMore(w: World, n: nat, symbol: string)
    requires w.orders == map[] && symbol !in w.intents && HasOutstanding(w, n)
    ensures HasOutstanding(After(w, BuyOf(symbol)), n + 1)
    ensures After(w, BuyOf(symbol)) == w.(intents := w.intents[symbol := BuyOf(symbol).intent])
  {
    var intent := BuyOf(symbol).intent;
    assert w.orders - {symbol} == w.orders;
    NewIntentAdds(w, symbol, intent, AllBuys);
    NewIntentAdds(w, symbol, intent, CryptoBuys);
    NewIntentAdds(w, symbol, intent, StopRisk);
  }

  lemma HasOneMore(w: World, symbols: set<string>, intent: Intent)
    requires HasIntents(w, symbols) && intent.symbol !in symbols && intent.cryptoClass
    ensures HasIntents(w.(intents := w.intents[intent.symbol := intent]), symbols + {intent.symbol})
  {
  }

  lemma ReservesOneMore(w: World, symbols: set<string>, symbol: string)
    requires HasReserved(w, symbols) && symbol !in symbols
    ensures HasReserved(After(w, BuyOf(symbol)), symbols + {symbol})
  {
    OutstandingOfOneMore(w, |symbols|, symbol);
    HasOneMore(w, symbols, BuyOf(symbol).intent);
  }

  lemma HoldingStarts()
    ensures HasReserved(HoldingWorld(), {})
  {
    NothingOutstanding(HoldingWorld(), AllBuys);
    NothingOutstanding(HoldingWorld(), CryptoBuys);
    NothingOutstanding(HoldingWorld(), StopRisk);
  }

  lemma BuyMayFollow(w: World, symbols: set<string>, symbol: string, next: World)
    requires HasReserved(w, symbols) && |symbols| < 2 && symbol !in symbols && symbol != BTC && next == After(w, BuyOf(symbol))
    ensures Allowed(SamplePolicy(), 100000.0, w, BuyOf(symbol)) && HasReserved(next, symbols + {symbol})
  {
    MayReserveBuy(w, symbols, symbol);
    ReservesOneMore(w, symbols, symbol);
  }

  lemma SellMayFollow(w: World, symbols: set<string>, symbol: string)
    requires HasReserved(w, symbols) && symbol !in symbols
    ensures Allowed(SamplePolicy(), 100000.0, w, SellOf(symbol)) && |Active(After(w, SellOf(symbol)))| == |symbols| + 1
  {
    MayReserveSell(w, symbols, symbol);
    ReserveAddsOneOrder(SamplePolicy(), 100000.0, w, SellOf(symbol));
  }

  lemma SameSymbols(w: World, symbols: set<string>, also: set<string>)
    requires HasReserved(w, symbols) && symbols == also
    ensures HasReserved(w, also)
  {
  }

  lemma FirstMayReserve(w: World, first: string, one: World)
    requires HasReserved(w, {}) && BTC != first && one == After(w, BuyOf(first))
    ensures Allowed(SamplePolicy(), 100000.0, w, BuyOf(first)) && HasReserved(one, {first})
  {
    BuyMayFollow(w, {}, first, one);
    SameSymbols(one, {} + {first}, {first});
  }

  lemma SecondMayReserve(one: World, first: string, second: string, two: World)
    requires HasReserved(one, {first}) && BTC != second && first != second && two == After(one, BuyOf(second))
    ensures Allowed(SamplePolicy(), 100000.0, one, BuyOf(second)) && HasReserved(two, {first} + {second})
  {
    BuyMayFollow(one, {first}, second, two);
  }

  lemma ThirdMayReserve(two: World, first: string, second: string)
    requires HasReserved(two, {first} + {second}) && BTC != first && BTC != second && first != second
    ensures Allowed(SamplePolicy(), 100000.0, two, SellOf(BTC)) && |Active(After(two, SellOf(BTC)))| == 3
  {
    SellMayFollow(two, {first} + {second}, BTC);
  }

  /** With one holding there are slots for two buys; the sell after them does not ask for one. */
  lemma ThreeMayReserve(w: World, one: World, two: World, first: string, second: string)
    requires HasReserved(w, {}) && BTC != first && BTC != second && first != second
    requires one == After(w, BuyOf(first)) && two == After(one, BuyOf(second))
    ensures Allowed(SamplePolicy(), 100000.0, w, BuyOf(first)) && Allowed(SamplePolicy(), 100000.0, one, BuyOf(second))
    ensures Allowed(SamplePolicy(), 100000.0, two, SellOf(BTC)) && |Active(After(two, SellOf(BTC)))| == 3
  {
    FirstMayReserve(w, first, one);
    SecondMayReserve(one, first, second, two);
    ThirdMayReserve(two, first, second);
  }

  lemma HoldingIsSound()
    ensures PolicyAccepted(SamplePolicy()) && Sound(SamplePolicy(), 100000.0, HoldingWorld())
  {
    forall m: Measure
      ensures Exposure(HoldingWorld(), m) <= 100.0 && Outstanding(HoldingWorld(), m) == 0.0
    {
      HeldExposure(m);
      NothingOutstanding(HoldingWorld(), m);
    }
    assert ActiveBuys(HoldingWorld()) == {};
  }

  lemma ThreeRun(w: World, first: string, second: string)
    requires HasReserved(w, {}) && BTC != first && BTC != second && first != second
    ensures AllowedRun(SamplePolicy(), 100000.0, w, ThreeOrders(first, second))
    ensures |Active(AfterRun(w, ThreeOrders(first, second)))| == 3
  {
    ThreeMayReserve(w, After(w, BuyOf(first)), After(After(w, BuyOf(first)), BuyOf(second)), first, second);
    RunOfThree(SamplePolicy(), 100000.0, w, BuyOf(first), BuyOf(second), SellOf(BTC));
    SampleRunEnds(w, BuyOf(first), BuyOf(second), SellOf(BTC));
  }

  /** From a sound account with one holding: two reserved buys, then a sell of the holding, are three orders where two are allowed. */
  lemma SellPassesOrderCount(steps: seq<Step>)
    requires steps == ThreeOrders("ETH/USD", "SOL/USD")
    ensures Sound(SamplePolicy(), 100000.0, HoldingWorld()) && AllowedRun(SamplePolicy(), 100000.0, HoldingWorld(), steps)
    ensures |Active(AfterRun(HoldingWorld(), steps))| == 3 && SamplePolicy().maximumPositions == 2
  {
    HoldingIsSound();
    HoldingStarts();
    assert BTC[0] == 'B' && "ETH/USD"[0] == 'E' && "SOL/USD"[0] == 'S';
    ThreeRun(HoldingWorld(), "ETH/USD", "SOL/USD");
  }
}
