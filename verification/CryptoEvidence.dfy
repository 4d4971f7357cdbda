/**
The aggregate of app/crypto_risk.py: positions, open broker orders and durable intents become the
few numbers that capacities are derived from. An order that the broker shows and the durable intent
behind it are one exposure, so both are filed under a stable identity and the larger amount counts.
*/
module CryptoEvidence {
  import opened Wrappers
  import opened Sums
  import DecimalText

  datatype Side = Buy | Sell | OtherSide

  datatype Position = Position(symbol: string, crypto: bool, quantity: real, value: real, averageEntry: Option<real>)

  datatype Order = Order(clientId: string, brokerId: string, symbol: string, crypto: bool, side: Side, remaining: real, pending: real)

  /** cryptoClass marks the rows of the crypto tables; rows of the general order table carry no asset class. */
  datatype Intent = Intent(id: string, clientId: string, symbol: string, side: Side, remaining: real, notional: real, stopRisk: real, cryptoClass: bool)

  predicate PositionAccepted(p: Position) {
    p.quantity >= 0.0 && p.value >= 0.0 && (p.averageEntry.Some? ==> p.averageEntry.value > 0.0)
  }

  predicate OrderAccepted(o: Order) {
    o.remaining >= 0.0 && o.pending >= 0.0
  }

  predicate IntentAccepted(i: Intent) {
    i.remaining >= 0.0 && i.notional >= 0.0 && i.stopRisk >= 0.0
  }

  predicate EvidenceAccepted(positions: seq<Position>, orders: seq<Order>, intents: seq<Intent>) {
    && (forall p <- positions :: PositionAccepted(p))
    && (forall o <- orders :: OrderAccepted(o))
    && (forall i <- intents :: IntentAccepted(i))
  }

  // ----- what a record adds to a measure -----

  /** What is being measured: buys of everything, of crypto, or of one crypto symbol; crypto stop risk; sells of a symbol. */
  datatype Measure = AllBuys | CryptoBuys | SymbolBuys(symbol: string) | StopRisk | Sells(symbol: string)

  function PositionAmount(p: Position, m: Measure): real {
    match m
    case AllBuys => p.value
    case CryptoBuys => if p.crypto then p.value else 0.0
    case SymbolBuys(symbol) => if p.crypto && p.symbol == symbol then p.value else 0.0
    case StopRisk => if p.crypto then p.value else 0.0
    case Sells(_) => 0.0
  }

  function OrderAmount(o: Order, m: Measure): real {
    match m
    case AllBuys => o.pending
    case CryptoBuys => if o.crypto && o.side.Buy? then o.pending else 0.0
    case SymbolBuys(symbol) => if o.crypto && o.side.Buy? && o.symbol == symbol then o.pending else 0.0
    case StopRisk => 0.0
    case Sells(symbol) => if o.crypto && o.side.Sell? && o.symbol == symbol then o.remaining else 0.0
  }

  function IntentAmount(i: Intent, m: Measure): real {
    match m
    case AllBuys => if i.side.Buy? then i.notional else 0.0
    case CryptoBuys => if i.side.Buy? then i.notional else 0.0
    case SymbolBuys(symbol) => if i.side.Buy? && i.symbol == symbol then i.notional else 0.0
    case StopRisk => if i.side.Buy? then i.stopRisk else 0.0
    case Sells(symbol) => if i.side.Sell? && i.symbol == symbol then i.remaining else 0.0
  }

  // ----- one exposure for each identity -----

  function OrderKey(o: Order, index: nat): string {
    if o.clientId != "" then o.clientId
    else if o.brokerId != "" then o.brokerId
    else "broker:" + DecimalText.Digits(index)
  }

  function IntentKey(i: Intent, index: nat): string {
    if i.clientId != "" then i.clientId
    else "intent:" + if i.id != "" then i.id else DecimalText.Digits(index)
  }

  datatype Entry = Entry(key: string, amount: real)

  function OrderEntries(orders: seq<Order>, m: Measure): (r: seq<Entry>)
    ensures |r| == |orders|
  {
    seq(|orders|, i requires 0 <= i < |orders| => Entry(OrderKey(orders[i], i), OrderAmount(orders[i], m)))
  }

  function IntentEntries(intents: seq<Intent>, m: Measure): (r: seq<Entry>)
    ensures |r| == |intents|
  {
    seq(|intents|, i requires 0 <= i < |intents| => Entry(IntentKey(intents[i], i), IntentAmount(intents[i], m)))
  }

  /** group[k] = max(group[k], amount), starting from zero */
  function Raise(m: map<string, real>, e: Entry): map<string, real> {
    m[e.key := Max(Get(m, e.key), e.amount)]
  }

  /** The largest amount that was filed under each identity. */
  function Largest(entries: seq<Entry>): map<string, real> {
    if entries == [] then map[] else Raise(Largest(entries[..|entries| - 1]), entries[|entries| - 1])
  }

  function Sum(entries: seq<Entry>): real {
    if entries == [] then 0.0 else Sum(entries[..|entries| - 1]) + entries[|entries| - 1].amount
  }

  ghost predicate AllNonnegative(entries: seq<Entry>) {
    forall i :: 0 <= i < |entries| ==> entries[i].amount >= 0.0
  }

  ghost predicate DistinctKeys(entries: seq<Entry>) {
    forall i, j :: 0 <= i < j < |entries| ==> entries[i].key != entries[j].key
  }

  lemma LargestNext(entries: seq<Entry>, e: Entry)
    ensures Largest(entries + [e]) == Raise(Largest(entries), e) && Sum(entries + [e]) == Sum(entries) + e.amount
  {
    assert (entries + [e])[..|entries|] == entries;
  }

  /** What is filed under an identity is the largest of its amounts. */
  lemma {:induction false} LargestIsMaximum(entries: seq<Entry>, key: string)
    requires AllNonnegative(entries)
    ensures forall i :: 0 <= i < |entries| && entries[i].key == key ==> entries[i].amount <= Get(Largest(entries), key)
    ensures key in Largest(entries) <==> exists i :: 0 <= i < |entries| && entries[i].key == key
    ensures Get(Largest(entries), key) >= 0.0
    ensures key in Largest(entries) ==> exists i :: 0 <= i < |entries| && entries[i].key == key && entries[i].amount == Largest(entries)[key]
  {
    if entries != [] {
      var front, last := entries[..|entries| - 1], entries[|entries| - 1];
      LargestIsMaximum(front, key);
      if key in Largest(front) {
        var i :| 0 <= i < |front| && front[i].key == key && front[i].amount == Largest(front)[key];
        assert entries[i] == front[i];
      }
      if last.key == key {
        assert entries[|entries| - 1].key == key;
      }
    }
  }

  lemma {:induction false} LargestWithinSum(entries: seq<Entry>)
    requires AllNonnegative(entries)
    ensures Total(Largest(entries)) <= Sum(entries) && Nonnegative(Largest(entries))
  {
    if entries != [] {
      var front, last := entries[..|entries| - 1], entries[|entries| - 1];
      LargestWithinSum(front);
      TotalUpdate(Largest(front), last.key, Max(Get(Largest(front), last.key), last.amount));
    }
  }

  /** Without repeated identities nothing is merged. */
  lemma {:induction false} LargestOfDistinct(entries: seq<Entry>)
    requires AllNonnegative(entries) && DistinctKeys(entries)
    ensures Total(Largest(entries)) == Sum(entries)
    ensures forall i :: 0 <= i < |entries| ==> Get(Largest(entries), entries[i].key) == entries[i].amount
  {
    if entries != [] {
      var front, last := entries[..|entries| - 1], entries[|entries| - 1];
      LargestOfDistinct(front);
      LargestIsMaximum(front, last.key);
      assert last.key !in Largest(front);
      TotalUpdate(Largest(front), last.key, last.amount);
    }
  }

  /** The larger of two filings, identity by identity. */
  function Joined(a: map<string, real>, b: map<string, real>): map<string, real> {
    map k | k in a.Keys + b.Keys :: Max(Get(a, k), Get(b, k))
  }

  lemma {:induction false} LargestOfTwoSources(a: seq<Entry>, b: seq<Entry>)
    requires AllNonnegative(a) && AllNonnegative(b)
    ensures Largest(a + b) == Joined(Largest(a), Largest(b))
  {
    if b == [] {
      assert a + b == a;
      LargestWithinSum(a);
    } else {
      var front, last := b[..|b| - 1], b[|b| - 1];
      LargestOfTwoSources(a, front);
      assert a + b == (a + front) + [last];
      LargestNext(a + front, last);
      LargestWithinSum(a);
      LargestWithinSum(front);
      JoinedRaise(Largest(a), Largest(front), last);
    }
  }

  lemma JoinedRaise(a: map<string, real>, b: map<string, real>, e: Entry)
    requires Nonnegative(a) && Nonnegative(b) && e.amount >= 0.0
    ensures Joined(a, Raise(b, e)) == Raise(Joined(a, b), e)
  {
  }

  lemma {:induction false} TotalIsMonotone(a: map<string, real>, b: map<string, real>)
    requires Nonnegative(b) && a.Keys <= b.Keys && forall k :: k in a ==> a[k] <= b[k]
    ensures Total(a) <= Total(b)
    decreases |b|
  {
    if b == map[] {
      assert a == map[];
    } else {
      var k :| k in b;
      TotalSplit(b, k);
      TotalIsMonotone(a - {k}, b - {k});
      if k in a {
        TotalSplit(a, k);
      } else {
        assert a - {k} == a;
      }
    }
  }

  lemma {:induction false} SumOfParts(a: seq<Entry>, b: seq<Entry>)
    ensures Sum(a + b) == Sum(a) + Sum(b)
  {
    if b == [] {
      assert a + b == a;
    } else {
      SumOfParts(a, b[..|b| - 1]);
      assert (a + b)[..|a + b| - 1] == a + b[..|b| - 1];
    }
  }

  /**
  The merged total never exceeds the two sources together, and when identities are distinct within a
  source it is at least what that source shows on its own.
  */
  lemma MergedTotalIsBounded(a: seq<Entry>, b: seq<Entry>)
    requires AllNonnegative(a) && AllNonnegative(b)
    ensures Total(Largest(a + b)) <= Sum(a) + Sum(b)
    ensures DistinctKeys(a) ==> Sum(a) <= Total(Largest(a + b))
    ensures DistinctKeys(b) ==> Sum(b) <= Total(Largest(a + b))
  {
    LargestWithinSum(a);
    LargestWithinSum(b);
    LargestWithinSum(a + b);
    SumOfParts(a, b);
    LargestOfTwoSources(a, b);
    TotalIsMonotone(Largest(a), Largest(a + b));
    TotalIsMonotone(Largest(b), Largest(a + b));
    if DistinctKeys(a) {
      LargestOfDistinct(a);
    }
    if DistinctKeys(b) {
      LargestOfDistinct(b);
    }
  }

  /** With a repeated identity a source can show more than the merged total keeps. */
  lemma RepeatedIdentityIsMerged(key: string, amount: real)
    requires amount > 0.0
    ensures var a := [Entry(key, amount), Entry(key, amount)];
      Total(Largest(a + [])) == amount < Sum(a)
  {
    var a := [Entry(key, amount), Entry(key, amount)];
    assert a == [Entry(key, amount)] + [Entry(key, amount)] && a + [] == a;
    LargestNext([], Entry(key, amount));
    LargestNext([Entry(key, amount)], Entry(key, amount));
    assert [] + [Entry(key, amount)] == [Entry(key, amount)];
    assert Largest(a) == map[key := amount];
    TotalUpdate(map[], key, amount);
    assert map[][key := amount] == map[key := amount];
  }

  // ----- unresolved crypto orders -----

  /** The symbol of each unresolved crypto order; a later broker order replaces an earlier one. */
  function OrderSymbols(orders: seq<Order>): map<string, string> {
    if orders == [] then map[]
    else
      var front, last := orders[..|orders| - 1], orders[|orders| - 1];
      if last.crypto then OrderSymbols(front)[OrderKey(last, |orders| - 1) := last.symbol] else OrderSymbols(front)
  }

  /** A durable crypto intent adds its identity, and its symbol unless the broker already told one. */
  function ActiveSymbols(orders: seq<Order>, intents: seq<Intent>): map<string, string> {
    if intents == [] then OrderSymbols(orders)
    else
      var front, last := intents[..|intents| - 1], intents[|intents| - 1];
      var active, key := ActiveSymbols(orders, front), IntentKey(last, |intents| - 1);
      if !last.cryptoClass || key in active then active else active[key := last.symbol]
  }

  lemma OrderSymbolsNext(orders: seq<Order>, i: nat)
    requires i < |orders|
    ensures OrderSymbols(orders[..i + 1])
         == if orders[i].crypto then OrderSymbols(orders[..i])[OrderKey(orders[i], i) := orders[i].symbol] else OrderSymbols(orders[..i])
  {
    assert orders[..i + 1][..i] == orders[..i];
  }

  lemma ActiveSymbolsNext(orders: seq<Order>, intents: seq<Intent>, i: nat)
    requires i < |intents|
    ensures var active, key := ActiveSymbols(orders, intents[..i]), IntentKey(intents[i], i);
      ActiveSymbols(orders, intents[..i + 1])
      == if !intents[i].cryptoClass || key in active then active else active[key := intents[i].symbol]
  {
    assert intents[..i + 1][..i] == intents[..i];
  }

  // ----- the aggregate -----

  function PositionTotal(positions: seq<Position>, m: Measure): real {
    if positions == [] then 0.0
    else PositionTotal(positions[..|positions| - 1], m) + PositionAmount(positions[|positions| - 1], m)
  }

  predicate HoldsSymbol(p: Position, symbol: string) {
    p.crypto && p.symbol == symbol
  }

  function QuantityOf(positions: seq<Position>, symbol: string): real {
    if positions == [] then 0.0
    else
      var last := positions[|positions| - 1];
      QuantityOf(positions[..|positions| - 1], symbol) + if HoldsSymbol(last, symbol) then last.quantity else 0.0
  }

  predicate EntersAverage(p: Position, symbol: string) {
    HoldsSymbol(p, symbol) && p.quantity > 0.0 && p.averageEntry.Some?
  }

  /** The quantity that entered at a known price, and what it cost. */
  function Entered(positions: seq<Position>, symbol: string): (r: (real, real)) {
    if positions == [] then (0.0, 0.0)
    else
      var front, last := Entered(positions[..|positions| - 1], symbol), positions[|positions| - 1];
      if EntersAverage(last, symbol) then (front.0 + last.quantity, front.1 + last.quantity * last.averageEntry.value)
      else front
  }

  function AverageEntry(positions: seq<Position>, symbol: string): Option<real> {
    var (quantity, cost) := Entered(positions, symbol);
    if quantity > 0.0 then Some(cost / quantity) else None
  }

  function CryptoHoldings(positions: seq<Position>): nat {
    if positions == [] then 0
    else
      var last := positions[|positions| - 1];
      CryptoHoldings(positions[..|positions| - 1]) + if last.crypto && last.quantity > 0.0 then 1 else 0
  }

  datatype Aggregate = Aggregate(
    allGross: real,
    cryptoGross: real,
    symbolGross: real,
    quantity: real,
    averageEntry: Option<real>,
    openHeat: real,
    pendingCrypto: real,
    pendingAll: real,
    pendingSell: real,
    pendingHeat: real,
    cryptoHoldings: nat,
    intents: nat,
    activeOrders: nat,
    symbolActiveOrders: nat)

  ghost function Pending(orders: seq<Order>, intents: seq<Intent>, m: Measure): real {
    Total(Largest(OrderEntries(orders, m) + IntentEntries(intents, m)))
  }

  function KeysOf(active: map<string, string>, symbol: string): set<string> {
    set k | k in active && active[k] == symbol
  }

  ghost function AggregateOf(positions: seq<Position>, orders: seq<Order>, intents: seq<Intent>, symbol: string): Aggregate {
    var active := ActiveSymbols(orders, intents);
    Aggregate(
      PositionTotal(positions, AllBuys),
      PositionTotal(positions, CryptoBuys),
      PositionTotal(positions, SymbolBuys(symbol)),
      QuantityOf(positions, symbol),
      AverageEntry(positions, symbol),
      PositionTotal(positions, StopRisk),
      Pending(orders, intents, CryptoBuys),
      Pending(orders, intents, AllBuys),
      Pending(orders, intents, Sells(symbol)),
      Pending(orders, intents, StopRisk),
      CryptoHoldings(positions),
      |intents|,
      |active|,
      |KeysOf(active, symbol)|)
  }

  // ----- the groups that the source fills -----

  datatype Group = Group(buy: real, sell: real, risk: real, allBuy: real)

  predicate Collected(m: Measure, symbol: string) {
    m == AllBuys || m == CryptoBuys || m == StopRisk || m == Sells(symbol)
  }

  function Field(g: Group, m: Measure): real {
    match m
    case AllBuys => g.allBuy
    case CryptoBuys => g.buy
    case StopRisk => g.risk
    case Sells(_) => g.sell
    case SymbolBuys(_) => 0.0
  }

  function Project(groups: map<string, Group>, m: Measure): map<string, real> {
    map k | k in groups :: Field(groups[k], m)
  }

  function GroupAt(groups: map<string, Group>, key: string): Group {
    if key in groups then groups[key] else Group(0.0, 0.0, 0.0, 0.0)
  }

  ghost predicate Files(groups: map<string, Group>, symbol: string, entries: Measure -> seq<Entry>) {
    forall m :: Collected(m, symbol) ==> Project(groups, m) == Largest(entries(m))
  }

  /** One group takes one record in all four fields. */
  lemma FilesNext(groups: map<string, Group>, symbol: string, before: Measure -> seq<Entry>, after: Measure -> seq<Entry>,
                  key: string, g: Group, amount: Measure -> real)
    requires Files(groups, symbol, before)
    requires forall m :: Collected(m, symbol) ==> after(m) == before(m) + [Entry(key, amount(m))]
    requires forall m :: Collected(m, symbol) ==> Field(g, m) == Max(Field(GroupAt(groups, key), m), amount(m))
    ensures Files(groups[key := g], symbol, after)
  {
    forall m | Collected(m, symbol)
      ensures Project(groups[key := g], m) == Largest(after(m))
    {
      LargestNext(before(m), Entry(key, amount(m)));
      ProjectUpdate(groups, key, g, m);
      ProjectAt(groups, key, m);
    }
  }

  lemma ProjectUpdate(groups: map<string, Group>, key: string, g: Group, m: Measure)
    ensures Project(groups[key := g], m) == Project(groups, m)[key := Field(g, m)]
  {
  }

  lemma ProjectAt(groups: map<string, Group>, key: string, m: Measure)
    ensures Get(Project(groups, m), key) == Field(GroupAt(groups, key), m)
  {
  }

  function OrdersSoFar(orders: seq<Order>, i: nat): Measure -> seq<Entry>
    requires i <= |orders|
  {
    m => OrderEntries(orders, m)[..i]
  }

  function IntentsSoFar(orders: seq<Order>, intents: seq<Intent>, i: nat): Measure -> seq<Entry>
    requires i <= |intents|
  {
    m => OrderEntries(orders, m) + IntentEntries(intents, m)[..i]
  }

  predicate GroupNonnegative(g: Group) {
    g.buy >= 0.0 && g.sell >= 0.0 && g.risk >= 0.0 && g.allBuy >= 0.0
  }

  method FileOrders(orders: seq<Order>, symbol: string) returns (groups: map<string, Group>)
    requires forall o <- orders :: OrderAccepted(o)
    ensures Files(groups, symbol, OrdersSoFar(orders, |orders|))
    ensures forall k <- groups :: GroupNonnegative(groups[k])
  {
    groups := map[];
    for i := 0 to |orders|
      invariant Files(groups, symbol, OrdersSoFar(orders, i))
      invariant forall k <- groups :: GroupNonnegative(groups[k])
    {
      var order, key := orders[i], OrderKey(orders[i], i);
      var group := GroupAt(groups, key);
      group := group.(allBuy := Max(group.allBuy, order.pending));
      if order.crypto {
        if order.side.Buy? {
          group := group.(buy := Max(group.buy, order.pending));
        } else if order.side.Sell? && order.symbol == symbol {
          group := group.(sell := Max(group.sell, order.remaining));
        }
      }
      FilesNext(groups, symbol, OrdersSoFar(orders, i), OrdersSoFar(orders, i + 1), key, group, m => OrderAmount(order, m));
      groups := groups[key := group];
    }
  }

  method FileIntents(orders: seq<Order>, intents: seq<Intent>, symbol: string, filed: map<string, Group>) returns (groups: map<string, Group>)
    requires forall i <- intents :: IntentAccepted(i)
    requires Files(filed, symbol, OrdersSoFar(orders, |orders|)) && forall k <- filed :: GroupNonnegative(filed[k])
    ensures Files(groups, symbol, IntentsSoFar(orders, intents, |intents|))
  {
    groups := filed;
    forall m
      ensures IntentsSoFar(orders, intents, 0)(m) == OrdersSoFar(orders, |orders|)(m)
    {
    }
    for i := 0 to |intents|
      invariant Files(groups, symbol, IntentsSoFar(orders, intents, i))
      invariant forall k <- groups :: GroupNonnegative(groups[k])
    {
      var intent, key := intents[i], IntentKey(intents[i], i);
      var group := GroupAt(groups, key);
      if intent.side.Buy? {
        group := group.(buy := Max(group.buy, intent.notional));
        group := group.(allBuy := Max(group.allBuy, intent.notional));
        group := group.(risk := Max(group.risk, intent.stopRisk));
      } else if intent.side.Sell? && intent.symbol == symbol {
        group := group.(sell := Max(group.sell, intent.remaining));
      }
      FilesNext(groups, symbol, IntentsSoFar(orders, intents, i), IntentsSoFar(orders, intents, i + 1), key, group, m => IntentAmount(intent, m));
      groups := groups[key := group];
    }
  }

  method CollectActive(orders: seq<Order>, intents: seq<Intent>) returns (active: map<string, string>)
    ensures active == ActiveSymbols(orders, intents)
  {
    active := map[];
    for i := 0 to |orders|
      invariant active == OrderSymbols(orders[..i])
    {
      OrderSymbolsNext(orders, i);
      if orders[i].crypto {
        active := active[OrderKey(orders[i], i) := orders[i].symbol];
      }
    }
    assert orders[..|orders|] == orders;
    for i := 0 to |intents|
      invariant active == ActiveSymbols(orders, intents[..i])
    {
      ActiveSymbolsNext(orders, intents, i);
      var key := IntentKey(intents[i], i);
      if intents[i].cryptoClass && key !in active {
        active := active[key := intents[i].symbol];
      }
    }
    assert intents[..|intents|] == intents;
  }

  datatype Fault = AmountInvalid

  /** Every amount must be a nonnegative number; then the aggregate is the one that its evidence describes. */
  method AggregateEvidence(positions: seq<Position>, orders: seq<Order>, intents: seq<Intent>, symbol: string)
    returns (r: Result<Aggregate, Fault>)
    ensures r == if EvidenceAccepted(positions, orders, intents) then Ok(AggregateOf(positions, orders, intents, symbol)) else Err(AmountInvalid)
  {
    if !EvidenceAccepted(positions, orders, intents) {
      return Err(AmountInvalid);
    }
    var groups := FileOrders(orders, symbol);
    groups := FileIntents(orders, intents, symbol, groups);
    forall m
      ensures IntentsSoFar(orders, intents, |intents|)(m) == OrderEntries(orders, m) + IntentEntries(intents, m)
    {
    }
    var pendingCrypto := SumValues(Project(groups, CryptoBuys));
    var pendingAll := SumValues(Project(groups, AllBuys));
    var pendingSell := SumValues(Project(groups, Sells(symbol)));
    var pendingHeat := SumValues(Project(groups, StopRisk));
    var active := CollectActive(orders, intents);
    return Ok(Aggregate(
      PositionTotal(positions, AllBuys), PositionTotal(positions, CryptoBuys), PositionTotal(positions, SymbolBuys(symbol)),
      QuantityOf(positions, symbol), AverageEntry(positions, symbol), PositionTotal(positions, StopRisk),
      pendingCrypto, pendingAll, pendingSell, pendingHeat,
      CryptoHoldings(positions), |intents|, |active|, |KeysOf(active, symbol)|));
  }

  lemma EntriesAreNonnegative(orders: seq<Order>, intents: seq<Intent>, m: Measure)
    requires EvidenceAccepted([], orders, intents)
    ensures AllNonnegative(OrderEntries(orders, m)) && AllNonnegative(IntentEntries(intents, m))
  {
    forall i | 0 <= i < |orders|
      ensures OrderEntries(orders, m)[i].amount >= 0.0
    {
      assert OrderAccepted(orders[i]);
    }
    forall i | 0 <= i < |intents|
      ensures IntentEntries(intents, m)[i].amount >= 0.0
    {
      assert IntentAccepted(intents[i]);
    }
  }

  /** Broker and durable evidence of the same orders is merged, not added up and not lost. */
  lemma PendingIsBounded(orders: seq<Order>, intents: seq<Intent>, m: Measure)
    requires EvidenceAccepted([], orders, intents)
    ensures var a, b := OrderEntries(orders, m), IntentEntries(intents, m);
      && Pending(orders, intents, m) <= Sum(a) + Sum(b)
      && (DistinctKeys(a) ==> Sum(a) <= Pending(orders, intents, m))
      && (DistinctKeys(b) ==> Sum(b) <= Pending(orders, intents, m))
  {
    EntriesAreNonnegative(orders, intents, m);
    MergedTotalIsBounded(OrderEntries(orders, m), IntentEntries(intents, m));
  }
}
