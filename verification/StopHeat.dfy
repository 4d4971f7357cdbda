/**
The portfolio side of app/cross_asset_runtime.py: how much stop risk the open positions carry,
according to their FIFO lots, and how much capital and risk active reservations claim. Each amount
is added to a total and to its breakdowns, and the totals equal the sums of their breakdowns.
*/
module StopHeat {
  import opened Wrappers
  import opened Sums
  import opened AllocationModel

  const EXTERNAL_UNMANAGED: Strategy := 0
  const UNCLASSIFIED: Strategy := 1
  const CRYPTO_MAJOR: Cluster := 0
  const EQUITY_UNCLASSIFIED: Cluster := 1

  /** A broker position; every position is an equity or a crypto holding. */
  datatype Held = Held(symbol: Symbol, crypto: bool, quantity: real, value: real, cluster: Cluster, strategy: Strategy)

  /** A decimal column: empty, not a number in its range, or a number. */
  datatype Column = Empty | OutOfRange | Number(value: real)

  /** A FIFO lot; external tells that its source is a broker reconciliation or a manual adjustment. */
  datatype Lot = Lot(legacyOpen: bool, remaining: Column, original: Column, initialRisk: Column, strategy: Option<Strategy>, external: bool)

  datatype Fault =
    | RemainingLacksEvidence | ColumnInvalid | GeometryInvalid | StopRiskLacksEvidence | QuantityDoesNotReconcile
    | ReservationLacksAuthority | ReservationWithoutSymbol | DisplayInvalid

  // ----- one lot -----

  /** What a lot says: nothing, an open quantity of unknown risk, an open quantity with its risk, or something unusable. */
  datatype Reading = Closed | RiskUnknown(remaining: real) | Known(remaining: real, risk: real) | Unusable(fault: Fault)

  function LotRisk(initial: real, remaining: real, original: real): real
    requires original > 0.0
  {
    initial * remaining / original
  }

  predicate Positive(c: Column) {
    c.Number? && c.value > 0.0
  }

  predicate NotNegative(c: Column) {
    c.Number? && c.value >= 0.0
  }

  function Read(lot: Lot, crypto: bool): Reading {
    if lot.remaining.Empty? then
      if lot.legacyOpen then Unusable(RemainingLacksEvidence) else Closed
    else if !NotNegative(lot.remaining) || !Positive(lot.original) then Unusable(ColumnInvalid)
    else if lot.remaining.value > lot.original.value then Unusable(GeometryInvalid)
    else if lot.remaining.value == 0.0 then Closed
    else if lot.initialRisk.Empty? then
      if crypto || lot.external then RiskUnknown(lot.remaining.value) else Unusable(StopRiskLacksEvidence)
    else if !NotNegative(lot.initialRisk) then Unusable(ColumnInvalid)
    else Known(lot.remaining.value, LotRisk(lot.initialRisk.value, lot.remaining.value, lot.original.value))
  }

  function Remaining(r: Reading): real {
    match r case RiskUnknown(remaining) => remaining case Known(remaining, _) => remaining case _ => 0.0
  }

  function Risk(r: Reading): real {
    if r.Known? then r.risk else 0.0
  }

  function StrategyOf(lot: Lot, h: Held): Strategy {
    if lot.strategy.Some? then lot.strategy.value else h.strategy
  }

  // ----- one symbol -----

  function RemainingTotal(lots: seq<Lot>, h: Held): real {
    if lots == [] then 0.0 else RemainingTotal(lots[..|lots| - 1], h) + Remaining(Read(lots[|lots| - 1], h.crypto))
  }

  /** The evidenced risk: the open part of each lot keeps its part of the initial risk. */
  function KnownRisk(lots: seq<Lot>, h: Held): real {
    if lots == [] then 0.0 else KnownRisk(lots[..|lots| - 1], h) + Risk(Read(lots[|lots| - 1], h.crypto))
  }

  function KnownRiskIn(lots: seq<Lot>, h: Held, s: Strategy): real {
    if lots == [] then 0.0
    else
      var last := lots[|lots| - 1];
      KnownRiskIn(lots[..|lots| - 1], h, s) + if StrategyOf(last, h) == s then Risk(Read(last, h.crypto)) else 0.0
  }

  predicate HasUnknownRisk(lots: seq<Lot>, h: Held) {
    exists lot <- lots :: Read(lot, h.crypto).RiskUnknown?
  }

  predicate Usable(lots: seq<Lot>, h: Held) {
    forall lot <- lots :: !Read(lot, h.crypto).Unusable?
  }

  /** Lots are evidence when each is usable and together they hold the broker's quantity; no lots at all are accepted too. */
  predicate Reconciled(lots: seq<Lot>, h: Held) {
    lots == [] || (Usable(lots, h) && RemainingTotal(lots, h) == h.quantity)
  }

  function SymbolRisk(lots: seq<Lot>, h: Held): real {
    if lots == [] then h.value
    else if HasUnknownRisk(lots, h) then Max(KnownRisk(lots, h), h.value)
    else KnownRisk(lots, h)
  }

  /** What is not evidenced is booked on the external strategy. */
  function StrategyRisk(lots: seq<Lot>, h: Held, s: Strategy): real {
    KnownRiskIn(lots, h, s) + if s == EXTERNAL_UNMANAGED then SymbolRisk(lots, h) - KnownRisk(lots, h) else 0.0
  }

  // ----- all symbols -----

  type Book = map<Symbol, seq<Lot>>

  function LotsOf(book: Book, h: Held): seq<Lot> {
    if h.symbol in book then book[h.symbol] else []
  }

  function TotalRisk(held: seq<Held>, book: Book): real {
    if held == [] then 0.0
    else TotalRisk(held[..|held| - 1], book) + SymbolRisk(LotsOf(book, held[|held| - 1]), held[|held| - 1])
  }

  function AssetRisk(held: seq<Held>, book: Book, crypto: bool): real {
    if held == [] then 0.0
    else
      var last := held[|held| - 1];
      AssetRisk(held[..|held| - 1], book, crypto) + if last.crypto == crypto then SymbolRisk(LotsOf(book, last), last) else 0.0
  }

  function StrategyTotal(held: seq<Held>, book: Book, s: Strategy): real {
    if held == [] then 0.0
    else StrategyTotal(held[..|held| - 1], book, s) + StrategyRisk(LotsOf(book, held[|held| - 1]), held[|held| - 1], s)
  }

  datatype Heat = Heat(total: real, byAsset: BySleeve<real>, byStrategy: map<Strategy, real>)

  ghost predicate Splits(heat: Heat) {
    heat.total == heat.byAsset.equity + heat.byAsset.crypto && heat.total == Total(heat.byStrategy)
  }

  lemma PrefixStep<T>(xs: seq<T>, i: nat)
    requires i < |xs|
    ensures xs[..i + 1][..i] == xs[..i] && xs[..i + 1][i] == xs[i] && |xs[..i + 1]| == i + 1
    ensures forall x :: x in xs[..i + 1] <==> x in xs[..i] || x == xs[i]
  {
    assert xs[..i + 1] == xs[..i] + [xs[i]];
  }

  lemma WholePrefix<T>(xs: seq<T>)
    ensures xs[..|xs|] == xs
  {
  }

  /** The lots of one held symbol. */
  method SymbolHeat(lots: seq<Lot>, h: Held, before: map<Strategy, real>) returns (r: Result<(real, map<Strategy, real>), Fault>)
    requires lots != []
    ensures r.Ok? <==> Reconciled(lots, h)
    ensures r.Ok? ==> r.value.0 == SymbolRisk(lots, h) && Total(r.value.1) == Total(before) + SymbolRisk(lots, h)
    ensures r.Ok? ==> forall s :: Get(r.value.1, s) == Get(before, s) + StrategyRisk(lots, h, s)
  {
    var remainingTotal, symbolRisk, unknown, byStrategy := 0.0, 0.0, false, before;
    for i := 0 to |lots|
      invariant Usable(lots[..i], h)
      invariant remainingTotal == RemainingTotal(lots[..i], h) && symbolRisk == KnownRisk(lots[..i], h)
      invariant unknown <==> HasUnknownRisk(lots[..i], h)
      invariant Total(byStrategy) == Total(before) + symbolRisk
      invariant forall s :: Get(byStrategy, s) == Get(before, s) + KnownRiskIn(lots[..i], h, s)
    {
      PrefixStep(lots, i);
      var reading := Read(lots[i], h.crypto);
      match reading
      case Unusable(fault) =>
        return Err(fault);
      case Closed =>
      case RiskUnknown(remaining) =>
        remainingTotal := remainingTotal + remaining;
        unknown := true;
      case Known(remaining, risk) =>
        remainingTotal := remainingTotal + remaining;
        symbolRisk := symbolRisk + risk;
        TotalAdd(byStrategy, StrategyOf(lots[i], h), risk);
        byStrategy := Add(byStrategy, StrategyOf(lots[i], h), risk);
    }
    WholePrefix(lots);
    if remainingTotal != h.quantity {
      return Err(QuantityDoesNotReconcile);
    }
    if unknown {
      var prior := symbolRisk;
      symbolRisk := Max(symbolRisk, h.value);
      if symbolRisk - prior > 0.0 {
        TotalAdd(byStrategy, EXTERNAL_UNMANAGED, symbolRisk - prior);
        byStrategy := Add(byStrategy, EXTERNAL_UNMANAGED, symbolRisk - prior);
      }
    }
    return Ok((symbolRisk, byStrategy));
  }

  method PositionStopHeat(held: seq<Held>, book: Book) returns (r: Result<Heat, Fault>)
    ensures r.Ok? <==> forall h <- held :: Reconciled(LotsOf(book, h), h)
    ensures r.Ok? ==> Splits(r.value) && r.value.total == TotalRisk(held, book)
    ensures r.Ok? ==> forall crypto :: r.value.byAsset.At(crypto) == AssetRisk(held, book, crypto)
    ensures r.Ok? ==> forall s :: Get(r.value.byStrategy, s) == StrategyTotal(held, book, s)
  {
    var total, byAsset, byStrategy := 0.0, BySleeve(0.0, 0.0), map[];
    for i := 0 to |held|
      invariant forall h <- held[..i] :: Reconciled(LotsOf(book, h), h)
      invariant total == TotalRisk(held[..i], book) && Splits(Heat(total, byAsset, byStrategy))
      invariant forall crypto :: byAsset.At(crypto) == AssetRisk(held[..i], book, crypto)
      invariant forall s :: Get(byStrategy, s) == StrategyTotal(held[..i], book, s)
    {
      PrefixStep(held, i);
      var item := held[i];
      var rows := LotsOf(book, item);
      if rows == [] {
        byAsset := byAsset.With(item.crypto, byAsset.At(item.crypto) + item.value);
        TotalAdd(byStrategy, EXTERNAL_UNMANAGED, item.value);
        byStrategy := Add(byStrategy, EXTERNAL_UNMANAGED, item.value);
        total := total + item.value;
      } else {
        var symbol := SymbolHeat(rows, item, byStrategy);
        if symbol.Err? {
          return Err(symbol.error);
        }
        byStrategy := symbol.value.1;
        byAsset := byAsset.With(item.crypto, byAsset.At(item.crypto) + symbol.value.0);
        total := total + symbol.value.0;
      }
    }
    WholePrefix(held);
    return Ok(Heat(total, byAsset, byStrategy));
  }

  // ----- what the heat of a symbol means -----

  function InitialRisk(lots: seq<Lot>, h: Held): real {
    if lots == [] then 0.0
    else
      var last := lots[|lots| - 1];
      InitialRisk(lots[..|lots| - 1], h) + if Read(last, h.crypto).Known? then last.initialRisk.value else 0.0
  }

  lemma LotKeepsItsPart(initial: real, remaining: real, original: real)
    requires initial >= 0.0 && 0.0 <= remaining <= original && original > 0.0
    ensures 0.0 <= LotRisk(initial, remaining, original) <= initial
  {
    assert initial * (original - remaining) >= 0.0;
    assert LotRisk(initial, remaining, original) * original == initial * remaining;
    PartIsNonnegative(initial * remaining, original);
    PartIsNonnegative(initial * (original - remaining), original);
  }

  lemma PartIsNonnegative(a: real, b: real)
    requires a >= 0.0 && b > 0.0
    ensures a / b >= 0.0
  {
  }

  lemma {:induction false} KnownRiskIsBounded(lots: seq<Lot>, h: Held)
    ensures 0.0 <= KnownRisk(lots, h) <= InitialRisk(lots, h)
  {
    if lots != [] {
      KnownRiskIsBounded(lots[..|lots| - 1], h);
      var last := lots[|lots| - 1];
      if Read(last, h.crypto).Known? {
        LotKeepsItsPart(last.initialRisk.value, last.remaining.value, last.original.value);
      }
    }
  }

  /** A fully evidenced symbol carries at most its initial risk; one with anything unknown at least its market value. */
  lemma SymbolRiskIsConservative(lots: seq<Lot>, h: Held)
    requires h.value >= 0.0
    ensures lots != [] && !HasUnknownRisk(lots, h) ==> SymbolRisk(lots, h) == KnownRisk(lots, h) <= InitialRisk(lots, h)
    ensures lots == [] || HasUnknownRisk(lots, h) ==> SymbolRisk(lots, h) >= h.value
    ensures SymbolRisk(lots, h) >= KnownRisk(lots, h) >= 0.0
  {
    KnownRiskIsBounded(lots, h);
  }

  // ----- the risk of lots in words -----

  /** Whether a lot can be used: it is closed, or its quantities fit each other and its risk is known or may be unknown. */
  predicate Evident(lot: Lot, crypto: bool) {
    match lot.remaining
    case Empty => !lot.legacyOpen
    case OutOfRange => false
    case Number(remaining) =>
      && lot.original.Number? && 0.0 <= remaining <= lot.original.value && lot.original.value > 0.0
      && match lot.initialRisk
         case Number(risk) => remaining == 0.0 || risk >= 0.0
         case OutOfRange => remaining == 0.0
         case Empty => remaining == 0.0 || crypto || lot.external
  }

  predicate Open(lot: Lot) {
    lot.remaining.Number? && lot.remaining.value > 0.0
  }

  /** risk stands to the initial risk as what remains to what was bought. */
  predicate Carries(lot: Lot, risk: real) {
    if Open(lot) && lot.initialRisk.Number? && lot.original.Number? then risk * lot.original.value == lot.initialRisk.value * lot.remaining.value
    else risk == 0.0
  }

  lemma LotRiskIsProportional(initial: real, remaining: real, original: real)
    requires original > 0.0
    ensures LotRisk(initial, remaining, original) * original == initial * remaining
  {
  }

  /** Each reading of a lot: unusable exactly without evidence, open with its share of the initial risk, or open without a risk. */
  lemma LotInWords(lot: Lot, crypto: bool)
    ensures !Read(lot, crypto).Unusable? <==> Evident(lot, crypto)
    ensures Evident(lot, crypto) ==> Carries(lot, Risk(Read(lot, crypto)))
    ensures Evident(lot, crypto) ==> Remaining(Read(lot, crypto)) == if Open(lot) then lot.remaining.value else 0.0
    ensures Evident(lot, crypto) ==> (Read(lot, crypto).RiskUnknown? <==> Open(lot) && !lot.initialRisk.Number?)
  {
    if Read(lot, crypto).Known? {
      LotRiskIsProportional(lot.initialRisk.value, lot.remaining.value, lot.original.value);
    }
  }

  /** risks are those that the lots carry, one by one. */
  predicate AllCarry(lots: seq<Lot>, risks: seq<real>) {
    |risks| == |lots| && forall i :: 0 <= i < |lots| ==> Carries(lots[i], risks[i])
  }

  lemma {:induction false} KnownRiskInWords(lots: seq<Lot>, h: Held) returns (risks: seq<real>)
    requires Usable(lots, h)
    ensures AllCarry(lots, risks) && KnownRisk(lots, h) == Sum(risks)
  {
    if lots == [] {
      risks := [];
    } else {
      var front, last := lots[..|lots| - 1], lots[|lots| - 1];
      var rest := KnownRiskInWords(front, h);
      LotInWords(last, h.crypto);
      risks := rest + [Risk(Read(last, h.crypto))];
      assert risks[..|risks| - 1] == rest;
      forall i | 0 <= i < |lots|
        ensures Carries(lots[i], risks[i])
      {
        if i < |front| {
          assert Carries(front[i], rest[i]);
        }
      }
    }
  }

  /** The heat of a symbol is the sum of what its lots carry; if an open lot does not say what it risks it is at least the market
      value, and without any lots it is the market value. */
  lemma SymbolRiskInWords(lots: seq<Lot>, h: Held) returns (risks: seq<real>)
    requires Reconciled(lots, h)
    ensures forall lot <- lots :: Evident(lot, h.crypto)
    ensures AllCarry(lots, risks)
    ensures if lots == [] then SymbolRisk(lots, h) == h.value
            else if exists lot <- lots :: Open(lot) && !lot.initialRisk.Number? then
              SymbolRisk(lots, h) == if h.value > Sum(risks) then h.value else Sum(risks)
            else SymbolRisk(lots, h) == Sum(risks)
  {
    forall lot <- lots
      ensures Evident(lot, h.crypto) && (Read(lot, h.crypto).RiskUnknown? <==> Open(lot) && !lot.initialRisk.Number?)
    {
      LotInWords(lot, h.crypto);
    }
    if lots == [] {
      risks := [];
    } else {
      risks := KnownRiskInWords(lots, h);
    }
  }

  /** Whose risk a lot is: its own strategy's, or else the holding's. */
  function OwnerOf(lot: Lot, h: Held): Strategy {
    match lot.strategy case Some(s) => s case None => h.strategy
  }

  /** A strategy carries the risk of its own lots, all of it if they are all its own and none if none is. */
  lemma {:induction false} StrategyCarriesItsLots(lots: seq<Lot>, h: Held, s: Strategy)
    ensures (forall lot <- lots :: OwnerOf(lot, h) == s) ==> KnownRiskIn(lots, h, s) == KnownRisk(lots, h)
    ensures (forall lot <- lots :: OwnerOf(lot, h) != s) ==> KnownRiskIn(lots, h, s) == 0.0
  {
    if lots != [] {
      StrategyCarriesItsLots(lots[..|lots| - 1], h, s);
      assert lots[|lots| - 1] in lots;
    }
  }

  /** What market value adds beyond the lots is the external strategy's. */
  lemma ExcessIsExternal(lots: seq<Lot>, h: Held, s: Strategy)
    ensures s != EXTERNAL_UNMANAGED ==> StrategyRisk(lots, h, s) == KnownRiskIn(lots, h, s)
    ensures StrategyRisk(lots, h, EXTERNAL_UNMANAGED) - KnownRiskIn(lots, h, EXTERNAL_UNMANAGED) == SymbolRisk(lots, h) - KnownRisk(lots, h)
  {
  }

  // ----- active reservations -----

  /** An active reservation of either lane; a crypto reservation also carries the display of its proposal. */
  datatype Claim = Claim(notional: Column, stopRisk: Column, symbol: Option<Symbol>, crypto: bool, cluster: Cluster, strategy: Strategy, displayValid: bool)

  predicate ClaimAccepted(c: Claim) {
    NotNegative(c.notional) && NotNegative(c.stopRisk) && c.symbol.Some? && c.displayValid
  }

  predicate ClaimsAccepted(claims: seq<Claim>) {
    forall c <- claims :: ClaimAccepted(c)
  }

  function SumOf<T>(xs: seq<T>, amount: T -> real): real {
    if xs == [] then 0.0 else SumOf(xs[..|xs| - 1], amount) + amount(xs[|xs| - 1])
  }

  function NotionalOf(c: Claim): real {
    if c.notional.Number? then c.notional.value else 0.0
  }

  function StopRiskOf(c: Claim): real {
    if c.stopRisk.Number? then c.stopRisk.value else 0.0
  }

  function InSymbol(k: Symbol): Claim -> real {
    (c: Claim) => if c.symbol == Some(k) then NotionalOf(c) else 0.0
  }

  function InCluster(k: Cluster): Claim -> real {
    (c: Claim) => if c.cluster == k then NotionalOf(c) else 0.0
  }

  function InSleeve(crypto: bool): Claim -> real {
    (c: Claim) => if c.crypto == crypto then NotionalOf(c) else 0.0
  }

  function HeatInSleeve(crypto: bool): Claim -> real {
    (c: Claim) => if c.crypto == crypto then StopRiskOf(c) else 0.0
  }

  function HeatInStrategy(k: Strategy): Claim -> real {
    (c: Claim) => if c.strategy == k then StopRiskOf(c) else 0.0
  }

  datatype Exposures = Exposures(
    gross: real,
    heat: real,
    symbols: map<Symbol, real>,
    clusters: map<Cluster, real>,
    sleeves: BySleeve<real>,
    sleeveHeat: BySleeve<real>,
    strategyHeat: map<Strategy, real>)

  /** Both totals equal the sums of all their breakdowns. */
  ghost predicate Balanced(e: Exposures) {
    && Total(e.symbols) == e.gross && Total(e.clusters) == e.gross && e.sleeves.equity + e.sleeves.crypto == e.gross
    && e.sleeveHeat.equity + e.sleeveHeat.crypto == e.heat && Total(e.strategyHeat) == e.heat
  }

  /** after is before with these claims added to every total and breakdown. */
  ghost predicate Adds(before: Exposures, claims: seq<Claim>, after: Exposures) {
    && after.gross == before.gross + SumOf(claims, NotionalOf)
    && after.heat == before.heat + SumOf(claims, StopRiskOf)
    && (forall k :: Get(after.symbols, k) == Get(before.symbols, k) + SumOf(claims, InSymbol(k)))
    && (forall k :: Get(after.clusters, k) == Get(before.clusters, k) + SumOf(claims, InCluster(k)))
    && (forall b :: after.sleeves.At(b) == before.sleeves.At(b) + SumOf(claims, InSleeve(b)))
    && (forall b :: after.sleeveHeat.At(b) == before.sleeveHeat.At(b) + SumOf(claims, HeatInSleeve(b)))
    && (forall k :: Get(after.strategyHeat, k) == Get(before.strategyHeat, k) + SumOf(claims, HeatInStrategy(k)))
  }

  function Charge(e: Exposures, c: Claim): Exposures
    requires ClaimAccepted(c)
  {
    var notional, risk := c.notional.value, c.stopRisk.value;
    Exposures(
      e.gross + notional, e.heat + risk,
      Add(e.symbols, c.symbol.value, notional), Add(e.clusters, c.cluster, notional),
      e.sleeves.With(c.crypto, e.sleeves.At(c.crypto) + notional),
      e.sleeveHeat.With(c.crypto, e.sleeveHeat.At(c.crypto) + risk),
      Add(e.strategyHeat, c.strategy, risk))
  }

  lemma ChargeKeepsBalance(e: Exposures, c: Claim)
    requires ClaimAccepted(c) && Balanced(e)
    ensures Balanced(Charge(e, c))
  {
    TotalAdd(e.symbols, c.symbol.value, c.notional.value);
    TotalAdd(e.clusters, c.cluster, c.notional.value);
    TotalAdd(e.strategyHeat, c.strategy, c.stopRisk.value);
  }

  lemma SumOfNext<T>(xs: seq<T>, i: nat, amount: T -> real)
    requires i < |xs|
    ensures SumOf(xs[..i + 1], amount) == SumOf(xs[..i], amount) + amount(xs[i])
  {
    PrefixStep(xs, i);
  }

  lemma {:induction false} SumOfParts<T>(xs: seq<T>, ys: seq<T>, amount: T -> real)
    ensures SumOf(xs + ys, amount) == SumOf(xs, amount) + SumOf(ys, amount)
  {
    if ys == [] {
      assert xs + ys == xs;
    } else {
      SumOfParts(xs, ys[..|ys| - 1], amount);
      assert (xs + ys)[..|xs + ys| - 1] == xs + ys[..|ys| - 1];
    }
  }

  lemma AddsNextKeys(before: Exposures, claims: seq<Claim>, i: nat, e: Exposures)
    requires i < |claims| && ClaimAccepted(claims[i]) && Adds(before, claims[..i], e)
    ensures var next := Charge(e, claims[i]);
      && (forall k :: Get(next.symbols, k) == Get(before.symbols, k) + SumOf(claims[..i + 1], InSymbol(k)))
      && (forall k :: Get(next.clusters, k) == Get(before.clusters, k) + SumOf(claims[..i + 1], InCluster(k)))
      && (forall k :: Get(next.strategyHeat, k) == Get(before.strategyHeat, k) + SumOf(claims[..i + 1], HeatInStrategy(k)))
  {
    var next := Charge(e, claims[i]);
    forall k
      ensures Get(next.symbols, k) == Get(before.symbols, k) + SumOf(claims[..i + 1], InSymbol(k))
      ensures Get(next.clusters, k) == Get(before.clusters, k) + SumOf(claims[..i + 1], InCluster(k))
      ensures Get(next.strategyHeat, k) == Get(before.strategyHeat, k) + SumOf(claims[..i + 1], HeatInStrategy(k))
    {
      SumOfNext(claims, i, InSymbol(k));
      SumOfNext(claims, i, InCluster(k));
      SumOfNext(claims, i, HeatInStrategy(k));
    }
  }

  lemma AddsNext(before: Exposures, claims: seq<Claim>, i: nat, e: Exposures)
    requires i < |claims| && ClaimAccepted(claims[i]) && Adds(before, claims[..i], e)
    ensures Adds(before, claims[..i + 1], Charge(e, claims[i]))
  {
    var next := Charge(e, claims[i]);
    SumOfNext(claims, i, NotionalOf);
    SumOfNext(claims, i, StopRiskOf);
    AddsNextKeys(before, claims, i, e);
    forall b
      ensures next.sleeves.At(b) == before.sleeves.At(b) + SumOf(claims[..i + 1], InSleeve(b))
      ensures next.sleeveHeat.At(b) == before.sleeveHeat.At(b) + SumOf(claims[..i + 1], HeatInSleeve(b))
    {
      SumOfNext(claims, i, InSleeve(b));
      SumOfNext(claims, i, HeatInSleeve(b));
    }
  }

  /** A claim without exact amounts, a symbol or a readable display stops the sum instead of widening capacity. */
  method AddReservations(claims: seq<Claim>, before: Exposures) returns (r: Result<Exposures, Fault>)
    requires Balanced(before)
    ensures r.Ok? <==> ClaimsAccepted(claims)
    ensures r.Ok? ==> Adds(before, claims, r.value) && Balanced(r.value)
  {
    var e := before;
    for i := 0 to |claims|
      invariant ClaimsAccepted(claims[..i]) && Adds(before, claims[..i], e) && Balanced(e)
    {
      PrefixStep(claims, i);
      var claim := claims[i];
      assert claim in claims;
      if claim.notional.Empty? || claim.stopRisk.Empty? {
        return Err(ReservationLacksAuthority);
      }
      if !NotNegative(claim.notional) || !NotNegative(claim.stopRisk) {
        return Err(ColumnInvalid);
      }
      if claim.symbol.None? {
        return Err(ReservationWithoutSymbol);
      }
      if !claim.displayValid {
        return Err(DisplayInvalid);
      }
      AddsNext(before, claims, i, e);
      ChargeKeepsBalance(e, claim);
      e := Charge(e, claim);
    }
    WholePrefix(claims);
    return Ok(e);
  }

  function NothingClaimed(): Exposures {
    Exposures(0.0, 0.0, map[], map[], BySleeve(0.0, 0.0), BySleeve(0.0, 0.0), map[])
  }

  lemma AddsBoth(first: seq<Claim>, second: seq<Claim>, before: Exposures, middle: Exposures, after: Exposures)
    requires Adds(before, first, middle) && Adds(middle, second, after)
    ensures Adds(before, first + second, after)
  {
    SumOfParts(first, second, NotionalOf);
    SumOfParts(first, second, StopRiskOf);
    forall k
      ensures SumOf(first + second, InSymbol(k)) == SumOf(first, InSymbol(k)) + SumOf(second, InSymbol(k))
      ensures SumOf(first + second, InCluster(k)) == SumOf(first, InCluster(k)) + SumOf(second, InCluster(k))
      ensures SumOf(first + second, HeatInStrategy(k)) == SumOf(first, HeatInStrategy(k)) + SumOf(second, HeatInStrategy(k))
    {
      SumOfParts(first, second, InSymbol(k));
      SumOfParts(first, second, InCluster(k));
      SumOfParts(first, second, HeatInStrategy(k));
    }
    forall b
      ensures SumOf(first + second, InSleeve(b)) == SumOf(first, InSleeve(b)) + SumOf(second, InSleeve(b))
      ensures SumOf(first + second, HeatInSleeve(b)) == SumOf(first, HeatInSleeve(b)) + SumOf(second, HeatInSleeve(b))
    {
      SumOfParts(first, second, InSleeve(b));
      SumOfParts(first, second, HeatInSleeve(b));
    }
  }

  /** The general reservations first, then those of the crypto lane. */
  method ActiveReservations(general: seq<Claim>, crypto: seq<Claim>) returns (r: Result<Exposures, Fault>)
    ensures r.Ok? <==> ClaimsAccepted(general + crypto)
    ensures r.Ok? ==> Adds(NothingClaimed(), general + crypto, r.value) && Balanced(r.value)
  {
    var first := AddReservations(general, NothingClaimed());
    if first.Err? {
      return first;
    }
    r := AddReservations(crypto, first.value);
    if r.Ok? {
      AddsBoth(general, crypto, NothingClaimed(), first.value, r.value);
    }
  }

  // ----- the snapshot -----

  function ValueOf(h: Held): real {
    h.value
  }

  function HeldInSymbol(k: Symbol): Held -> real {
    (h: Held) => if h.symbol == k then h.value else 0.0
  }

  function HeldInCluster(k: Cluster): Held -> real {
    (h: Held) => if h.cluster == k then h.value else 0.0
  }

  function HeldInSleeve(crypto: bool): Held -> real {
    (h: Held) => if h.crypto == crypto then h.value else 0.0
  }

  /** One position for each symbol, each with a positive market value. */
  predicate HeldAccepted(held: seq<Held>) {
    && (forall i, j :: 0 <= i < j < |held| ==> held[i].symbol != held[j].symbol)
    && (forall h <- held :: h.value > 0.0)
  }

  function Counted(held: seq<Held>, crypto: bool): nat {
    if held == [] then 0
    else Counted(held[..|held| - 1], crypto) + if held[|held| - 1].crypto == crypto then 1 else 0
  }

  datatype HeldExposure = HeldExposure(
    gross: real, counts: BySleeve<nat>, sleeves: BySleeve<real>, symbols: map<Symbol, real>, clusters: map<Cluster, real>)

  ghost predicate Describes(held: seq<Held>, e: HeldExposure) {
    && e.gross == SumOf(held, ValueOf)
    && Total(e.symbols) == e.gross && Total(e.clusters) == e.gross && e.sleeves.equity + e.sleeves.crypto == e.gross
    && e.counts.equity + e.counts.crypto == |held|
    && (forall b :: e.counts.At(b) == Counted(held, b) && e.sleeves.At(b) == SumOf(held, HeldInSleeve(b)))
    && (forall k :: Get(e.symbols, k) == SumOf(held, HeldInSymbol(k)))
    && (forall k :: k in e.symbols <==> exists h <- held :: h.symbol == k)
    && (forall k :: Get(e.clusters, k) == SumOf(held, HeldInCluster(k)))
  }

  function HoldOne(e: HeldExposure, h: Held): HeldExposure {
    HeldExposure(
      e.gross + h.value,
      e.counts.With(h.crypto, e.counts.At(h.crypto) + 1),
      e.sleeves.With(h.crypto, e.sleeves.At(h.crypto) + h.value),
      e.symbols[h.symbol := h.value],
      Add(e.clusters, h.cluster, h.value))
  }

  lemma HoldOneMoreValue(held: seq<Held>, i: nat, e: HeldExposure)
    requires i < |held| && Describes(held[..i], e) && held[i].symbol !in e.symbols
    ensures var next := HoldOne(e, held[i]);
      && next.gross == SumOf(held[..i + 1], ValueOf)
      && Total(next.symbols) == next.gross && Total(next.clusters) == next.gross && next.sleeves.equity + next.sleeves.crypto == next.gross
      && next.counts.equity + next.counts.crypto == i + 1
  {
    var h := held[i];
    SumOfNext(held, i, ValueOf);
    TotalUpdate(e.symbols, h.symbol, h.value);
    TotalAdd(e.clusters, h.cluster, h.value);
  }

  lemma HoldOneMoreParts(held: seq<Held>, i: nat, e: HeldExposure)
    requires i < |held| && Describes(held[..i], e) && held[i].symbol !in e.symbols
    ensures var next := HoldOne(e, held[i]);
      && (forall b :: next.counts.At(b) == Counted(held[..i + 1], b) && next.sleeves.At(b) == SumOf(held[..i + 1], HeldInSleeve(b)))
      && (forall k :: Get(next.symbols, k) == SumOf(held[..i + 1], HeldInSymbol(k)))
      && (forall k :: Get(next.clusters, k) == SumOf(held[..i + 1], HeldInCluster(k)))
  {
    var next := HoldOne(e, held[i]);
    PrefixStep(held, i);
    forall b
      ensures next.counts.At(b) == Counted(held[..i + 1], b) && next.sleeves.At(b) == SumOf(held[..i + 1], HeldInSleeve(b))
    {
      SumOfNext(held, i, HeldInSleeve(b));
    }
    forall k
      ensures Get(next.symbols, k) == SumOf(held[..i + 1], HeldInSymbol(k))
      ensures Get(next.clusters, k) == SumOf(held[..i + 1], HeldInCluster(k))
    {
      SumOfNext(held, i, HeldInSymbol(k));
      SumOfNext(held, i, HeldInCluster(k));
    }
  }

  lemma HoldOneMore(held: seq<Held>, i: nat, e: HeldExposure)
    requires HeldAccepted(held) && i < |held| && Describes(held[..i], e)
    ensures Describes(held[..i + 1], HoldOne(e, held[i]))
  {
    var next := HoldOne(e, held[i]);
    PrefixStep(held, i);
    assert held[i].symbol !in e.symbols;
    HoldOneMoreValue(held, i, e);
    HoldOneMoreParts(held, i, e);
    forall k
      ensures k in next.symbols <==> exists h <- held[..i + 1] :: h.symbol == k
    {
      if k == held[i].symbol {
        assert held[i] in held[..i + 1];
      }
    }
  }

  method HeldExposures(held: seq<Held>) returns (e: HeldExposure)
    requires HeldAccepted(held)
    ensures Describes(held, e)
  {
    e := HeldExposure(0.0, BySleeve(0, 0), BySleeve(0.0, 0.0), map[], map[]);
    for i := 0 to |held|
      invariant Describes(held[..i], e)
    {
      HoldOneMore(held, i, e);
      e := HoldOne(e, held[i]);
    }
    WholePrefix(held);
  }

  datatype Portfolio = Portfolio(exposures: Exposures, positions: nat, counts: BySleeve<nat>)

  /** What the snapshot reports: positions and reservations together, in every total and breakdown. */
  ghost predicate Reports(held: seq<Held>, book: Book, claims: seq<Claim>, p: Portfolio) {
    var e := p.exposures;
    && e.gross == SumOf(held, ValueOf) + SumOf(claims, NotionalOf)
    && e.heat == TotalRisk(held, book) + SumOf(claims, StopRiskOf)
    && p.positions == |held| && p.counts.equity + p.counts.crypto == |held|
    && (forall b :: e.sleeves.At(b) == SumOf(held, HeldInSleeve(b)) + SumOf(claims, InSleeve(b)))
    && (forall b :: e.sleeveHeat.At(b) == AssetRisk(held, book, b) + SumOf(claims, HeatInSleeve(b)))
    && (forall k :: Get(e.symbols, k) == SumOf(held, HeldInSymbol(k)) + SumOf(claims, InSymbol(k)))
    && (forall k :: Get(e.clusters, k) == SumOf(held, HeldInCluster(k)) + SumOf(claims, InCluster(k)))
    && (forall k :: Get(e.strategyHeat, k) == StrategyTotal(held, book, k) + SumOf(claims, HeatInStrategy(k)))
  }

  function Plus(a: BySleeve<real>, b: BySleeve<real>): BySleeve<real> {
    BySleeve(a.equity + b.equity, a.crypto + b.crypto)
  }

  ghost predicate AddsUp(a: map<nat, real>, b: map<nat, real>, sum: map<nat, real>) {
    Total(sum) == Total(a) + Total(b) && forall k :: Get(sum, k) == Get(a, k) + Get(b, k)
  }

  ghost predicate HeatOf(held: seq<Held>, book: Book, heat: Heat) {
    && Splits(heat) && heat.total == TotalRisk(held, book)
    && (forall b :: heat.byAsset.At(b) == AssetRisk(held, book, b))
    && (forall s :: Get(heat.byStrategy, s) == StrategyTotal(held, book, s))
  }

  /** e merges what is held, what it risks, and what is reserved. */
  ghost predicate Merges(holding: HeldExposure, heat: Heat, reserved: Exposures, e: Exposures) {
    && e.gross == holding.gross + reserved.gross && e.heat == heat.total + reserved.heat
    && e.sleeves == Plus(holding.sleeves, reserved.sleeves) && e.sleeveHeat == Plus(heat.byAsset, reserved.sleeveHeat)
    && AddsUp(holding.symbols, reserved.symbols, e.symbols) && AddsUp(holding.clusters, reserved.clusters, e.clusters)
    && AddsUp(heat.byStrategy, reserved.strategyHeat, e.strategyHeat)
    && e.symbols.Keys == holding.symbols.Keys + reserved.symbols.Keys
  }

  function WithDefault(m: map<nat, real>, k: nat): map<nat, real> {
    if k in m then m else m[k := 0.0]
  }

  lemma DefaultKeepsAmounts(m: map<nat, real>, k: nat)
    ensures Total(WithDefault(m, k)) == Total(m) && forall j :: Get(WithDefault(m, k), j) == Get(m, j)
  {
    TotalUpdate(m, k, Get(m, k));
  }

  method MergeExposures(holding: HeldExposure, heat: Heat, reserved: Exposures) returns (e: Exposures)
    ensures Merges(holding, heat, reserved, e)
  {
    var strategyHeat := Merge(heat.byStrategy, reserved.strategyHeat);
    var symbols := Merge(holding.symbols, reserved.symbols);
    var clusters := Merge(holding.clusters, reserved.clusters);
    DefaultKeepsAmounts(clusters, CRYPTO_MAJOR);
    DefaultKeepsAmounts(WithDefault(clusters, CRYPTO_MAJOR), EQUITY_UNCLASSIFIED);
    DefaultKeepsAmounts(strategyHeat, UNCLASSIFIED);
    clusters := WithDefault(WithDefault(clusters, CRYPTO_MAJOR), EQUITY_UNCLASSIFIED);
    strategyHeat := WithDefault(strategyHeat, UNCLASSIFIED);
    return Exposures(
      holding.gross + reserved.gross, heat.total + reserved.heat, symbols, clusters,
      Plus(holding.sleeves, reserved.sleeves), Plus(heat.byAsset, reserved.sleeveHeat), strategyHeat);
  }

  lemma MergedIsBalanced(held: seq<Held>, holding: HeldExposure, heat: Heat, reserved: Exposures, e: Exposures)
    requires Describes(held, holding) && Splits(heat) && Balanced(reserved) && Merges(holding, heat, reserved, e)
    ensures Balanced(e)
  {
  }

  lemma MergedIsReported(held: seq<Held>, book: Book, claims: seq<Claim>, holding: HeldExposure, heat: Heat, reserved: Exposures, p: Portfolio)
    requires Describes(held, holding) && HeatOf(held, book, heat) && Adds(NothingClaimed(), claims, reserved)
    requires Merges(holding, heat, reserved, p.exposures) && p.positions == |held| && p.counts == holding.counts
    ensures Reports(held, book, claims, p)
  {
    var e := p.exposures;
    forall k
      ensures Get(e.symbols, k) == SumOf(held, HeldInSymbol(k)) + SumOf(claims, InSymbol(k))
      ensures Get(e.clusters, k) == SumOf(held, HeldInCluster(k)) + SumOf(claims, InCluster(k))
      ensures Get(e.strategyHeat, k) == StrategyTotal(held, book, k) + SumOf(claims, HeatInStrategy(k))
    {
      assert Get(reserved.symbols, k) == Get(map[], k) + SumOf(claims, InSymbol(k));
      assert Get(reserved.clusters, k) == Get(map[], k) + SumOf(claims, InCluster(k));
      assert Get(reserved.strategyHeat, k) == Get(map[], k) + SumOf(claims, HeatInStrategy(k));
    }
    forall b
      ensures e.sleeves.At(b) == SumOf(held, HeldInSleeve(b)) + SumOf(claims, InSleeve(b))
      ensures e.sleeveHeat.At(b) == AssetRisk(held, book, b) + SumOf(claims, HeatInSleeve(b))
    {
      assert reserved.sleeves.At(b) == SumOf(claims, InSleeve(b));
      assert reserved.sleeveHeat.At(b) == SumOf(claims, HeatInSleeve(b));
    }
  }

  method PortfolioSnapshot(held: seq<Held>, book: Book, general: seq<Claim>, crypto: seq<Claim>) returns (r: Result<Portfolio, Fault>)
    requires HeldAccepted(held)
    ensures r.Ok? <==> (forall h <- held :: Reconciled(LotsOf(book, h), h)) && ClaimsAccepted(general + crypto)
    ensures r.Ok? ==> Reports(held, book, general + crypto, r.value) && Balanced(r.value.exposures)
  {
    var position := PositionStopHeat(held, book);
    if position.Err? {
      return Err(position.error);
    }
    var claimed := ActiveReservations(general, crypto);
    if claimed.Err? {
      return Err(claimed.error);
    }
    var holding := HeldExposures(held);
    var exposures := MergeExposures(holding, position.value, claimed.value);
    var portfolio := Portfolio(exposures, |held|, holding.counts);
    MergedIsBalanced(held, holding, position.value, claimed.value, exposures);
    MergedIsReported(held, book, general + crypto, holding, position.value, claimed.value, portfolio);
    return Ok(portfolio);
  }

  // ----- the count that can fail -----

  ghost predicate ReservedSymbolsAreHeld(held: seq<Held>, claims: seq<Claim>) {
    forall k :: SumOf(claims, InSymbol(k)) > 0.0 ==> exists h <- held :: h.symbol == k
  }

  lemma {:induction false} SumIsNonnegative(claims: seq<Claim>, k: Symbol)
    requires ClaimsAccepted(claims)
    ensures SumOf(claims, InSymbol(k)) >= 0.0
  {
    if claims != [] {
      SumIsNonnegative(claims[..|claims| - 1], k);
      assert ClaimAccepted(claims[|claims| - 1]);
    }
  }

  lemma {:induction false} HeldIsPositive(held: seq<Held>, k: Symbol)
    requires HeldAccepted(held)
    ensures SumOf(held, HeldInSymbol(k)) >= 0.0
    ensures SumOf(held, HeldInSymbol(k)) > 0.0 <==> exists h <- held :: h.symbol == k
  {
    if held != [] {
      HeldIsPositive(held[..|held| - 1], k);
      PrefixStep(held, |held| - 1);
      WholePrefix(held);
      assert held[|held| - 1].value > 0.0;
    }
  }

  function HeldSymbols(held: seq<Held>): set<Symbol> {
    set h <- held :: h.symbol
  }

  lemma {:induction false} HeldSymbolsAreCounted(held: seq<Held>)
    requires HeldAccepted(held)
    ensures |HeldSymbols(held)| == |held|
  {
    if held != [] {
      var front, last := held[..|held| - 1], held[|held| - 1];
      HeldSymbolsAreCounted(front);
      PrefixStep(held, |held| - 1);
      WholePrefix(held);
      assert HeldSymbols(held) == HeldSymbols(front) + {last.symbol};
      assert last.symbol !in HeldSymbols(front);
    }
  }

  lemma NonzeroSymbols(held: seq<Held>, book: Book, claims: seq<Claim>, p: Portfolio, k: Symbol)
    requires HeldAccepted(held) && ClaimsAccepted(claims) && Reports(held, book, claims, p)
    ensures k in NonzeroKeys(p.exposures.symbols) <==> k in HeldSymbols(held) || SumOf(claims, InSymbol(k)) > 0.0
  {
    assert Get(p.exposures.symbols, k) == SumOf(held, HeldInSymbol(k)) + SumOf(claims, InSymbol(k));
    HeldIsPositive(held, k);
    SumIsNonnegative(claims, k);
  }

  lemma LargerSet(small: set<Symbol>, large: set<Symbol>)
    requires small <= large
    ensures |small| <= |large| && (|small| == |large| <==> small == large)
  {
    assert large == small + (large - small);
  }

  /**
  Every equation of the snapshot check holds by construction, except that the number of exposed
  symbols is the number of positions: that holds exactly when each reserved symbol is held.
  */
  lemma SnapshotReconcilesIffReservedIsHeld(held: seq<Held>, book: Book, claims: seq<Claim>, p: Portfolio)
    requires HeldAccepted(held) && ClaimsAccepted(claims) && Reports(held, book, claims, p) && Balanced(p.exposures)
    ensures var e := p.exposures;
      Reconciles(p.positions, p.counts, e.gross, e.heat, e.symbols, e.clusters, e.sleeves, e.sleeveHeat, e.strategyHeat)
      <==> ReservedSymbolsAreHeld(held, claims)
  {
    var exposed := NonzeroKeys(p.exposures.symbols);
    forall k
      ensures k in exposed <==> k in HeldSymbols(held) || SumOf(claims, InSymbol(k)) > 0.0
    {
      NonzeroSymbols(held, book, claims, p, k);
    }
    HeldSymbolsAreCounted(held);
    LargerSet(HeldSymbols(held), exposed);
  }

  /** One reservation of 100 in a symbol that is not held, with a stop risk of 5. */
  function LoneClaim(): Claim {
    Claim(Number(100.0), Number(5.0), Some(1), true, 1, 1, true)
  }

  function LonePortfolio(): Portfolio {
    Portfolio(Exposures(100.0, 5.0, map[1 := 100.0], map[1 := 100.0], BySleeve(0.0, 100.0), BySleeve(0.0, 5.0), map[1 := 5.0]), 0, BySleeve(0, 0))
  }

  lemma LoneClaimIsReported(book: Book)
    ensures Reports([], book, [LoneClaim()], LonePortfolio())
  {
    assert [LoneClaim()][..0] == [];
  }

  lemma TotalOfOne(k: nat, v: real)
    ensures Total(map[k := v]) == v
  {
    TotalSplit(map[k := v], k);
    assert map[k := v] - {k} == map[];
  }

  /** Its snapshot is built, balances and is refused by the allocator: one exposed symbol, no position. */
  lemma LoneClaimDoesNotReconcile(book: Book, p: Portfolio)
    requires p == LonePortfolio()
    ensures Reports([], book, [LoneClaim()], p) && Balanced(p.exposures)
    ensures var e := p.exposures;
      !Reconciles(p.positions, p.counts, e.gross, e.heat, e.symbols, e.clusters, e.sleeves, e.sleeveHeat, e.strategyHeat)
  {
    LoneClaimIsReported(book);
    TotalOfOne(1, 100.0);
    TotalOfOne(1, 5.0);
    SnapshotReconcilesIffReservedIsHeld([], book, [LoneClaim()], p);
    assert [LoneClaim()][..0] == [];
    assert SumOf([LoneClaim()], InSymbol(1)) == 100.0;
  }
}
