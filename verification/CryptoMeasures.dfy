/**
What the records of the crypto aggregate count for (app/crypto_risk.py, lines 320-585), said record by record, and what follows for
the aggregate: the measures nest, orders without an identity stay apart, and the average entry lies between the entries.
*/
module CryptoMeasures {
  import opened Wrappers
  import opened Sums
  import opened Quotients
  import opened CryptoEvidence
  import DecimalText

  // ----- one record -----

  /** A position counts with its market value: for everything, and if it is crypto also for crypto, its symbol and the open heat. */
  lemma PositionCounts(p: Position, symbol: string)
    ensures PositionAmount(p, AllBuys) == p.value && PositionAmount(p, Sells(symbol)) == 0.0
    ensures p.crypto ==> PositionAmount(p, CryptoBuys) == p.value && PositionAmount(p, StopRisk) == p.value
    ensures p.crypto ==> PositionAmount(p, SymbolBuys(symbol)) == if p.symbol == symbol then p.value else 0.0
    ensures !p.crypto ==> forall m: Measure :: m != AllBuys ==> PositionAmount(p, m) == 0.0
  {
  }

  /** An open order counts with its pending amount for everything; a crypto buy also for crypto and its symbol, and a crypto sell with
      its remaining quantity; none has a stop risk. */
  lemma OrderCounts(o: Order, symbol: string)
    ensures OrderAmount(o, AllBuys) == o.pending && OrderAmount(o, StopRisk) == 0.0
    ensures o.crypto && o.side == Buy ==>
      OrderAmount(o, CryptoBuys) == o.pending && OrderAmount(o, SymbolBuys(symbol)) == (if o.symbol == symbol then o.pending else 0.0) && OrderAmount(o, Sells(symbol)) == 0.0
    ensures o.crypto && o.side == Sell ==>
      OrderAmount(o, CryptoBuys) == 0.0 && OrderAmount(o, SymbolBuys(symbol)) == 0.0 && OrderAmount(o, Sells(symbol)) == if o.symbol == symbol then o.remaining else 0.0
    ensures !o.crypto || o.side == OtherSide ==> forall m: Measure :: m != AllBuys ==> OrderAmount(o, m) == 0.0
  {
  }

  /** A durable intent to buy counts with its notional and its stop risk, one to sell with its remaining quantity. */
  lemma IntentCounts(i: Intent, symbol: string)
    ensures i.side == Buy ==>
      && IntentAmount(i, AllBuys) == i.notional && IntentAmount(i, CryptoBuys) == i.notional && IntentAmount(i, StopRisk) == i.stopRisk
      && IntentAmount(i, SymbolBuys(symbol)) == (if i.symbol == symbol then i.notional else 0.0) && IntentAmount(i, Sells(symbol)) == 0.0
    ensures i.side == Sell ==>
      IntentAmount(i, Sells(symbol)) == (if i.symbol == symbol then i.remaining else 0.0) && forall m: Measure :: !m.Sells? ==> IntentAmount(i, m) == 0.0
    ensures i.side == OtherSide ==> forall m: Measure :: IntentAmount(i, m) == 0.0
  {
  }

  // ----- identities -----

  /** A client id identifies a record, in the orders and in the intents alike; else its own id does. */
  lemma IdentitiesInWords(o: Order, i: Intent, index: nat)
    ensures o.clientId != "" ==> OrderKey(o, index) == o.clientId
    ensures o.clientId == "" && o.brokerId != "" ==> OrderKey(o, index) == o.brokerId
    ensures i.clientId != "" ==> IntentKey(i, index) == i.clientId
    ensures i.clientId == "" && i.id != "" ==> IntentKey(i, index) == "intent:" + i.id
  {
  }

  /** Orders without any id are never merged with each other, nor are such intents. */
  lemma NamelessRecordsStayApart(a: Order, b: Order, i: Intent, j: Intent, m: nat, n: nat)
    requires a.clientId == a.brokerId == b.clientId == b.brokerId == i.clientId == i.id == j.clientId == j.id == "" && m != n
    ensures OrderKey(a, m) != OrderKey(b, n) && IntentKey(i, m) != IntentKey(j, n)
  {
    DecimalText.DigitsAreDigits(m);
    DecimalText.DigitsAreDigits(n);
    assert ("broker:" + DecimalText.Digits(m))[7..] == DecimalText.Digits(m) && ("broker:" + DecimalText.Digits(n))[7..] == DecimalText.Digits(n);
    assert ("intent:" + DecimalText.Digits(m))[7..] == DecimalText.Digits(m) && ("intent:" + DecimalText.Digits(n))[7..] == DecimalText.Digits(n);
  }

  // ----- the aggregate -----

  /** Entries under the same identities, each at most as large. */
  ghost predicate Below(a: seq<Entry>, b: seq<Entry>) {
    |a| == |b| && forall k :: 0 <= k < |a| ==> a[k].key == b[k].key && 0.0 <= a[k].amount <= b[k].amount
  }

  lemma {:induction false} LargestIsMonotone(a: seq<Entry>, b: seq<Entry>)
    requires Below(a, b)
    ensures Largest(a).Keys == Largest(b).Keys && forall k <- Largest(a) :: 0.0 <= Largest(a)[k] <= Largest(b)[k]
  {
    if a != [] {
      var last := |a| - 1;
      LargestIsMonotone(a[..last], b[..last]);
    }
  }

  lemma PendingNests(orders: seq<Order>, intents: seq<Intent>, part: Measure, whole: Measure)
    requires forall o <- orders :: 0.0 <= OrderAmount(o, part) <= OrderAmount(o, whole)
    requires forall i <- intents :: 0.0 <= IntentAmount(i, part) <= IntentAmount(i, whole)
    ensures 0.0 <= Pending(orders, intents, part) <= Pending(orders, intents, whole)
  {
    var a := OrderEntries(orders, part) + IntentEntries(intents, part);
    var b := OrderEntries(orders, whole) + IntentEntries(intents, whole);
    assert Below(a, b);
    LargestIsMonotone(a, b);
    TotalIsMonotone(Largest(a), Largest(b));
    TotalIsMonotone(map[], Largest(a));
  }

  lemma {:induction false} PositionsNest(positions: seq<Position>, symbol: string)
    requires forall p <- positions :: PositionAccepted(p)
    ensures 0.0 <= PositionTotal(positions, SymbolBuys(symbol)) <= PositionTotal(positions, CryptoBuys) <= PositionTotal(positions, AllBuys)
    ensures PositionTotal(positions, StopRisk) == PositionTotal(positions, CryptoBuys)
    ensures CryptoHoldings(positions) <= |positions|
  {
    if positions != [] {
      PositionsNest(positions[..|positions| - 1], symbol);
      assert PositionAccepted(positions[|positions| - 1]);
    }
  }

  /** What is held and pending in one symbol is part of crypto, and crypto part of everything; the open heat of held crypto is its whole
      market value. */
  lemma AggregateNests(positions: seq<Position>, orders: seq<Order>, intents: seq<Intent>, symbol: string)
    requires EvidenceAccepted(positions, orders, intents)
    ensures var a := AggregateOf(positions, orders, intents, symbol);
      && 0.0 <= a.symbolGross <= a.cryptoGross <= a.allGross && a.openHeat == a.cryptoGross
      && 0.0 <= Pending(orders, intents, SymbolBuys(symbol)) <= a.pendingCrypto <= a.pendingAll
      && a.symbolActiveOrders <= a.activeOrders && a.intents == |intents| && a.cryptoHoldings <= |positions|
  {
    PositionsNest(positions, symbol);
    forall o <- orders
      ensures 0.0 <= OrderAmount(o, SymbolBuys(symbol)) <= OrderAmount(o, CryptoBuys) <= OrderAmount(o, AllBuys)
    {
      assert OrderAccepted(o);
    }
    forall i <- intents
      ensures 0.0 <= IntentAmount(i, SymbolBuys(symbol)) <= IntentAmount(i, CryptoBuys) <= IntentAmount(i, AllBuys)
    {
      assert IntentAccepted(i);
    }
    PendingNests(orders, intents, SymbolBuys(symbol), CryptoBuys);
    PendingNests(orders, intents, CryptoBuys, AllBuys);
    var active := ActiveSymbols(orders, intents);
    PartOfKeys(KeysOf(active, symbol), active.Keys);
    assert |active.Keys| == |active|;
  }

  lemma PartOfKeys(part: set<string>, whole: set<string>)
    requires part <= whole
    ensures |part| <= |whole|
  {
    assert whole == part + (whole - part);
  }

  /** The entry price of every lot that enters the average. */
  predicate EntriesWithin(positions: seq<Position>, symbol: string, low: real, high: real) {
    forall p <- positions :: p.crypto && p.symbol == symbol && p.quantity > 0.0 && p.averageEntry.Some? ==> low <= p.averageEntry.value <= high
  }

  lemma LotWithin(quantity: real, entry: real, low: real, high: real)
    requires quantity > 0.0 && low <= entry <= high
    ensures Times(low, quantity) <= quantity * entry <= Times(high, quantity)
  {
    assert (entry - low) * quantity >= 0.0 && (high - entry) * quantity >= 0.0;
  }

  lemma {:induction false} EnteredWithin(positions: seq<Position>, symbol: string, low: real, high: real)
    requires EntriesWithin(positions, symbol, low, high)
    ensures var (quantity, cost) := Entered(positions, symbol);
      quantity >= 0.0 && Times(low, quantity) <= cost <= Times(high, quantity)
  {
    if positions == [] {
      assert Times(low, 0.0) == 0.0 && Times(high, 0.0) == 0.0;
    } else {
      var front, last := positions[..|positions| - 1], positions[|positions| - 1];
      EnteredWithin(front, symbol, low, high);
      if EntersAverage(last, symbol) {
        LotWithin(last.quantity, last.averageEntry.value, low, high);
        var before := Entered(front, symbol).0;
        assert Times(low, before + last.quantity) == Times(low, before) + Times(low, last.quantity);
        assert Times(high, before + last.quantity) == Times(high, before) + Times(high, last.quantity);
      }
    }
  }

  /** The average entry lies between the lowest and the highest entry price. */
  lemma AverageIsBetween(positions: seq<Position>, symbol: string, low: real, high: real)
    requires EntriesWithin(positions, symbol, low, high) && AverageEntry(positions, symbol).Some?
    ensures low <= AverageEntry(positions, symbol).value <= high
  {
    EnteredWithin(positions, symbol, low, high);
    var (quantity, cost) := Entered(positions, symbol);
    QuotientTimes(cost, quantity);
    TimesOrder(Quotient(cost, quantity), low, quantity);
    TimesOrder(high, Quotient(cost, quantity), quantity);
  }

  /** The positions that count as crypto holdings. */
  function Holdings(positions: seq<Position>): set<nat> {
    set i: nat | i < |positions| && positions[i].crypto && positions[i].quantity > 0.0
  }

  /** Crypto positions with a quantity are holdings, and no others. */
  lemma {:induction false} HoldingsAreCounted(positions: seq<Position>)
    ensures CryptoHoldings(positions) == |Holdings(positions)|
  {
    if positions == [] {
      assert Holdings(positions) == {};
    } else {
      var last, front := |positions| - 1, positions[..|positions| - 1];
      HoldingsAreCounted(front);
      if positions[last].crypto && positions[last].quantity > 0.0 {
        assert Holdings(positions) == Holdings(front) + {last};
      } else {
        assert Holdings(positions) == Holdings(front);
      }
    }
  }

  predicate IsHeld(p: Position, symbol: string) {
    p.crypto && p.symbol == symbol && p.quantity > 0.0
  }

  lemma LastOrFront(positions: seq<Position>, p: Position)
    requires positions != []
    ensures p in positions <==> p in positions[..|positions| - 1] || p == positions[|positions| - 1]
  {
    assert positions == positions[..|positions| - 1] + [positions[|positions| - 1]];
  }

  /** A symbol is held exactly if one of its crypto positions has a quantity. */
  lemma {:induction false} HeldInWords(positions: seq<Position>, symbol: string)
    requires forall p <- positions :: PositionAccepted(p)
    ensures QuantityOf(positions, symbol) >= 0.0
    ensures QuantityOf(positions, symbol) > 0.0 <==> exists p <- positions :: IsHeld(p, symbol)
  {
    if positions != [] {
      HeldInWords(positions[..|positions| - 1], symbol);
      assert positions[|positions| - 1] in positions;
      forall p: Position {
        LastOrFront(positions, p);
      }
    }
  }

  /** The average entry is known exactly if one of those positions has an entry price. */
  lemma {:induction false} AverageIsKnown(positions: seq<Position>, symbol: string)
    ensures Entered(positions, symbol).0 >= 0.0
    ensures AverageEntry(positions, symbol).Some? <==> exists p <- positions :: IsHeld(p, symbol) && p.averageEntry.Some?
  {
    if positions != [] {
      AverageIsKnown(positions[..|positions| - 1], symbol);
      forall p: Position {
        LastOrFront(positions, p);
      }
    }
  }
}
