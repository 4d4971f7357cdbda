/**
The run model and the evidence agree: however broker orders and durable intents are listed, as long
as identities are distinct within each list, the aggregate computed from the lists is the one that
the run model reserves against.
*/
module CryptoSeen {
  import opened Sums
  import opened CryptoEvidence
  import opened CryptoRun

  ghost predicate ListsOrders(orders: seq<Order>, table: map<string, Order>) {
    && (forall i :: 0 <= i < |orders| ==> OrderKey(orders[i], i) in table && table[OrderKey(orders[i], i)] == orders[i])
    && (forall i, j :: 0 <= i < j < |orders| ==> OrderKey(orders[i], i) != OrderKey(orders[j], j))
    && (forall k <- table :: exists i :: 0 <= i < |orders| && OrderKey(orders[i], i) == k)
  }

  ghost predicate ListsIntents(intents: seq<Intent>, table: map<string, Intent>) {
    && (forall i :: 0 <= i < |intents| ==> IntentKey(intents[i], i) in table && table[IntentKey(intents[i], i)] == intents[i])
    && (forall i, j :: 0 <= i < j < |intents| ==> IntentKey(intents[i], i) != IntentKey(intents[j], j))
    && (forall k <- table :: exists i :: 0 <= i < |intents| && IntentKey(intents[i], i) == k)
  }

  /** A list of distinct entries files exactly the table that it lists. */
  lemma LargestIsTable(entries: seq<Entry>, table: map<string, real>)
    requires AllNonnegative(entries) && DistinctKeys(entries)
    requires forall i :: 0 <= i < |entries| ==> entries[i].key in table && table[entries[i].key] == entries[i].amount
    requires forall k <- table :: exists i :: 0 <= i < |entries| && entries[i].key == k
    ensures Largest(entries) == table
  {
    LargestOfDistinct(entries);
    forall k: string
      ensures k in Largest(entries) <==> k in table
      ensures k in table ==> Get(Largest(entries), k) == table[k]
    {
      LargestIsMaximum(entries, k);
      if k in table {
        var i :| 0 <= i < |entries| && entries[i].key == k;
        assert Get(Largest(entries), entries[i].key) == entries[i].amount;
      }
    }
  }

  lemma OrderEntriesAreTable(orders: seq<Order>, table: map<string, Order>, m: Measure)
    requires ListsOrders(orders, table) && forall k <- table :: OrderAccepted(table[k])
    ensures AllNonnegative(OrderEntries(orders, m)) && Largest(OrderEntries(orders, m)) == OrderAmounts(table, m)
  {
    var entries, amounts := OrderEntries(orders, m), OrderAmounts(table, m);
    forall i | 0 <= i < |entries|
      ensures entries[i].key in amounts && amounts[entries[i].key] == entries[i].amount && entries[i].amount >= 0.0
    {
      assert OrderAccepted(table[OrderKey(orders[i], i)]);
    }
    forall k | k in amounts
      ensures exists i :: 0 <= i < |entries| && entries[i].key == k
    {
      var i :| 0 <= i < |orders| && OrderKey(orders[i], i) == k;
      assert entries[i].key == k;
    }
    LargestIsTable(entries, amounts);
  }

  lemma IntentEntriesAreTable(intents: seq<Intent>, table: map<string, Intent>, m: Measure)
    requires ListsIntents(intents, table) && forall k <- table :: IntentAccepted(table[k])
    ensures AllNonnegative(IntentEntries(intents, m)) && Largest(IntentEntries(intents, m)) == IntentAmounts(table, m)
  {
    var entries, amounts := IntentEntries(intents, m), IntentAmounts(table, m);
    forall i | 0 <= i < |entries|
      ensures entries[i].key in amounts && amounts[entries[i].key] == entries[i].amount && entries[i].amount >= 0.0
    {
      assert IntentAccepted(table[IntentKey(intents[i], i)]);
    }
    forall k | k in amounts
      ensures exists i :: 0 <= i < |entries| && entries[i].key == k
    {
      var i :| 0 <= i < |intents| && IntentKey(intents[i], i) == k;
      assert entries[i].key == k;
    }
    LargestIsTable(entries, amounts);
  }

  lemma PendingIsOutstanding(w: World, orders: seq<Order>, intents: seq<Intent>, m: Measure)
    requires WellFormed(w) && ListsOrders(orders, w.orders) && ListsIntents(intents, w.intents)
    ensures Pending(orders, intents, m) == Outstanding(w, m)
  {
    OrderEntriesAreTable(orders, w.orders, m);
    IntentEntriesAreTable(intents, w.intents, m);
    LargestOfTwoSources(OrderEntries(orders, m), IntentEntries(intents, m));
  }

  // ----- unresolved orders -----

  lemma {:induction false} OrderSymbolsAre(orders: seq<Order>, table: map<string, Order>, k: string)
    requires forall i :: 0 <= i < |orders| ==> OrderKey(orders[i], i) in table && table[OrderKey(orders[i], i)] == orders[i]
    ensures k in OrderSymbols(orders) <==> exists i :: 0 <= i < |orders| && orders[i].crypto && OrderKey(orders[i], i) == k
    ensures k in OrderSymbols(orders) ==> k in table && OrderSymbols(orders)[k] == table[k].symbol
  {
    if orders != [] {
      var front, last := orders[..|orders| - 1], |orders| - 1;
      forall i | 0 <= i < |front|
        ensures OrderKey(front[i], i) == OrderKey(orders[i], i)
      {
      }
      OrderSymbolsAre(front, table, k);
      if k in OrderSymbols(front) {
        var i :| 0 <= i < |front| && front[i].crypto && OrderKey(front[i], i) == k;
        assert orders[i].crypto && OrderKey(orders[i], i) == k;
      }
      if orders[last].crypto && OrderKey(orders[last], last) == k {
        assert k in OrderSymbols(orders);
      }
    }
  }

  lemma {:induction false} ActiveSymbolsAre(orders: seq<Order>, intents: seq<Intent>, table: map<string, Intent>, k: string)
    requires forall i :: 0 <= i < |intents| ==> IntentKey(intents[i], i) in table && table[IntentKey(intents[i], i)] == intents[i]
    ensures k in ActiveSymbols(orders, intents)
       <==> k in OrderSymbols(orders) || exists i :: 0 <= i < |intents| && intents[i].cryptoClass && IntentKey(intents[i], i) == k
    ensures k in ActiveSymbols(orders, intents) ==>
      if k in OrderSymbols(orders) then ActiveSymbols(orders, intents)[k] == OrderSymbols(orders)[k]
      else k in table && ActiveSymbols(orders, intents)[k] == table[k].symbol
  {
    if intents != [] {
      var front, last := intents[..|intents| - 1], |intents| - 1;
      forall i | 0 <= i < |front|
        ensures IntentKey(front[i], i) == IntentKey(intents[i], i)
      {
      }
      ActiveSymbolsAre(orders, front, table, k);
      if k in ActiveSymbols(orders, front) && k !in OrderSymbols(orders) {
        var i :| 0 <= i < |front| && front[i].cryptoClass && IntentKey(front[i], i) == k;
        assert intents[i].cryptoClass && IntentKey(intents[i], i) == k;
      }
      if intents[last].cryptoClass && IntentKey(intents[last], last) == k {
        assert k in ActiveSymbols(orders, intents);
      }
    }
  }

  lemma ActiveIsSeen(w: World, orders: seq<Order>, intents: seq<Intent>)
    requires ListsOrders(orders, w.orders) && ListsIntents(intents, w.intents)
    ensures ActiveSymbols(orders, intents) == Active(w)
  {
    forall k: string
      ensures k in ActiveSymbols(orders, intents) <==> k in Active(w)
      ensures k in Active(w) ==> ActiveSymbols(orders, intents)[k] == Active(w)[k]
    {
      OrderSymbolsAre(orders, w.orders, k);
      ActiveSymbolsAre(orders, intents, w.intents, k);
      if ActiveOrder(w, k) {
        var i :| 0 <= i < |orders| && OrderKey(orders[i], i) == k;
        assert orders[i].crypto;
      }
      if ActiveIntent(w, k) {
        var i :| 0 <= i < |intents| && IntentKey(intents[i], i) == k;
        assert intents[i].cryptoClass;
      }
    }
  }

  lemma {:induction false} CountIntents(intents: seq<Intent>, table: map<string, Intent>)
    requires ListsIntents(intents, table)
    ensures |table| == |intents|
  {
    if intents == [] {
      assert table == map[];
    } else {
      var last := |intents| - 1;
      var key := IntentKey(intents[last], last);
      ListsFront(intents, table, key);
      CountIntents(intents[..last], table - {key});
      WithoutOne(table, key);
    }
  }

  lemma WithoutOne(table: map<string, Intent>, key: string)
    requires key in table
    ensures |table| == |table - {key}| + 1
  {
    assert table.Keys == (table - {key}).Keys + {key};
    assert |table.Keys| == |table| && |(table - {key}).Keys| == |table - {key}|;
  }

  lemma ListsFront(intents: seq<Intent>, table: map<string, Intent>, key: string)
    requires ListsIntents(intents, table) && intents != [] && key == IntentKey(intents[|intents| - 1], |intents| - 1)
    ensures ListsIntents(intents[..|intents| - 1], table - {key})
  {
    var front := intents[..|intents| - 1];
    forall i | 0 <= i < |front|
      ensures IntentKey(front[i], i) in table - {key} && (table - {key})[IntentKey(front[i], i)] == front[i]
    {
      assert IntentKey(front[i], i) == IntentKey(intents[i], i);
    }
    forall i, j | 0 <= i < j < |front|
      ensures IntentKey(front[i], i) != IntentKey(front[j], j)
    {
      assert IntentKey(intents[i], i) != IntentKey(intents[j], j);
    }
    forall k | k in table - {key}
      ensures exists i :: 0 <= i < |front| && IntentKey(front[i], i) == k
    {
      var i :| 0 <= i < |intents| && IntentKey(intents[i], i) == k;
      assert IntentKey(front[i], i) == k;
    }
  }

  /** The aggregate of any listing of the records is the one that reservations are checked against. */
  lemma EvidenceIsSeen(w: World, orders: seq<Order>, intents: seq<Intent>, symbol: string)
    requires WellFormed(w) && ListsOrders(orders, w.orders) && ListsIntents(intents, w.intents)
    ensures AggregateOf(w.positions, orders, intents, symbol) == Seen(w, symbol)
  {
    PendingIsOutstanding(w, orders, intents, CryptoBuys);
    PendingIsOutstanding(w, orders, intents, AllBuys);
    PendingIsOutstanding(w, orders, intents, Sells(symbol));
    PendingIsOutstanding(w, orders, intents, StopRisk);
    ActiveIsSeen(w, orders, intents);
    CountIntents(intents, w.intents);
  }
}
