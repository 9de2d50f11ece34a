/** Quantity is conserved over whole runs, for every order and for any group of orders. */
module Conservation {
  import opened Protocol
  import opened FlatBook
  import opened PriceTime

  /** An order is known by its sender and the sender's serial number. */
  type Key = (int, int)

  function KeyOf(e: Entry): Key { (e.clientId, e.seqNo) }

  function Held(entries: seq<Entry>, keys: iset<Key>): int {
    if entries == [] then 0
    else (if KeyOf(entries[0]) in keys then entries[0].qty else 0) + Held(entries[1..], keys)
  }

  /** What the orders of `keys` have resting in the book. */
  function InBook(b: Book, keys: iset<Key>): int {
    Held(b.bids, keys) + Held(b.asks, keys)
  }

  /** What executions the reports announce to the orders of `keys`, as taker or as maker. */
  function Filled(results: seq<OrderResult>, keys: iset<Key>): int {
    if results == [] then 0
    else
      (if results[0].kind == Success && (results[0].clientId, results[0].seqNo) in keys
       then results[0].qty else 0)
      + Filled(results[1..], keys)
  }

  /** The quantity one input brings in for the orders of `keys`. */
  function Brought(clientId: int, o: OrderPacket, keys: iset<Key>): int {
    if Tradable(o) && (clientId, o.seqNo) in keys then o.qty else 0
  }

  /** The residual a cancel takes out of the book. */
  function Dropped(b: Book, clientId: int, o: OrderPacket, keys: iset<Key>): int {
    if o.qty == 0 then
      Held(b.On(o.side), keys) - Held(Remove(b.On(o.side), o.price, clientId), keys)
    else 0
  }

  /** ...which is all that the cancelled entry still had. */
  lemma DroppedResidual(b: Book, clientId: int, o: OrderPacket, keys: iset<Key>) returns (i: nat)
    requires o.qty == 0 && Has(b.On(o.side), o.price, clientId)
    ensures RemovedAt(b.On(o.side), Remove(b.On(o.side), o.price, clientId), o.price, clientId, i)
    ensures var e := b.On(o.side)[i];
            Dropped(b, clientId, o, keys) == if KeyOf(e) in keys then e.qty else 0
  {
    i := RemovePosition(b.On(o.side), o.price, clientId);
    HeldWithout(b.On(o.side), i, keys);
  }

  lemma {:induction false} HeldWithout(entries: seq<Entry>, i: nat, keys: iset<Key>)
    requires i < |entries|
    ensures Held(entries, keys) - Held(entries[..i] + entries[i + 1..], keys)
         == if KeyOf(entries[i]) in keys then entries[i].qty else 0
  {
    var shorter := entries[..i] + entries[i + 1..];
    if i == 0 {
      assert shorter == entries[1..];
    } else {
      assert shorter[0] == entries[0];
      assert shorter[1..] == entries[1..][..i - 1] + entries[1..][i..];
      HeldWithout(entries[1..], i - 1, keys);
    }
  }

  function FillsHeld(fills: seq<Fill>, keys: iset<Key>): int {
    if fills == [] then 0
    else (if KeyOf(fills[0].maker) in keys then fills[0].qty else 0) + FillsHeld(fills[1..], keys)
  }

  /** What leaves the makers is what the fills say, order by order. */
  lemma {:induction false} MatchConserves(entries: seq<Entry>, side: Side, limit: int, qty: int, keys: iset<Key>)
    ensures var r := Match(entries, side, limit, qty);
            && Held(entries, keys) == Held(r.rest, keys) + FillsHeld(r.fills, keys)
            && qty == r.left + Executed(r.fills)
  {
    if qty > 0 && entries != [] && Crosses(side, limit, entries[0].price) {
      var r := Match(entries, side, limit, qty);
      if qty < entries[0].qty {
        assert r.rest[1..] == entries[1..] && r.fills[1..] == [];
      } else {
        MatchConserves(entries[1..], side, limit, qty - entries[0].qty, keys);
        assert r.fills[1..] == Match(entries[1..], side, limit, qty - entries[0].qty).fills;
      }
    }
  }

  lemma {:induction false} FilledAppend(a: seq<OrderResult>, b: seq<OrderResult>, keys: iset<Key>)
    ensures Filled(a + b, keys) == Filled(a, keys) + Filled(b, keys)
  {
    if a == [] {
      assert a + b == b;
    } else {
      AppendTail(a, b);
      FilledAppend(a[1..], b, keys);
    }
  }

  /** Each execution is announced once to its taker and once to its maker. */
  lemma {:induction false} FilledOfFills(clientId: int, seqNo: int, side: Side, fills: seq<Fill>, keys: iset<Key>)
    ensures Filled(FillResults(clientId, seqNo, side, fills), keys)
         == (if (clientId, seqNo) in keys then Executed(fills) else 0) + FillsHeld(fills, keys)
  {
    if fills != [] {
      var all := FillResults(clientId, seqNo, side, fills);
      assert all[1..][1..] == FillResults(clientId, seqNo, side, fills[1..]);
      assert Filled(all, keys) ==
             (if (clientId, seqNo) in keys then fills[0].qty else 0) + Filled(all[1..], keys);
      assert Filled(all[1..], keys) ==
             (if KeyOf(fills[0].maker) in keys then fills[0].qty else 0) + Filled(all[1..][1..], keys);
      FilledOfFills(clientId, seqNo, side, fills[1..], keys);
    }
  }

  lemma {:induction false} InsertConserves(entries: seq<Entry>, side: Side, e: Entry, keys: iset<Key>)
    ensures Held(Insert(entries, side, e), keys)
         == Held(entries, keys) + (if KeyOf(e) in keys then e.qty else 0)
  {
    var after := Insert(entries, side, e);
    if entries == [] || Better(side, e.price, entries[0].price) {
      assert after[1..] == entries;
    } else {
      assert after[1..] == Insert(entries[1..], side, e);
      InsertConserves(entries[1..], side, e, keys);
    }
  }

  lemma OneReport(r: OrderResult, keys: iset<Key>)
    requires r.kind != Success
    ensures Filled([r], keys) == 0
  {
    assert [r][1..] == [];
  }

  lemma TradeConserves(b: Book, clientId: int, o: OrderPacket, keys: iset<Key>)
    requires Tradable(o)
    ensures var out := Push(b, clientId, o);
            InBook(b, keys) + Brought(clientId, o, keys) == InBook(out.book, keys) + Filled(out.results, keys)
  {
    var m := MatchFor(b, o);
    MatchConserves(b.On(Opposite(o.side)), o.side, o.price, o.qty, keys);
    FilledOfFills(clientId, o.seqNo, o.side, m.fills, keys);
    if m.left > 0 {
      var accepted := OrderResult(clientId, Accepted, o.side, o.price, m.left, o.seqNo);
      InsertConserves(b.On(o.side), o.side, Entry(o.price, clientId, m.left, o.seqNo), keys);
      FilledAppend(FillResults(clientId, o.seqNo, o.side, m.fills), [accepted], keys);
      OneReport(accepted, keys);
    } else {
      MatchLeftNonNegative(b.On(Opposite(o.side)), o.side, o.price, o.qty);
    }
  }

  /** One input: what was resting plus what came in is what rests, what filled and what was cancelled. */
  lemma PushConserves(b: Book, clientId: int, o: OrderPacket, keys: iset<Key>)
    ensures InBook(b, keys) + Brought(clientId, o, keys)
         == InBook(Push(b, clientId, o).book, keys) + Filled(Push(b, clientId, o).results, keys)
          + Dropped(b, clientId, o, keys)
  {
    var out := Push(b, clientId, o);
    if Tradable(o) {
      TradeConserves(b, clientId, o, keys);
    } else {
      OneReport(out.results[0], keys);
      if o.qty == 0 && !Has(b.On(o.side), o.price, clientId) {
        RemoveNothing(b.On(o.side), o.price, clientId);
      }
    }
  }

  function TotalBrought(ins: seq<Input>, keys: iset<Key>): int {
    if ins == [] then 0
    else
      var last := ins[|ins| - 1];
      TotalBrought(ins[..|ins| - 1], keys) + Brought(last.clientId, last.order, keys)
  }

  function TotalDropped(b: Book, ins: seq<Input>, keys: iset<Key>): int {
    if ins == [] then 0
    else
      var last := ins[|ins| - 1];
      TotalDropped(b, ins[..|ins| - 1], keys)
      + Dropped(Replay(b, ins[..|ins| - 1]), last.clientId, last.order, keys)
  }

  /** Over any run, for any group of orders, nothing is created and nothing is lost. */
  lemma {:induction false} RunConserves(b: Book, ins: seq<Input>, keys: iset<Key>)
    ensures InBook(b, keys) + TotalBrought(ins, keys)
         == InBook(Replay(b, ins), keys) + Filled(ReplayResults(b, ins), keys) + TotalDropped(b, ins, keys)
  {
    if ins != [] {
      var n := |ins| - 1;
      RunConserves(b, ins[..n], keys);
      PushConserves(Replay(b, ins[..n]), ins[n].clientId, ins[n].order, keys);
      FilledAppend(ReplayResults(b, ins[..n]),
                   Push(Replay(b, ins[..n]), ins[n].clientId, ins[n].order).results, keys);
    }
  }

  /** Input i is an order proper, and the only one of the run that carries its key. */
  ghost predicate OnlyOrder(ins: seq<Input>, i: nat)
    requires i < |ins|
  {
    && Tradable(ins[i].order)
    && forall j :: 0 <= j < |ins| && j != i && Tradable(ins[j].order) ==>
         (ins[j].clientId, ins[j].order.seqNo) != (ins[i].clientId, ins[i].order.seqNo)
  }

  lemma {:induction false} BroughtByNone(ins: seq<Input>, key: Key)
    requires forall j :: 0 <= j < |ins| && Tradable(ins[j].order) ==>
               (ins[j].clientId, ins[j].order.seqNo) != key
    ensures TotalBrought(ins, iset{key}) == 0
  {
    if ins != [] {
      BroughtByNone(ins[..|ins| - 1], key);
    }
  }

  lemma {:induction false} BroughtByOne(ins: seq<Input>, i: nat)
    requires i < |ins| && OnlyOrder(ins, i)
    ensures TotalBrought(ins, iset{(ins[i].clientId, ins[i].order.seqNo)}) == ins[i].order.qty
  {
    var n := |ins| - 1;
    if i == n {
      BroughtByNone(ins[..n], (ins[i].clientId, ins[i].order.seqNo));
    } else {
      BroughtByOne(ins[..n], i);
    }
  }

  /**
   * Each order's own account, over any run from any book: its quantity, with whatever rested under its
   * number before, is its executions, its residual in the book and what was cancelled of it.
   */
  lemma OrderAccount(b: Book, ins: seq<Input>, i: nat)
    requires i < |ins| && OnlyOrder(ins, i)
    ensures var key := iset{(ins[i].clientId, ins[i].order.seqNo)};
            ins[i].order.qty + InBook(b, key)
            == Filled(ReplayResults(b, ins), key) + InBook(Replay(b, ins), key) + TotalDropped(b, ins, key)
  {
    RunConserves(b, ins, iset{(ins[i].clientId, ins[i].order.seqNo)});
    BroughtByOne(ins, i);
  }

  // ---- The whole exchange ----

  ghost const EVERY_KEY: iset<Key> := iset k: Key | true

  /** The traded volume: each execution counted once. */
  function Traded(b: Book, ins: seq<Input>): int {
    if ins == [] then 0
    else
      var before := Replay(b, ins[..|ins| - 1]);
      var o := ins[|ins| - 1].order;
      Traded(b, ins[..|ins| - 1]) + (if Tradable(o) then Executed(MatchFor(before, o).fills) else 0)
  }

  lemma {:induction false} EveryFill(fills: seq<Fill>)
    ensures FillsHeld(fills, EVERY_KEY) == Executed(fills)
  {
    if fills != [] {
      EveryFill(fills[1..]);
    }
  }

  lemma {:induction false} TwiceTraded(b: Book, ins: seq<Input>)
    ensures Filled(ReplayResults(b, ins), EVERY_KEY) == 2 * Traded(b, ins)
  {
    if ins != [] {
      var n := |ins| - 1;
      var before := Replay(b, ins[..n]);
      var id, o := ins[n].clientId, ins[n].order;
      var results := Push(before, id, o).results;
      TwiceTraded(b, ins[..n]);
      FilledAppend(ReplayResults(b, ins[..n]), results, EVERY_KEY);
      if Tradable(o) {
        var m := MatchFor(before, o);
        FilledOfFills(id, o.seqNo, o.side, m.fills, EVERY_KEY);
        EveryFill(m.fills);
        if m.left > 0 {
          var accepted := OrderResult(id, Accepted, o.side, o.price, m.left, o.seqNo);
          FilledAppend(FillResults(id, o.seqNo, o.side, m.fills), [accepted], EVERY_KEY);
          OneReport(accepted, EVERY_KEY);
        }
      } else {
        OneReport(results[0], EVERY_KEY);
      }
    }
  }

  /** Everything submitted is resting, cancelled, or traded with two sides. */
  lemma ExchangeConserves(ins: seq<Input>)
    ensures TotalBrought(ins, EVERY_KEY)
         == InBook(Replay(EMPTY_BOOK, ins), EVERY_KEY)
          + TotalDropped(EMPTY_BOOK, ins, EVERY_KEY)
          + 2 * Traded(EMPTY_BOOK, ins)
  {
    RunConserves(EMPTY_BOOK, ins, EVERY_KEY);
    TwiceTraded(EMPTY_BOOK, ins);
  }
}
