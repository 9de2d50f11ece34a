/** The engine as the server runs it: two maps of FIFOs changed in place. */
module MatchingEngines {
  import opened Protocol
  import opened FlatBook
  import opened LevelMaps
  import opened Codec
  import opened Depth

  class MatchingEngine {
    var bids: Levels
    var asks: Levels

    ghost predicate Valid()
      reads this
    {
      NoEmptyLevel(bids) && NoEmptyLevel(asks)
    }

    /** The flat book these maps stand for. */
    ghost function Contents(): Book
      reads this
    {
      Book(Flatten(Buy, bids), Flatten(Sell, asks))
    }

    constructor ()
      ensures Valid() && Contents() == EMPTY_BOOK
    {
      bids, asks := map[], map[];
    }

    method PushOrder(clientId: int, order: OrderPacket) returns (out: seq<OrderResult>, dirty: bool)
      requires Valid()
      modifies this
      ensures Valid()
      ensures var spec := Push(old(Contents()), clientId, order);
              Contents() == spec.book && out == spec.results && dirty == spec.dirty
    {
      out, dirty := [], false;
      if order.qty == 0 {
        out, dirty := Cancel(clientId, order.seqNo, order.side, order.price);
        return;
      }
      if order.qty < 0 || order.price <= 0 {
        out := out + [OrderResult(clientId, Reject, order.side, order.price, 0, order.seqNo)];
        return;
      }
      var qty: int;
      qty, out, dirty := MatchAgainst(clientId, order.seqNo, order.side, order.price, order.qty);
      if qty > 0 {
        var accepted := Rest(clientId, order.seqNo, order.side, order.price, qty);
        out := out + accepted;
        dirty := true;
      }
    }

    /** Match on the map of the opposite side. */
    method MatchAgainst(clientId: int, seqNo: int, side: Side, price: int, qty0: int)
      returns (qty: int, out: seq<OrderResult>, dirty: bool)
      requires Valid() && qty0 > 0
      modifies this
      ensures Valid()
      ensures var spec := Match(old(Contents()).On(Opposite(side)), side, price, qty0);
              && Contents() == old(Contents()).With(Opposite(side), spec.rest)
              && qty == spec.left
              && out == FillResults(clientId, seqNo, side, spec.fills)
              && dirty == (spec.fills != [])
    {
      if side == Buy {
        asks, qty, out, dirty := MatchLevels(clientId, seqNo, side, price, qty0, asks);
      } else {
        bids, qty, out, dirty := MatchLevels(clientId, seqNo, side, price, qty0, bids);
      }
    }

    method Rest(clientId: int, seqNo: int, side: Side, price: int, qty: int)
      returns (out: seq<OrderResult>)
      requires Valid()
      modifies this
      ensures Valid()
      ensures Contents() == old(Contents()).With(side,
                Insert(old(Contents()).On(side), side, Entry(price, clientId, qty, seqNo)))
      ensures out == [OrderResult(clientId, Accepted, side, price, qty, seqNo)]
    {
      var ro := RestingOrder(clientId, qty, seqNo);
      if side == Buy {
        FlattenAppend(Buy, bids, price, ro);
        bids := bids[price := (if price in bids then bids[price] else []) + [ro]];
      } else {
        FlattenAppend(Sell, asks, price, ro);
        asks := asks[price := (if price in asks then asks[price] else []) + [ro]];
      }
      out := [OrderResult(clientId, Accepted, side, price, qty, seqNo)];
    }

    method Cancel(clientId: int, seqNo: int, side: Side, price: int)
      returns (out: seq<OrderResult>, dirty: bool)
      requires Valid()
      modifies this
      ensures Valid()
      ensures dirty == Has(old(Contents()).On(side), price, clientId)
      ensures Contents() ==
              if dirty then
                old(Contents()).With(side, Remove(old(Contents()).On(side), price, clientId))
              else old(Contents())
      ensures out == [OrderResult(clientId, if dirty then Cancelled else Reject, side, price, 0, seqNo)]
    {
      if side == Buy {
        bids, dirty := RemoveFrom(Buy, bids, price, clientId);
      } else {
        asks, dirty := RemoveFrom(Sell, asks, price, clientId);
      }
      out := [OrderResult(clientId, if dirty then Cancelled else Reject, side, price, 0, seqNo)];
    }

    /** The current top of the book, summed by price, as a packet. */
    method ExtractOrderBook() returns (packet: Packet)
      requires Valid()
      ensures packet == Snapshot(Contents())
      ensures Publishes(packet, Aggregate(Contents().bids), Aggregate(Contents().asks))
    {
      hide Encode, Publishes, Aggregate, Flatten;
      EncodePublishes(Aggregate(Contents().bids), Aggregate(Contents().asks));
      var raw := new Byte[ORDER_BOOK_SIZE](_ => BLANK);
      raw[0], raw[1], raw[2] := TICKER[0], TICKER[1], TICKER[2];
      EncodeNothing(raw[..]);
      FillBids(bids, raw);
      FillAsks(asks, raw, Aggregate(Flatten(Buy, bids)));
      packet := raw[..];
    }
  }

  /** The loop so far executed `done`; the spec is that followed by what the present list still gives. */
  ghost predicate Continues(spec: MatchOut, done: seq<Fill>, next: MatchOut) {
    spec == MatchOut(next.rest, done + next.fills, next.left)
  }

  lemma ContinuesStep(spec: MatchOut, done: seq<Fill>, head: Entry, m: int, next: MatchOut)
    requires Continues(spec, done, After(head, m, next))
    ensures Continues(spec, done + [Fill(head, m)], next)
  {
    assert done + ([Fill(head, m)] + next.fills) == (done + [Fill(head, m)]) + next.fills;
  }

  lemma {:induction false} FillResultsAppend(clientId: int, seqNo: int, side: Side, fills: seq<Fill>, f: Fill)
    ensures FillResults(clientId, seqNo, side, fills + [f])
         == FillResults(clientId, seqNo, side, fills)
            + [OrderResult(clientId, Success, side, f.maker.price, f.qty, seqNo),
               OrderResult(f.maker.clientId, Success, Opposite(side), f.maker.price, f.qty, f.maker.seqNo)]
  {
    if fills == [] {
      assert [f][1..] == [];
    } else {
      assert (fills + [f])[0] == fills[0] && (fills + [f])[1..] == fills[1..] + [f];
      FillResultsAppend(clientId, seqNo, side, fills[1..], f);
    }
  }

  /** One turn of the inner loop, in terms of the flat list that the level is the front of. */
  lemma ServeFront(side: Side, limit: int, restPrice: int, qty: int, fifo: seq<RestingOrder>, others: seq<Entry>)
    requires qty > 0 && fifo != [] && Crosses(side, limit, restPrice)
    ensures var front := fifo[0];
            var m := Min(qty, front.qty);
            var next := if front.qty - m == 0 then fifo[1..] else fifo[0 := front.(qty := front.qty - m)];
            Match(At(restPrice, fifo) + others, side, limit, qty)
            == After(Entry(restPrice, front.clientId, front.qty, front.seqNo), m,
                     Match(At(restPrice, next) + others, side, limit, qty - m))
  {
    hide Match, At;
    var front, rest := fifo[0], fifo[1..];
    var m := Min(qty, front.qty);
    var tail := At(restPrice, rest) + others;
    var list := [Entry(restPrice, front.clientId, front.qty, front.seqNo)] + tail;
    assert fifo == [front] + rest;
    FrontOf(restPrice, front, rest, others);
    assert list[1..] == tail;
    MatchStep(list, side, limit, qty);
    if front.qty != m {
      var cut := front.(qty := front.qty - m);
      assert fifo[0 := cut] == [cut] + rest;
      FrontOf(restPrice, cut, rest, others);
    }
  }

  lemma FrontOf(restPrice: int, front: RestingOrder, rest: seq<RestingOrder>, others: seq<Entry>)
    ensures At(restPrice, [front] + rest) + others
         == [Entry(restPrice, front.clientId, front.qty, front.seqNo)] + (At(restPrice, rest) + others)
  {
  }

  /** Serve one level, oldest order first, until it or the quantity is used up. */
  method MatchFifo(clientId: int, seqNo: int, side: Side, restPrice: int, qty0: int,
                   fifo0: seq<RestingOrder>, out0: seq<OrderResult>,
                   ghost limit: int, ghost others: seq<Entry>, ghost spec: MatchOut, ghost done0: seq<Fill>)
    returns (qty: int, fifo: seq<RestingOrder>, out: seq<OrderResult>, ghost done: seq<Fill>)
    requires qty0 > 0 && fifo0 != [] && Crosses(side, limit, restPrice)
    requires Continues(spec, done0, Match(At(restPrice, fifo0) + others, side, limit, qty0))
    requires out0 == FillResults(clientId, seqNo, side, done0)
    ensures qty >= 0 && (qty == 0 || fifo == [])
    ensures done != [] && out == FillResults(clientId, seqNo, side, done)
    ensures Continues(spec, done, Match(At(restPrice, fifo) + others, side, limit, qty))
  {
    hide Match, At, FillResults, Continues;
    qty, fifo, out, done := qty0, fifo0, out0, done0;
    while qty > 0 && fifo != []
      invariant qty >= 0
      invariant Continues(spec, done, Match(At(restPrice, fifo) + others, side, limit, qty))
      invariant out == FillResults(clientId, seqNo, side, done)
      invariant (fifo == fifo0 && qty == qty0) || done != []
      decreases |fifo|, qty
    {
      var restOrder := fifo[0];
      var matchedQty := Min(qty, restOrder.qty);
      ghost var maker := Entry(restPrice, restOrder.clientId, restOrder.qty, restOrder.seqNo);
      ServeFront(side, limit, restPrice, qty, fifo, others);
      qty := qty - matchedQty;
      restOrder := restOrder.(qty := restOrder.qty - matchedQty);
      out := out + [OrderResult(clientId, Success, side, restPrice, matchedQty, seqNo),
                    OrderResult(restOrder.clientId, Success, Opposite(side), restPrice, matchedQty, restOrder.seqNo)];
      fifo := if restOrder.qty == 0 then fifo[1..] else fifo[0 := restOrder];
      ContinuesStep(spec, done, maker, matchedQty, Match(At(restPrice, fifo) + others, side, limit, qty));
      FillResultsAppend(clientId, seqNo, side, done, Fill(maker, matchedQty));
      done := done + [Fill(maker, matchedQty)];
    }
  }

  /** Trade against one map, best level first, until the quantity is gone or nothing crosses. */
  method MatchLevels(clientId: int, seqNo: int, side: Side, price: int, qty0: int, opp0: Levels)
    returns (opp: Levels, qty: int, out: seq<OrderResult>, dirty: bool)
    requires qty0 > 0 && NoEmptyLevel(opp0)
    ensures NoEmptyLevel(opp)
    ensures var spec := Match(Flatten(Opposite(side), opp0), side, price, qty0);
            && Flatten(Opposite(side), opp) == spec.rest
            && qty == spec.left
            && out == FillResults(clientId, seqNo, side, spec.fills)
            && dirty == (spec.fills != [])
  {
    var oppSide := Opposite(side);
    opp, qty, out, dirty := opp0, qty0, [], false;
    ghost var spec := Match(Flatten(oppSide, opp0), side, price, qty0);
    ghost var done: seq<Fill> := [];
    while qty > 0 && opp != map[]
      invariant qty >= 0 && NoEmptyLevel(opp)
      invariant Continues(spec, done, Match(Flatten(oppSide, opp), side, price, qty))
      invariant out == FillResults(clientId, seqNo, side, done)
      invariant dirty == (done != [])
      decreases |opp|, qty
    {
      var restPrice := Best(oppSide, opp);
      var isCross := if side == Buy then restPrice <= price else restPrice >= price;
      if !isCross {
        assert opp[restPrice] != [];
        break;
      }
      ghost var others := Flatten(oppSide, opp - {restPrice});
      var fifo: seq<RestingOrder>;
      qty, fifo, out, done :=
        MatchFifo(clientId, seqNo, side, restPrice, qty, opp[restPrice], out, price, others, spec, done);
      dirty := true;
      if fifo == [] {
        assert At(restPrice, fifo) + others == others;
        opp := opp - {restPrice};
      } else {
        FlattenReplaceBest(oppSide, opp, restPrice, fifo);
        opp := opp[restPrice := fifo];
      }
    }
    assert Match(Flatten(oppSide, opp), side, price, qty) == MatchOut(Flatten(oppSide, opp), [], qty);
    assert spec.fills == done;
  }

  /** find the price, scan its FIFO for the client, erase what is found. */
  method RemoveFrom(side: Side, book0: Levels, price: int, clientId: int)
    returns (book: Levels, ok: bool)
    requires NoEmptyLevel(book0)
    ensures NoEmptyLevel(book)
    ensures ok == Has(Flatten(side, book0), price, clientId)
    ensures Flatten(side, book) ==
            if ok then Remove(Flatten(side, book0), price, clientId) else Flatten(side, book0)
  {
    book := book0;
    if price !in book {
      FlattenLacks(side, book, price, clientId);
      return book, false;
    }
    var fifo := book[price];
    for i := 0 to |fifo|
      invariant forall j :: 0 <= j < i ==> fifo[j].clientId != clientId
    {
      if fifo[i].clientId == clientId {
        FlattenErase(side, book, price, i);
        fifo := fifo[..i] + fifo[i + 1..];
        book := if fifo == [] then book - {price} else book[price := fifo];
        return book, true;
      }
    }
    FlattenLacks(side, book, price, clientId);
    return book, false;
  }

  method LevelSum(fifo: seq<RestingOrder>) returns (sum: int)
    ensures sum == SumQty(fifo)
  {
    sum := 0;
    for i := 0 to |fifo|
      invariant sum == SumQty(fifo[..i])
    {
      assert fifo[..i + 1][..i] == fifo[..i];
      sum := sum + fifo[i].qty;
    }
    assert fifo[..|fifo|] == fifo;
  }

  /** An iterator over a side: `shown` is behind it, the levels of `it` are ahead. */
  ghost predicate Iterating(side: Side, all: seq<Level>, shown: seq<Level>, it: Levels) {
    NoEmptyLevel(it) && all == shown + Aggregate(Flatten(side, it))
  }

  /** Read the level an iterator stands on and move it on. */
  method NextLevel(side: Side, it: Levels, ghost all: seq<Level>, ghost shown: seq<Level>)
    returns (price: int, sum: int, next: Levels)
    requires it != map[] && Iterating(side, all, shown, it)
    ensures |next| < |it|
    ensures Iterating(side, all, shown + [Level(price, sum)], next)
  {
    price := Best(side, it);
    sum := LevelSum(it[price]);
    next := it - {price};
    AggregateMap(side, it);
    var rest := Aggregate(Flatten(side, next));
    assert shown + ([Level(price, sum)] + rest) == (shown + [Level(price, sum)]) + rest;
  }

  /** Stopping at the end or after five levels has shown all that a packet shows. */
  lemma StopIterating(side: Side, all: seq<Level>, shown: seq<Level>, it: Levels)
    requires Iterating(side, all, shown, it)
    requires it == map[] || |shown| == NUM_LAYERS
    ensures forall others :: Encode(all, others) == Encode(shown, others)
    ensures forall others :: Encode(others, all) == Encode(others, shown)
  {
    forall others ensures Encode(all, others) == Encode(shown, others)
                  ensures Encode(others, all) == Encode(others, shown)
    {
      if it == map[] {
        assert all == shown;
      }
    }
  }

  method PutBid(raw: array<Byte>, i: nat, price: int, sum: int,
                ghost bids: seq<Level>, ghost asks: seq<Level>)
    requires i == |bids| < NUM_LAYERS
    requires raw.Length == ORDER_BOOK_SIZE && raw[..] == Encode(bids, asks)
    modifies raw
    ensures raw[..] == Encode(bids + [Level(price, sum)], asks)
  {
    ghost var before := raw[..];
    PutField(raw, BidPriceAt(i), 5, price, false);
    ghost var half := raw[..];
    PutField(raw, BidQtyAt(i), 4, sum, false);
    assert SameButBid(before, raw[..], i);
    assert BidPriceField(raw[..], i) == BidPriceField(half, i);
    EncodeNextBid(before, raw[..], bids, asks, Level(price, sum));
  }

  method PutAsk(raw: array<Byte>, i: nat, price: int, sum: int,
                ghost bids: seq<Level>, ghost asks: seq<Level>)
    requires i == |asks| < NUM_LAYERS
    requires raw.Length == ORDER_BOOK_SIZE && raw[..] == Encode(bids, asks)
    modifies raw
    ensures raw[..] == Encode(bids, asks + [Level(price, sum)])
  {
    ghost var before := raw[..];
    PutField(raw, AskPriceAt(i), 5, price, false);
    ghost var half := raw[..];
    PutField(raw, AskQtyAt(i), 4, sum, false);
    assert SameButAsk(before, raw[..], i);
    assert AskPriceField(raw[..], i) == AskPriceField(half, i);
    EncodeNextAsk(before, raw[..], bids, asks, Level(price, sum));
  }

  /** Write the best levels of the bids into a packet that shows none. */
  method FillBids(bids: Levels, raw: array<Byte>)
    requires NoEmptyLevel(bids)
    requires raw.Length == ORDER_BOOK_SIZE && raw[..] == Encode([], [])
    modifies raw
    ensures raw[..] == Encode(Aggregate(Flatten(Buy, bids)), [])
  {
    var it, i := bids, 0;
    ghost var all := Aggregate(Flatten(Buy, bids));
    ghost var shown: seq<Level> := [];
    while it != map[] && i < NUM_LAYERS
      invariant i == |shown| <= NUM_LAYERS && Iterating(Buy, all, shown, it)
      invariant raw[..] == Encode(shown, [])
      decreases |it|
    {
      var price, sum, next := NextLevel(Buy, it, all, shown);
      PutBid(raw, i, price, sum, shown, []);
      shown := shown + [Level(price, sum)];
      it, i := next, i + 1;
    }
    StopIterating(Buy, all, shown, it);
  }

  /** Write the best levels of the asks into a packet that shows only bids. */
  method FillAsks(asks: Levels, raw: array<Byte>, ghost bids: seq<Level>)
    requires NoEmptyLevel(asks)
    requires raw.Length == ORDER_BOOK_SIZE && raw[..] == Encode(bids, [])
    modifies raw
    ensures raw[..] == Encode(bids, Aggregate(Flatten(Sell, asks)))
  {
    var it, i := asks, 0;
    ghost var all := Aggregate(Flatten(Sell, asks));
    ghost var shown: seq<Level> := [];
    while it != map[] && i < NUM_LAYERS
      invariant i == |shown| <= NUM_LAYERS && Iterating(Sell, all, shown, it)
      invariant raw[..] == Encode(bids, shown)
      decreases |it|
    {
      var price, sum, next := NextLevel(Sell, it, all, shown);
      PutAsk(raw, i, price, sum, bids, shown);
      shown := shown + [Level(price, sum)];
      it, i := next, i + 1;
    }
    StopIterating(Sell, all, shown, it);
  }
}
