/** What one order does to each client's own entries and reports. */
module Attribution {
  import opened Protocol
  import opened FlatBook
  import opened PriceTime
  import opened SideView

  function Own(entries: seq<Entry>, clientId: int): seq<Entry> {
    if entries == [] then []
    else (if entries[0].clientId == clientId then [entries[0]] else []) + Own(entries[1..], clientId)
  }

  function Orders(up: seq<OrderPacket>, side: Side): seq<OrderPacket> {
    if up == [] then []
    else (if up[0].side == side then [up[0]] else []) + Orders(up[1..], side)
  }

  function Reports(down: seq<ResultPacket>, side: Side): seq<ResultPacket> {
    if down == [] then []
    else (if down[0].side == side then [down[0]] else []) + Reports(down[1..], side)
  }

  lemma {:induction false} OrdersAppend(a: seq<OrderPacket>, b: seq<OrderPacket>, side: Side)
    ensures Orders(a + b, side) == Orders(a, side) + Orders(b, side)
  {
    if a == [] {
      assert a + b == b;
    } else {
      AppendTail(a, b);
      OrdersAppend(a[1..], b, side);
      var head := if a[0].side == side then [a[0]] else [];
      AppendAssoc(head, Orders(a[1..], side), Orders(b, side));
    }
  }

  lemma {:induction false} ReportsAppend(a: seq<ResultPacket>, b: seq<ResultPacket>, side: Side)
    ensures Reports(a + b, side) == Reports(a, side) + Reports(b, side)
  {
    if a == [] {
      assert a + b == b;
    } else {
      AppendTail(a, b);
      ReportsAppend(a[1..], b, side);
      var head := if a[0].side == side then [a[0]] else [];
      AppendAssoc(head, Reports(a[1..], side), Reports(b, side));
    }
  }

  // ---- Reports of executions ----

  function TakerFills(side: Side, seqNo: int, fills: seq<Fill>): seq<ResultPacket> {
    if fills == [] then []
    else
      [ResultPacket(Success, side, fills[0].maker.price, fills[0].qty, seqNo)]
      + TakerFills(side, seqNo, fills[1..])
  }

  function MakerFills(side: Side, fills: seq<Fill>, clientId: int): seq<ResultPacket> {
    if fills == [] then []
    else
      (if fills[0].maker.clientId == clientId
       then [ResultPacket(Success, side, fills[0].maker.price, fills[0].qty, fills[0].maker.seqNo)]
       else [])
      + MakerFills(side, fills[1..], clientId)
  }

  lemma ReportsOfOne(r: OrderResult, clientId: int, d: Side)
    ensures Reports(Routed([r], clientId), d)
         == if r.clientId == clientId && r.side == d then [ToPacket(r)] else []
  {
    RoutedOne(r, clientId);
    assert [ToPacket(r)][1..] == [];
  }

  lemma {:induction false} FillReports(takerId: int, seqNo: int, side: Side, fills: seq<Fill>, clientId: int, d: Side)
    ensures Reports(Routed(FillResults(takerId, seqNo, side, fills), clientId), d)
         == if d == side then (if clientId == takerId then TakerFills(side, seqNo, fills) else [])
            else MakerFills(d, fills, clientId)
  {
    if fills != [] {
      hide FillResults, Routed, Reports;
      var f, rest := fills[0], FillResults(takerId, seqNo, side, fills[1..]);
      var taker := OrderResult(takerId, Success, side, f.maker.price, f.qty, seqNo);
      var maker := OrderResult(f.maker.clientId, Success, Opposite(side), f.maker.price, f.qty, f.maker.seqNo);
      FillResultsFirst(takerId, seqNo, side, fills);
      ReportsAfterOne(taker, [maker] + rest, clientId, d);
      ReportsAfterOne(maker, rest, clientId, d);
      FillReports(takerId, seqNo, side, fills[1..], clientId, d);
      var after := Reports(Routed(rest, clientId), d);
      assert [] + after == after;
      if d == side {
        assert Reports(Routed([maker] + rest, clientId), d) == after;
      } else {
        assert Reports(Routed([taker] + ([maker] + rest), clientId), d) == Reports(Routed([maker] + rest, clientId), d);
      }
    }
  }

  lemma ReportsAfterOne(r: OrderResult, rest: seq<OrderResult>, clientId: int, d: Side)
    ensures Reports(Routed([r] + rest, clientId), d)
         == (if r.clientId == clientId && r.side == d then [ToPacket(r)] else []) + Reports(Routed(rest, clientId), d)
  {
    hide Routed, Reports;
    RoutedAppend([r], rest, clientId);
    ReportsAppend(Routed([r], clientId), Routed(rest, clientId), d);
    ReportsOfOne(r, clientId, d);
  }

  lemma {:induction false} TakerFillsTotal(side: Side, seqNo: int, fills: seq<Fill>)
    requires forall i :: 0 <= i < |fills| ==> fills[i].qty > 0
    ensures AreFills(TakerFills(side, seqNo, fills))
    ensures FillTotal(TakerFills(side, seqNo, fills)) == Executed(fills)
  {
    if fills != [] {
      TakerFillsTotal(side, seqNo, fills[1..]);
      var all := TakerFills(side, seqNo, fills);
      assert all[1..] == TakerFills(side, seqNo, fills[1..]);
    }
  }

  lemma {:induction false} FillsArePositive(entries: seq<Entry>, side: Side, limit: int, qty: int)
    requires Positive(entries) && qty >= 0
    ensures var r := Match(entries, side, limit, qty);
            && r.left >= 0 && Executed(r.fills) + r.left == qty
            && (forall i :: 0 <= i < |r.fills| ==> r.fills[i].qty > 0)
  {
    if qty > 0 && entries != [] && Crosses(side, limit, entries[0].price) {
      var r := Match(entries, side, limit, qty);
      if qty < entries[0].qty {
        assert r.fills[1..] == [];
      } else {
        FillsArePositive(entries[1..], side, limit, qty - entries[0].qty);
        assert r.fills[1..] == Match(entries[1..], side, limit, qty - entries[0].qty).fills;
      }
    }
  }

  // ---- Own entries ----

  lemma {:induction false} NotOwner(entries: seq<Entry>, side: Side, limit: int, qty: int, clientId: int)
    requires Own(entries, clientId) == []
    ensures var r := Match(entries, side, limit, qty);
            Own(r.rest, clientId) == [] && forall d :: MakerFills(d, r.fills, clientId) == []
  {
    if qty > 0 && entries != [] && Crosses(side, limit, entries[0].price) {
      var r := Match(entries, side, limit, qty);
      if qty < entries[0].qty {
        assert r.rest[1..] == entries[1..] && r.fills[1..] == [];
      } else {
        NotOwner(entries[1..], side, limit, qty - entries[0].qty, clientId);
        assert r.fills[1..] == Match(entries[1..], side, limit, qty - entries[0].qty).fills;
      }
    }
  }

  /** What a match did to a client with one entry e: nothing, or one fill of f. */
  ghost predicate MakerTouched(e: Entry, after: seq<Entry>, side: Side, reports: seq<ResultPacket>) {
    || (after == [e] && reports == [])
    || (exists f :: 0 < f <= e.qty && reports == [ResultPacket(Success, side, e.price, f, e.seqNo)]
                    && after == if f == e.qty then [] else [e.(qty := e.qty - f)])
  }

  lemma {:induction false} SoleOwner(entries: seq<Entry>, side: Side, limit: int, qty: int, clientId: int, d: Side)
    requires Positive(entries) && |Own(entries, clientId)| == 1
    ensures var r := Match(entries, side, limit, qty);
            MakerTouched(Own(entries, clientId)[0], Own(r.rest, clientId), d, MakerFills(d, r.fills, clientId))
  {
    if qty > 0 && entries != [] && Crosses(side, limit, entries[0].price) {
      var head := entries[0];
      if head.clientId == clientId {
        SoleOwnerFirst(entries, side, limit, qty, clientId, d);
      } else if qty >= head.qty {
        var tail := Match(entries[1..], side, limit, qty - head.qty);
        SoleOwner(entries[1..], side, limit, qty - head.qty, clientId, d);
        assert ([Fill(head, head.qty)] + tail.fills)[1..] == tail.fills;
      } else {
        var cut := head.(qty := head.qty - qty);
        assert ([cut] + entries[1..])[1..] == entries[1..] && [Fill(head, qty)][1..] == [];
      }
    }
  }

  /** The client's one entry is the first to be reached. */
  lemma SoleOwnerFirst(entries: seq<Entry>, side: Side, limit: int, qty: int, clientId: int, d: Side)
    requires Positive(entries) && |Own(entries, clientId)| == 1 && entries[0].clientId == clientId
    requires qty > 0 && Crosses(side, limit, entries[0].price)
    ensures var r := Match(entries, side, limit, qty);
            MakerTouched(entries[0], Own(r.rest, clientId), d, MakerFills(d, r.fills, clientId))
  {
    var head := entries[0];
    assert Own(entries[1..], clientId) == [];
    if qty < head.qty {
      var cut := head.(qty := head.qty - qty);
      assert ([cut] + entries[1..])[1..] == entries[1..] && [Fill(head, qty)][1..] == [];
      assert MakerFills(d, [Fill(head, qty)], clientId) == [ResultPacket(Success, d, head.price, qty, head.seqNo)];
    } else {
      var tail := Match(entries[1..], side, limit, qty - head.qty);
      NotOwner(entries[1..], side, limit, qty - head.qty, clientId);
      assert ([Fill(head, head.qty)] + tail.fills)[1..] == tail.fills;
      assert MakerFills(d, [Fill(head, head.qty)] + tail.fills, clientId)
          == [ResultPacket(Success, d, head.price, head.qty, head.seqNo)];
    }
  }

  lemma {:induction false} InsertOwn(entries: seq<Entry>, side: Side, e: Entry, clientId: int)
    requires e.clientId == clientId ==> Own(entries, clientId) == []
    ensures Own(Insert(entries, side, e), clientId) == if e.clientId == clientId then [e] else Own(entries, clientId)
  {
    var after := Insert(entries, side, e);
    if entries == [] || Better(side, e.price, entries[0].price) {
      assert after[1..] == entries;
    } else {
      assert after[1..] == Insert(entries[1..], side, e);
      InsertOwn(entries[1..], side, e, clientId);
    }
  }

  lemma {:induction false} RemoveOther(entries: seq<Entry>, price: int, removerId: int, clientId: int)
    requires removerId != clientId
    ensures Own(Remove(entries, price, removerId), clientId) == Own(entries, clientId)
  {
    if entries != [] && !IsAt(entries[0], price, removerId) {
      RemoveOther(entries[1..], price, removerId, clientId);
      assert Remove(entries, price, removerId)[1..] == Remove(entries[1..], price, removerId);
    }
  }

  lemma {:induction false} HasNone(entries: seq<Entry>, price: int, clientId: int)
    requires Own(entries, clientId) == []
    ensures !Has(entries, price, clientId)
  {
    if entries != [] {
      HasNone(entries[1..], price, clientId);
      HasFirst(entries, price, clientId);
    }
  }

  /** A cancel by a client with one entry on the side, named at its price, takes that entry. */
  lemma {:induction false} RemoveOwn(entries: seq<Entry>, price: int, clientId: int)
    requires |Own(entries, clientId)| == 1 && Own(entries, clientId)[0].price == price
    ensures Has(entries, price, clientId)
    ensures Own(Remove(entries, price, clientId), clientId) == []
  {
    HasFirst(entries, price, clientId);
    if entries[0].clientId != clientId {
      RemoveOwn(entries[1..], price, clientId);
      assert Remove(entries, price, clientId)[1..] == Remove(entries[1..], price, clientId);
    }
  }
}
