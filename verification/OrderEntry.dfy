/**
 * The order-entry protocol: any number of clients, the engine, and a FIFO channel each way between
 * them. A run is any sequence of steps; a step that is not possible changes nothing, so the theorems
 * over all sequences are theorems over all interleavings.
 */
module OrderEntry {
  import opened Protocol
  import opened FlatBook
  import opened PriceTime
  import opened BaseClients
  import opened SideView
  import opened Attribution

  /** A client, the orders on their way from it and the reports on their way to it. */
  datatype Peer = Peer(client: ClientState, up: seq<OrderPacket>, down: seq<ResultPacket>)

  datatype State = State(book: Book, peers: map<int, Peer>)

  datatype Step =
    | Connect(id: int, measuring: bool)
    | Target(id: int, side: Side, desired: int, orderQty: int)
    | Engine(id: int)
    | Deliver(id: int, orderQty: int)

  /** A client orders a positive quantity whenever it orders afresh. */
  predicate ValidQty(qty: int) { 1 <= qty <= MAX_QTY }

  function AfterClient(p: Peer, out: ClientOut, down: seq<ResultPacket>): Peer {
    Peer(out.client, p.up + out.sent, down)
  }

  function AfterEngine(c: int, p: Peer, id: int, results: seq<OrderResult>): Peer {
    p.(up := if c == id && p.up != [] then p.up[1..] else p.up, down := p.down + Routed(results, c))
  }

  function Apply(s: State, step: Step): State {
    match step
    case Connect(id, measuring) =>
      if id < 1 || id in s.peers then s
      else s.(peers := s.peers[id := Peer(NewClient(true, measuring), [], [])])
    case Target(id, side, desired, orderQty) =>
      if id !in s.peers || !ValidQty(orderQty) then s
      else
        var p := s.peers[id];
        s.(peers := s.peers[id := AfterClient(p, Reconciled(p.client, side, desired, orderQty), p.down)])
    case Engine(id) =>
      if id !in s.peers || s.peers[id].up == [] then s
      else
        var out := Push(s.book, id, s.peers[id].up[0]);
        State(out.book, map c | c in s.peers :: AfterEngine(c, s.peers[c], id, out.results))
    case Deliver(id, orderQty) =>
      if id !in s.peers || s.peers[id].down == [] || !ValidQty(orderQty) then s
      else
        var p := s.peers[id];
        s.(peers := s.peers[id := AfterClient(p, Answered(p.client, p.down[0], orderQty), p.down[1..])])
  }

  function SeedSide(side: Side, n: nat): seq<Entry> {
    seq(n, i requires 0 <= i < n =>
      Entry(if side == Buy then SEED_MID - 1 - i else SEED_MID + 1 + i, SEED_CLIENT_ID, SEED_QTY, 0))
  }

  /** The book the server starts with. */
  function SeedBook(): Book {
    Book(SeedSide(Buy, NUM_LAYERS), SeedSide(Sell, NUM_LAYERS))
  }

  /** The seed by its ten orders. */
  lemma SeedIs()
    ensures SeedBook().bids == [Entry(99, -10, 50, 0), Entry(98, -10, 50, 0), Entry(97, -10, 50, 0),
                                Entry(96, -10, 50, 0), Entry(95, -10, 50, 0)]
    ensures SeedBook().asks == [Entry(101, -10, 50, 0), Entry(102, -10, 50, 0), Entry(103, -10, 50, 0),
                                Entry(104, -10, 50, 0), Entry(105, -10, 50, 0)]
  {
  }

  function Run(steps: seq<Step>): State {
    if steps == [] then State(SeedBook(), map[])
    else Apply(Run(steps[..|steps| - 1]), steps[|steps| - 1])
  }

  lemma RunAfter(steps: seq<Step>, step: Step)
    ensures Run(steps + [step]) == Apply(Run(steps), step)
  {
    hide Apply;
    assert (steps + [step])[..|steps|] == steps;
  }

  // ---- The invariant ----

  ghost predicate OwnersKnown(entries: seq<Entry>, ids: set<int>) {
    forall i :: 0 <= i < |entries| ==> entries[i].clientId in ids || entries[i].clientId == SEED_CLIENT_ID
  }

  ghost predicate SideOk(b: Book, c: int, p: Peer, side: Side) {
    Agrees(p.client.Of(side), Orders(p.up, side), Own(b.On(side), c), Reports(p.down, side))
  }

  ghost predicate PeerOk(b: Book, c: int, p: Peer) {
    c >= 1 && p.client.ready && SideOk(b, c, p, Buy) && SideOk(b, c, p, Sell)
  }

  ghost predicate Inv(s: State) {
    && WellFormed(s.book)
    && OwnersKnown(s.book.bids, s.peers.Keys) && OwnersKnown(s.book.asks, s.peers.Keys)
    && forall c <- s.peers :: PeerOk(s.book, c, s.peers[c])
  }

  // ---- Client steps ----

  lemma SendOne(p: Peer, o: OrderPacket, side: Side)
    ensures Orders(p.up + [o], side) == Orders(p.up, side) + (if o.side == side then [o] else [])
  {
    assert [o][1..] == [];
    OrdersAppend(p.up, [o], side);
  }

  /** A side that only notes or forgets a target reads and agrees as before. */
  lemma PendingIsPrivate(s: SideState, up: seq<OrderPacket>, live: seq<Entry>, down: seq<ResultPacket>, pending: int)
    ensures Agrees(s.(pending := pending), up, live, down) <==> Agrees(s, up, live, down)
  {
  }

  /** The order a Reconcile writes is on the side it is about, and keeps that side in agreement. */
  lemma ReconcileSends(b: Book, c: int, p: Peer, side: Side, desired: int, orderQty: int)
    requires PeerOk(b, c, p) && ValidQty(orderQty)
    ensures var out := Reconciled(p.client, side, desired, orderQty);
            out.sent != [] ==>
              && out.sent == [out.sent[0]] && out.sent[0].side == side
              && Agrees(out.client.Of(side), Orders(p.up, side) + [out.sent[0]],
                        Own(b.On(side), c), Reports(p.down, side))
  {
    var out := Reconciled(p.client, side, desired, orderQty);
    var s, up, live, down := p.client.Of(side), Orders(p.up, side), Own(b.On(side), c), Reports(p.down, side);
    assert SideOk(b, c, p, side);
    if out.sent != [] {
      if s.state == Idle {
        StartOrder(s, up, live, down, desired, out.sent[0]);
      } else {
        StartCancel(s, up, live, down, desired, out.sent[0]);
      }
    }
  }

  lemma ReconcileSilent(b: Book, c: int, p: Peer, side: Side, desired: int, orderQty: int)
    requires PeerOk(b, c, p)
    ensures var out := Reconciled(p.client, side, desired, orderQty);
            out.sent == [] ==>
              Agrees(out.client.Of(side), Orders(p.up, side), Own(b.On(side), c), Reports(p.down, side))
  {
    assert SideOk(b, c, p, side);
    PendingIsPrivate(p.client.Of(side), Orders(p.up, side), Own(b.On(side), c), Reports(p.down, side), desired);
  }

  /** What a client writes about one side leaves the other alone. */
  lemma OtherSideKept(b: Book, c: int, p: Peer, out: ClientOut, side: Side)
    requires SideOk(b, c, p, Opposite(side))
    requires out.client.Of(Opposite(side)) == p.client.Of(Opposite(side))
    requires out.sent == [] || (out.sent == [out.sent[0]] && out.sent[0].side == side)
    ensures SideOk(b, c, AfterClient(p, out, p.down), Opposite(side))
  {
    if out.sent == [] {
      assert p.up + [] == p.up;
    } else {
      SendOne(p, out.sent[0], Opposite(side));
      assert Orders(p.up, Opposite(side)) + [] == Orders(p.up, Opposite(side));
    }
  }

  lemma SameSideKept(b: Book, c: int, p: Peer, side: Side, desired: int, orderQty: int)
    requires PeerOk(b, c, p) && ValidQty(orderQty)
    ensures SideOk(b, c, AfterClient(p, Reconciled(p.client, side, desired, orderQty), p.down), side)
  {
    var out := Reconciled(p.client, side, desired, orderQty);
    ReconcileSilent(b, c, p, side, desired, orderQty);
    ReconcileSends(b, c, p, side, desired, orderQty);
    if out.sent == [] {
      assert p.up + [] == p.up;
    } else {
      SendOne(p, out.sent[0], side);
    }
  }

  /** Setting a target keeps both sides in agreement. */
  lemma ReconcileOk(b: Book, c: int, p: Peer, side: Side, desired: int, orderQty: int)
    requires PeerOk(b, c, p) && ValidQty(orderQty)
    ensures PeerOk(b, c, AfterClient(p, Reconciled(p.client, side, desired, orderQty), p.down))
  {
    hide Agrees, Orders, Own, Reports;
    var out := Reconciled(p.client, side, desired, orderQty);
    SameSideKept(b, c, p, side, desired, orderQty);
    ReconcileSends(b, c, p, side, desired, orderQty);
    OtherSideKept(b, c, p, out, side);
    BothSides(b, c, AfterClient(p, out, p.down), side);
  }

  lemma BothSides(b: Book, c: int, p: Peer, side: Side)
    requires c >= 1 && p.client.ready && SideOk(b, c, p, side) && SideOk(b, c, p, Opposite(side))
    ensures PeerOk(b, c, p)
  {
  }

  /** A client that has read its oldest report and not yet acted on a pending target. */
  function JustRead(c: ClientState, r: ResultPacket): ClientState {
    c.With(r.side, ReadState(c.Of(r.side), r))
  }

  /** The target taken up on a confirmation is a Reconcile that then forgets the target. */
  lemma PendingOk(b: Book, c: int, p: Peer, side: Side, orderQty: int)
    requires PeerOk(b, c, p) && ValidQty(orderQty)
    ensures PeerOk(b, c, AfterClient(p, PendingTaken(p.client, side, orderQty), p.down))
  {
    var pending := p.client.Of(side).pending;
    var out := Reconciled(p.client, side, pending, orderQty);
    ReconcileOk(b, c, p, side, pending, orderQty);
    var p1 := AfterClient(p, out, p.down);
    var p2 := AfterClient(p, PendingTaken(p.client, side, orderQty), p.down);
    assert SideOk(b, c, p1, side) && SideOk(b, c, p1, Opposite(side));
    if pending == 0 {
      assert p2.up == p.up;
    } else {
      PendingIsPrivate(out.client.Of(side), Orders(p1.up, side), Own(b.On(side), c), Reports(p.down, side), 0);
      BothSides(b, c, p2, side);
    }
  }

  lemma JustReadOk(b: Book, c: int, p: Peer)
    requires PeerOk(b, c, p) && p.down != []
    ensures PeerOk(b, c, Peer(JustRead(p.client, p.down[0]), p.up, p.down[1..]))
  {
    var d := p.down[0].side;
    var p' := Peer(JustRead(p.client, p.down[0]), p.up, p.down[1..]);
    assert SideOk(b, c, p, d) && SideOk(b, c, p, Opposite(d));
    var mine := Reports(p.down, d);
    assert mine == [p.down[0]] + Reports(p.down[1..], d);
    assert mine[1..] == Reports(p.down[1..], d);
    HeadRead(p.client.Of(d), Orders(p.up, d), Own(b.On(d), c), mine);
    assert Reports(p.down, Opposite(d)) == Reports(p.down[1..], Opposite(d));
    BothSides(b, c, p', d);
  }

  lemma MeasuredOk(b: Book, c: int, p: Peer, seqNo: int)
    requires PeerOk(b, c, p)
    ensures PeerOk(b, c, p.(client := Measured(p.client, seqNo)))
  {
    var p' := p.(client := Measured(p.client, seqNo));
    assert p'.client.bid == p.client.bid && p'.client.ask == p.client.ask;
    assert SideOk(b, c, p, Buy) && SideOk(b, c, p, Sell);
  }

  /** Reading a report in full: measure, change the state, and perhaps take up a target. */
  lemma AnsweredInSteps(c: ClientState, r: ResultPacket, orderQty: int)
    ensures var read := JustRead(Measured(c, r.seqNo), r);
            Answered(c, r, orderQty) ==
            if r.kind == Accepted || r.kind == Cancelled then PendingTaken(read, r.side, orderQty)
            else ClientOut(read, [])
  {
  }

  lemma DeliverOk(b: Book, c: int, p: Peer, orderQty: int)
    requires PeerOk(b, c, p) && p.down != [] && ValidQty(orderQty)
    ensures PeerOk(b, c, AfterClient(p, Answered(p.client, p.down[0], orderQty), p.down[1..]))
  {
    var r := p.down[0];
    MeasuredOk(b, c, p, r.seqNo);
    var m := p.(client := Measured(p.client, r.seqNo));
    JustReadOk(b, c, m);
    AnsweredInSteps(p.client, r, orderQty);
    var read := Peer(JustRead(m.client, r), p.up, p.down[1..]);
    if r.kind == Accepted || r.kind == Cancelled {
      PendingOk(b, c, read, r.side, orderQty);
    } else {
      assert p.up + [] == p.up;
    }
  }

  // ---- Engine steps ----

  lemma CancelOk(b: Book, c: int, p: Peer, id: int, o: OrderPacket, d: Side)
    requires PeerOk(b, c, p) && IsCancel(o) && (c == id ==> p.up != [] && p.up[0] == o)
    ensures var out := Push(b, id, o); SideOk(out.book, c, AfterEngine(c, p, id, out.results), d)
  {
    var out := Push(b, id, o);
    var r := out.results[0];
    var s, up, down := p.client.Of(d), Orders(p.up, d), Reports(p.down, d);
    var live := Own(b.On(d), c);
    assert SideOk(b, c, p, d);
    ReportsAppend(p.down, Routed([r], c), d);
    ReportsOfOne(r, c, d);
    if c == id && d == o.side {
      assert up == [o] + Orders(p.up[1..], d) && up[1..] == Orders(p.up[1..], d);
      var kind := if live == [] then Reject else Cancelled;
      CancelProcessed(s, up, live, down, ResultPacket(kind, d, o.price, 0, o.seqNo));
      if live == [] {
        HasNone(b.On(d), o.price, c);
      } else {
        RemoveOwn(b.On(d), o.price, c);
      }
    } else {
      if c != id {
        RemoveOther(b.On(o.side), o.price, id, c);
      } else {
        assert up == Orders(p.up[1..], d);
      }
      assert Own(out.book.On(d), c) == live;
      assert down + [] == down;
    }
  }

  lemma TakerOk(b: Book, c: int, p: Peer, o: OrderPacket)
    requires WellFormed(b) && PeerOk(b, c, p) && p.up != [] && p.up[0] == o && !IsCancel(o)
    ensures Tradable(o)
    ensures var out := Push(b, c, o); SideOk(out.book, c, AfterEngine(c, p, c, out.results), o.side)
  {
    var d := o.side;
    var s, up, down, live := p.client.Of(d), Orders(p.up, d), Reports(p.down, d), Own(b.On(d), c);
    assert SideOk(b, c, p, d);
    assert up == [o] + Orders(p.up[1..], d) && up[1..] == Orders(p.up[1..], d);
    NewOrderIsTradable(s, up, live, down);
    var m := MatchFor(b, o);
    FillsArePositive(b.On(Opposite(d)), d, o.price, o.qty);
    TakerFillsTotal(d, o.seqNo, m.fills);
    var taken := TakerFills(d, o.seqNo, m.fills);
    var rest := if m.left > 0 then [ResultPacket(Accepted, d, o.price, m.left, o.seqNo)] else [];
    var e := Entry(o.price, c, m.left, o.seqNo);
    OrderProcessed(s, up, live, down, taken, m.left, rest, if m.left > 0 then [e] else []);
    TakerReports(b, c, o);
    ReportsAppend(p.down, Routed(Push(b, c, o).results, c), d);
    TradeBook(b, c, o);
    if m.left > 0 {
      InsertOwn(b.On(d), d, e, c);
    }
  }

  /** The reports of a trade that the taker sees on its own side. */
  lemma TakerReports(b: Book, c: int, o: OrderPacket)
    requires Tradable(o)
    ensures var m := MatchFor(b, o);
            Reports(Routed(Push(b, c, o).results, c), o.side)
            == TakerFills(o.side, o.seqNo, m.fills)
               + (if m.left > 0 then [ResultPacket(Accepted, o.side, o.price, m.left, o.seqNo)] else [])
  {
    var d, m := o.side, MatchFor(b, o);
    var fills := FillResults(c, o.seqNo, d, m.fills);
    FillReports(c, o.seqNo, d, m.fills, c, d);
    if m.left > 0 {
      var accepted := OrderResult(c, Accepted, d, o.price, m.left, o.seqNo);
      RoutedAppend(fills, [accepted], c);
      ReportsAppend(Routed(fills, c), Routed([accepted], c), d);
      ReportsOfOne(accepted, c, d);
    }
  }

  lemma NewOrderIsTradable(s: SideState, up: seq<OrderPacket>, live: seq<Entry>, down: seq<ResultPacket>)
    requires Agrees(s, up, live, down) && up != [] && !IsCancel(up[0])
    ensures Tradable(up[0]) && live == []
  {
  }

  lemma AgreesLive(s: SideState, up: seq<OrderPacket>, live: seq<Entry>, down: seq<ResultPacket>)
    requires Agrees(s, up, live, down)
    ensures |live| <= 1
  {
  }

  /** The maker's view of a trade, on the side opposite to the taker's. */
  lemma MakerOk(b: Book, c: int, p: Peer, id: int, o: OrderPacket)
    requires WellFormed(b) && PeerOk(b, c, p) && Tradable(o) && (c == id ==> p.up != [] && p.up[0] == o)
    ensures var out := Push(b, id, o); SideOk(out.book, c, AfterEngine(c, p, id, out.results), Opposite(o.side))
  {
    var d := Opposite(o.side);
    var s, up, down, live := p.client.Of(d), Orders(p.up, d), Reports(p.down, d), Own(b.On(d), c);
    assert SideOk(b, c, p, d);
    var m := MatchFor(b, o);
    var more := MakerFills(d, m.fills, c);
    AgreesLive(s, up, live, down);
    if live == [] {
      NotOwner(b.On(d), o.side, o.price, o.qty, c);
      assert down + more == down;
    } else {
      SoleOwner(b.On(d), o.side, o.price, o.qty, c, d);
      MakerTouchedOk(s, up, live, down, d, more, Own(m.rest, c));
    }
    TradeReports(b, id, o, c, d);
    TradeBook(b, id, o);
    ReportsAppend(p.down, Routed(Push(b, id, o).results, c), d);
    OtherSideOrders(p, c == id, o);
  }

  lemma MakerTouchedOk(s: SideState, up: seq<OrderPacket>, live: seq<Entry>, down: seq<ResultPacket>,
                       d: Side, more: seq<ResultPacket>, after: seq<Entry>)
    requires Agrees(s, up, live, down) && |live| == 1 && MakerTouched(live[0], after, d, more)
    ensures Agrees(s, up, after, down + more)
  {
    if after == [live[0]] && more == [] {
      assert down + more == down && after == live;
    } else {
      MakerFilled(s, up, live, down, more[0], after);
      assert more == [more[0]];
    }
  }

  lemma OtherSideOrders(p: Peer, mine: bool, o: OrderPacket)
    requires mine ==> p.up != [] && p.up[0] == o
    ensures Orders(if mine && p.up != [] then p.up[1..] else p.up, Opposite(o.side)) == Orders(p.up, Opposite(o.side))
  {
  }

  /** The reports of a trade that one client sees on one side, but for the taker's own side. */
  lemma TradeReports(b: Book, id: int, o: OrderPacket, c: int, d: Side)
    requires Tradable(o) && (d != o.side || c != id)
    ensures Reports(Routed(Push(b, id, o).results, c), d)
         == if d == o.side then [] else MakerFills(d, MatchFor(b, o).fills, c)
  {
    var m := MatchFor(b, o);
    var fills := FillResults(id, o.seqNo, o.side, m.fills);
    FillReports(id, o.seqNo, o.side, m.fills, c, d);
    if m.left > 0 {
      var accepted := OrderResult(id, Accepted, o.side, o.price, m.left, o.seqNo);
      RoutedAppend(fills, [accepted], c);
      ReportsAppend(Routed(fills, c), Routed([accepted], c), d);
      ReportsOfOne(accepted, c, d);
    }
  }

  /** A trade by someone else leaves a client's same side alone. */
  lemma BystanderOk(b: Book, c: int, p: Peer, id: int, o: OrderPacket)
    requires PeerOk(b, c, p) && Tradable(o) && c != id
    ensures var out := Push(b, id, o); SideOk(out.book, c, AfterEngine(c, p, id, out.results), o.side)
  {
    var d := o.side;
    assert SideOk(b, c, p, d);
    TradeReports(b, id, o, c, d);
    TradeBook(b, id, o);
    ReportsAppend(p.down, Routed(Push(b, id, o).results, c), d);
    assert Reports(p.down, d) + [] == Reports(p.down, d);
    var m := MatchFor(b, o);
    if m.left > 0 {
      InsertOwn(b.On(d), d, Entry(o.price, id, m.left, o.seqNo), c);
    }
  }

  lemma EngineOk(b: Book, c: int, p: Peer, id: int, o: OrderPacket)
    requires WellFormed(b) && PeerOk(b, c, p) && (IsCancel(o) || Tradable(o))
    requires c == id ==> p.up != [] && p.up[0] == o
    ensures var out := Push(b, id, o); PeerOk(out.book, c, AfterEngine(c, p, id, out.results))
  {
    var out := Push(b, id, o);
    var p' := AfterEngine(c, p, id, out.results);
    if IsCancel(o) {
      CancelOk(b, c, p, id, o, Buy);
      CancelOk(b, c, p, id, o, Sell);
    } else {
      MakerOk(b, c, p, id, o);
      if c == id {
        TakerOk(b, c, p, o);
      } else {
        BystanderOk(b, c, p, id, o);
      }
      assert SideOk(out.book, c, p', o.side) && SideOk(out.book, c, p', Opposite(o.side));
    }
  }

  lemma OwnersStayKnown(b: Book, id: int, o: OrderPacket, ids: set<int>)
    requires OwnersKnown(b.bids, ids) && OwnersKnown(b.asks, ids) && id in ids
    ensures var after := Push(b, id, o).book; OwnersKnown(after.bids, ids) && OwnersKnown(after.asks, ids)
  {
    var own, opp := b.On(o.side), b.On(Opposite(o.side));
    assert OwnersKnown(own, ids) && OwnersKnown(opp, ids);
    var after := Push(b, id, o).book;
    if o.qty == 0 {
      if Has(own, o.price, id) {
        var i := RemovePosition(own, o.price, id);
      }
    } else if Tradable(o) {
      TradeBook(b, id, o);
      MatchSuffix(opp, o.side, o.price, o.qty);
      var m := MatchFor(b, o);
      if m.left > 0 {
        InsertOwners(own, o.side, Entry(o.price, id, m.left, o.seqNo), ids);
      }
    }
    assert OwnersKnown(after.On(o.side), ids) && OwnersKnown(after.On(Opposite(o.side)), ids);
  }

  lemma {:induction false} InsertOwners(entries: seq<Entry>, side: Side, e: Entry, ids: set<int>)
    requires OwnersKnown(entries, ids) && e.clientId in ids
    ensures OwnersKnown(Insert(entries, side, e), ids)
  {
    if entries != [] && !Better(side, e.price, entries[0].price) {
      InsertOwners(entries[1..], side, e, ids);
    }
  }

  // ---- All runs ----

  lemma {:induction false} OwnNone(entries: seq<Entry>, ids: set<int>, c: int)
    requires OwnersKnown(entries, ids) && c !in ids && c != SEED_CLIENT_ID
    ensures Own(entries, c) == []
  {
    if entries != [] {
      OwnNone(entries[1..], ids, c);
    }
  }

  lemma ConnectKeepsInv(s: State, id: int, measuring: bool)
    requires Inv(s)
    ensures Inv(Apply(s, Connect(id, measuring)))
  {
    if id >= 1 && id !in s.peers {
      OwnNone(s.book.bids, s.peers.Keys, id);
      OwnNone(s.book.asks, s.peers.Keys, id);
      var p := Peer(NewClient(true, measuring), [], []);
      assert SideOk(s.book, id, p, Buy) && SideOk(s.book, id, p, Sell);
      var s' := Apply(s, Connect(id, measuring));
      assert s'.peers.Keys == s.peers.Keys + {id};
    }
  }

  lemma HeadIsProper(b: Book, c: int, p: Peer)
    requires PeerOk(b, c, p) && p.up != []
    ensures IsCancel(p.up[0]) || Tradable(p.up[0])
  {
    var o := p.up[0];
    assert SideOk(b, c, p, o.side);
    assert Orders(p.up, o.side)[0] == o;
    if !IsCancel(o) {
      NewOrderIsTradable(p.client.Of(o.side), Orders(p.up, o.side), Own(b.On(o.side), c), Reports(p.down, o.side));
    }
  }

  lemma EngineKeepsInv(s: State, id: int)
    requires Inv(s)
    ensures Inv(Apply(s, Engine(id)))
  {
    if id in s.peers && s.peers[id].up != [] {
      var o := s.peers[id].up[0];
      var s' := Apply(s, Engine(id));
      assert PeerOk(s.book, id, s.peers[id]);
      HeadIsProper(s.book, id, s.peers[id]);
      PushKeepsShape(s.book, id, o);
      OwnersStayKnown(s.book, id, o, s.peers.Keys);
      assert s'.peers.Keys == s.peers.Keys;
      forall c | c in s'.peers
        ensures PeerOk(s'.book, c, s'.peers[c])
      {
        EngineOk(s.book, c, s.peers[c], id, o);
      }
    }
  }

  lemma StepKeepsInv(s: State, step: Step)
    requires Inv(s)
    ensures Inv(Apply(s, step))
  {
    var s' := Apply(s, step);
    match step
    case Connect(id, measuring) => ConnectKeepsInv(s, id, measuring);
    case Engine(id) => EngineKeepsInv(s, id);
    case Target(id, side, desired, orderQty) =>
      if id in s.peers && ValidQty(orderQty) {
        ReconcileOk(s.book, id, s.peers[id], side, desired, orderQty);
        assert s'.peers.Keys == s.peers.Keys;
      }
    case Deliver(id, orderQty) =>
      if id in s.peers && s.peers[id].down != [] && ValidQty(orderQty) {
        DeliverOk(s.book, id, s.peers[id], orderQty);
        assert s'.peers.Keys == s.peers.Keys;
      }
  }

  lemma SeedIsWellFormed()
    ensures WellFormed(SeedBook()) && OwnersKnown(SeedBook().bids, {}) && OwnersKnown(SeedBook().asks, {})
  {
  }

  /** The invariant holds after every sequence of steps, in every interleaving. */
  lemma {:induction false} RunKeepsInv(steps: seq<Step>)
    ensures Inv(Run(steps))
  {
    if steps == [] {
      SeedIsWellFormed();
    } else {
      RunKeepsInv(steps[..|steps| - 1]);
      StepKeepsInv(Run(steps[..|steps| - 1]), steps[|steps| - 1]);
    }
  }
}
