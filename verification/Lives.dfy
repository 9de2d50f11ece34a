/** The guarantees of the order-entry protocol, stated of every life of the whole exchange. */
module Lives {
  import opened Protocol
  import opened FlatBook
  import opened BaseClients
  import opened SideView
  import opened Attribution
  import opened OrderEntry
  import opened OrderSafety
  import opened Accounting
  import opened ServerModel
  import opened System

  /** One client's side: its state, its orders under way, its entries in the engine, its reports under way. */
  function SightOf(x: Exchange, id: int, side: Side): Sight
    requires id in x.clients
  {
    Sight(x.clients[id].Of(side), Orders(Upward(x, id), side), Own(x.server.book.On(side), id),
          Reports(Downward(x, id), side))
  }

  lemma LifeIsRun(events: seq<Event>, id: int)
    requires id in Life(events).clients
    ensures id in Run(AsRun(events)).peers
    ensures Run(AsRun(events)).peers[id] == PeerOf(Life(events), id)
    ensures Run(AsRun(events)).book == Life(events).server.book
  {
    hide Life, AsRun, Run, PeerOf, Seen;
    ExchangeRefinesProtocol(events);
    SeenPeers(Life(events));
  }

  lemma SightIsSeen(events: seq<Event>, id: int, side: Side)
    requires id in Life(events).clients
    ensures id in Run(AsRun(events)).peers && SightOf(Life(events), id, side) == See(Run(AsRun(events)), id, side)
  {
    hide Life, AsRun, Run, Upward, Downward, Orders, Reports, Own;
    LifeIsRun(events, id);
  }

  /** The invariant: reading all that is under way would leave the client in agreement with the engine. */
  lemma EveryClientAgrees(events: seq<Event>, id: int, side: Side)
    requires id in Life(events).clients
    ensures var s := SightOf(Life(events), id, side); Agrees(s.state, s.up, s.live, s.down)
  {
    hide Life, AsRun, Run, SightOf, See, Agrees;
    SightIsSeen(events, id, side);
    AlwaysAgrees(AsRun(events), id, side);
  }

  lemma OneLiveOrderInLife(events: seq<Event>, id: int, side: Side)
    requires id in Life(events).clients
    ensures var s := SightOf(Life(events), id, side);
            && |s.live| + NewOrders(s.up) <= 1 && |s.up| <= 2
            && (s.state.state == Idle ==> s.live == [] && NewOrders(s.up) == 0)
            && (s.live != [] ==> s.live[0].price == s.state.price && s.live[0].qty > 0)
            && (NewOrders(s.up) == 1 ==> s.up[|s.up| - 1].price == s.state.price)
  {
    hide Life, AsRun, Run, SightOf, See, NewOrders;
    SightIsSeen(events, id, side);
    AtMostOneLiveOrder(AsRun(events), id, side);
  }

  lemma NoSideIsStuckInLife(events: seq<Event>, id: int, side: Side)
    requires id in Life(events).clients
    ensures var s := SightOf(Life(events), id, side);
            && (s.state.state == WaitAccepted ==>
                  NewOrders(s.up) == 1 || Announces(s.down, Accepted) || FillTotal(s.down) == s.state.qty)
            && (s.state.state == WaitCanceled ==>
                  || (|s.up| == 1 && IsCancel(s.up[0]))
                  || Announces(s.down, Cancelled) || FillTotal(s.down) == s.state.qty)
  {
    hide Life, AsRun, Run, SightOf, See, NewOrders, Announces, FillTotal;
    SightIsSeen(events, id, side);
    NoSideIsStuck(AsRun(events), id, side);
  }

  lemma QuantitiesAgreeInLife(events: seq<Event>, id: int, side: Side)
    requires id in Life(events).clients && Life(events).clients[id].Of(side).state != Idle
    ensures var s := SightOf(Life(events), id, side);
            && s.state.qty > 0
            && (!Announces(s.down, Cancelled) ==> s.state.qty == Outstanding(s.up, s.live) + FillTotal(s.down))
  {
    hide Life, AsRun, Run, See, Announces, FillTotal, Outstanding, Orders, Own, Reports, Upward, Downward;
    SightIsSeen(events, id, side);
    QuantityAgreement(AsRun(events), id, side);
  }

  /**
   * When the engine thread comes to a cancel, whatever else is queued and whoever has left since: it
   * is refused and the book stays, or it takes the one entry of that client which it was sent for.
   */
  lemma CancelHitsOnlyItsOrderInLife(events: seq<Event>)
    requires var s := Life(events).server; s.inbound != [] && s.inbound[0].order.qty == 0
    ensures var x := Life(events);
            var id, o := x.server.inbound[0].clientId, x.server.inbound[0].order;
            id in x.clients &&
            var s := SightOf(x, id, o.side);
            var out := Push(x.server.book, id, o);
            if s.live == [] then out.book == x.server.book && out.results[0].kind == Reject
            else
              && s.state.state == WaitCanceled && |s.live| == 1 && s.live[0].price == o.price == s.state.price
              && out.results[0].kind == Cancelled && Own(out.book.On(o.side), id) == []
  {
    hide Life, AsRun, Run, Push, See, SightOf, StreamOk;
    var x := Life(events);
    var id, o := x.server.inbound[0].clientId, x.server.inbound[0].order;
    LifeOk(events);
    LifeIsRun(events, id);
    PeerParts(x, id);
    assert Upward(x, id)[0] == o;
    SightIsSeen(events, id, o.side);
    CancelHitsOnlyItsOrder(AsRun(events), id);
  }

  /** The next report a client reads finds it in a phase that has a use for it. */
  lemma EveryReportIsExpectedInLife(events: seq<Event>, id: int)
    requires id in Life(events).clients && Unread(Life(events), id) != []
    ensures var x := Life(events);
            var r := Unread(x, id)[0];
            var s := x.clients[id].Of(r.side);
            match r.kind
            case Accepted => s.state == WaitAccepted
            case Cancelled => s.state == WaitCanceled
            case Reject => s.state == Idle || s.state == WaitAccepted
            case Success => s.state != Idle && 0 < r.qty <= s.qty
  {
    hide Life, AsRun, Run, Unread, StreamOk, ServerInv;
    LifeOk(events);
    LifeIsRun(events, id);
    var x := Life(events);
    assert id in x.taken && StreamOk(x, id);
    TookSeen(x, id, id);
    PeerParts(x, id);
    EveryReportIsExpected(AsRun(events), id);
  }

  /**
   * A measuring client that joined at any time: in flight is exactly what it sent and saw no answer to,
   * each answered order has one line in the log, and both record the order that was really sent.
   */
  lemma ExactlyOnceInLife(events: seq<Event>, id: int)
    requires id in Life(events).clients && Life(events).clients[id].measuring
    ensures var c := Life(events).clients[id];
            && (forall k :: k in c.inflight <==> 1 <= k < c.nextSeq && k !in c.received)
            && (forall k :: Logged(c.log, k) <==> k in c.received)
            && LoggedOnce(c.log) && RecordsOk(c)
  {
    hide Life, AsRun, Run, RecordsOk, Logged, LoggedOnce;
    LifeIsRun(events, id);
    PeerParts(Life(events), id);
    ExactlyOnce(AsRun(events), id);
  }
}
