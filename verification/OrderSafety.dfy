/** What the order-entry protocol guarantees to every client, after every run. */
module OrderSafety {
  import opened Protocol
  import opened FlatBook
  import opened BaseClients
  import opened SideView
  import opened Attribution
  import opened OrderEntry

  /** One client's side in a state of the exchange: state, orders under way, entries, reports under way. */
  datatype Sight = Sight(state: SideState, up: seq<OrderPacket>, live: seq<Entry>, down: seq<ResultPacket>)

  function See(s: State, c: int, side: Side): Sight
    requires c in s.peers
  {
    var p := s.peers[c];
    Sight(p.client.Of(side), Orders(p.up, side), Own(s.book.On(side), c), Reports(p.down, side))
  }

  lemma AlwaysAgrees(steps: seq<Step>, c: int, side: Side)
    requires c in Run(steps).peers
    ensures var x := See(Run(steps), c, side); Agrees(x.state, x.up, x.live, x.down)
  {
    RunKeepsInv(steps);
    assert PeerOk(Run(steps).book, c, Run(steps).peers[c]);
    assert SideOk(Run(steps).book, c, Run(steps).peers[c], side);
  }

  /** Counting undelivered orders and book entries, a side never has two live orders, and an idle one has none. */
  lemma AtMostOneLiveOrder(steps: seq<Step>, c: int, side: Side)
    requires c in Run(steps).peers
    ensures var x := See(Run(steps), c, side);
            && |x.live| + NewOrders(x.up) <= 1 && |x.up| <= 2
            && (x.state.state == Idle ==> x.live == [] && NewOrders(x.up) == 0)
            && (x.live != [] ==> x.live[0].price == x.state.price && x.live[0].qty > 0)
            && (NewOrders(x.up) == 1 ==> x.up[|x.up| - 1].price == x.state.price)
  {
    AlwaysAgrees(steps, c, side);
    var x := See(Run(steps), c, side);
    OneLiveOrder(x.state, x.up, x.live, x.down);
  }

  /**
   * A cancel names only a side and a price. When the engine comes to one, either the client has
   * nothing on that side and the cancel is refused, or it has the one entry the cancel was sent for.
   */
  lemma CancelHitsOnlyItsOrder(steps: seq<Step>, c: int)
    requires var s := Run(steps); c in s.peers && s.peers[c].up != [] && s.peers[c].up[0].qty == 0
    ensures var s := Run(steps);
            var o := s.peers[c].up[0];
            var x := See(s, c, o.side);
            var out := Push(s.book, c, o);
            if x.live == [] then out.book == s.book && out.results[0].kind == Reject
            else
              && x.state.state == WaitCanceled && |x.live| == 1
              && x.live[0].price == o.price == x.state.price
              && out.results[0].kind == Cancelled && Own(out.book.On(o.side), c) == []
  {
    var s := Run(steps);
    var o := s.peers[c].up[0];
    AlwaysAgrees(steps, c, o.side);
    var x := See(s, c, o.side);
    assert x.up[0] == o;
    CancelFindsItsOrder(x.state, x.up, x.live, x.down);
    if x.live == [] {
      HasNone(s.book.On(o.side), o.price, c);
    } else {
      RemoveOwn(s.book.On(o.side), o.price, c);
    }
  }

  /**
   * The next report finds its client in a phase that has a use for it: a refusal only when idle or
   * waiting for a registration, where ignoring it is right; an execution never exceeds what the client
   * has working, so its quantity never goes negative and it turns idle exactly on full execution.
   */
  lemma EveryReportIsExpected(steps: seq<Step>, c: int)
    requires var s := Run(steps); c in s.peers && s.peers[c].down != []
    ensures var r := Run(steps).peers[c].down[0];
            var s := Run(steps).peers[c].client.Of(r.side);
            match r.kind
            case Accepted => s.state == WaitAccepted
            case Cancelled => s.state == WaitCanceled
            case Reject => s.state == Idle || s.state == WaitAccepted
            case Success => s.state != Idle && 0 < r.qty <= s.qty
  {
    var r := Run(steps).peers[c].down[0];
    AlwaysAgrees(steps, c, r.side);
    var x := See(Run(steps), c, r.side);
    assert x.down[0] == r;
    ReportIsExpected(x.state, x.up, x.live, x.down);
  }

  /** A waiting side always has on its way what it waits for, or executions of all it has working. */
  lemma NoSideIsStuck(steps: seq<Step>, c: int, side: Side)
    requires c in Run(steps).peers
    ensures var x := See(Run(steps), c, side);
            && (x.state.state == WaitAccepted ==>
                  NewOrders(x.up) == 1 || Announces(x.down, Accepted) || FillTotal(x.down) == x.state.qty)
            && (x.state.state == WaitCanceled ==>
                  || (|x.up| == 1 && IsCancel(x.up[0]))
                  || Announces(x.down, Cancelled) || FillTotal(x.down) == x.state.qty)
  {
    AlwaysAgrees(steps, c, side);
    var x := See(Run(steps), c, side);
    NeverStuck(x.state, x.up, x.live, x.down);
  }

  /** What a client believes it has working is what the engine holds or will get, plus executions under way. */
  lemma QuantityAgreement(steps: seq<Step>, c: int, side: Side)
    requires c in Run(steps).peers && See(Run(steps), c, side).state.state != Idle
    ensures var x := See(Run(steps), c, side);
            && x.state.qty > 0
            && (!Announces(x.down, Cancelled) ==> x.state.qty == Outstanding(x.up, x.live) + FillTotal(x.down))
  {
    AlwaysAgrees(steps, c, side);
    var x := See(Run(steps), c, side);
    QuantitiesAgree(x.state, x.up, x.live, x.down);
  }

  /** With nothing in flight, a side is idle with no order in the book or resting with exactly its order there. */
  lemma QuietClientAgrees(steps: seq<Step>, c: int, side: Side)
    requires c in Run(steps).peers && Run(steps).peers[c].up == [] && Run(steps).peers[c].down == []
    ensures var x := See(Run(steps), c, side);
            if x.live == [] then x.state.state == Idle
            else x.state.state == Resting && Works(x.live, x.state.price, x.state.qty)
  {
    AlwaysAgrees(steps, c, side);
    var x := See(Run(steps), c, side);
    QuietSide(x.state, x.live);
  }
}
