/** A run of the server after which its published book, read back, gives a quote with bid above ask. */
module CrossedQuote {
  import opened Protocol
  import opened FlatBook
  import opened Codec
  import opened Depth
  import opened PriceTime
  import opened Strategy
  import opened DepthWalk
  import opened Sessions
  import opened OrderEntry
  import opened ServerModel

  const SWEEP := OrderPacket(Buy, 99999, 251, 1)
  const FAR_ASK := OrderPacket(Sell, 100000, 1, 1)

  /** One client buys all the seeded asks and one more at 99999, another then offers at 100000. */
  const CROSSING_RUN: seq<ServerStep> :=
    [OeAccept, OeAccept, OeReceive(1, SWEEP), OeReceive(2, FAR_ASK), EngineTurn, EngineTurn, IoTurn, IoTurn]

  lemma {:induction false} VolumeOfEqual(entries: seq<Entry>, qty: int)
    requires forall i :: 0 <= i < |entries| ==> entries[i].qty == qty
    ensures Volume(entries) == qty * |entries|
  {
    if entries != [] {
      VolumeOfEqual(entries[1..], qty);
    }
  }

  lemma SweepLeaves()
    ensures Push(SeedBook(), 1, SWEEP).book == Book([Entry(99999, 1, 1, 1)] + SeedBook().bids, [])
  {
    hide Match;
    SeedIsWellFormed();
    var asks := SeedBook().asks;
    VolumeOfEqual(asks, SEED_QTY);
    MatchSweeps(asks, Buy, 99999, 251);
    assert SeedBook().bids[0].price == 99;
    TradeBook(SeedBook(), 1, SWEEP);
  }

  lemma FarAskRests()
    ensures var bids := [Entry(99999, 1, 1, 1)] + SeedBook().bids;
            Push(Book(bids, []), 2, FAR_ASK).book == Book(bids, [Entry(100000, 2, 1, 1)])
  {
    var b := Book([Entry(99999, 1, 1, 1)] + SeedBook().bids, []);
    assert MatchFor(b, FAR_ASK) == MatchOut(b.bids, [], 1);
    TradeBook(b, 2, FAR_ASK);
  }

  /** How far the orders have come, and that clients 1 to n are connected. */
  ghost predicate Track(s: ServerState, n: nat, inbound: seq<Input>, log: seq<Input>, posts: nat) {
    && s.nextOe == n + 1 && (forall id :: 1 <= id <= n ==> id in s.oe)
    && s.inbound == inbound && s.log == log && |s.posts| == posts
  }

  lemma TrackAccept(s: ServerState, n: nat)
    requires Track(s, n, [], [], 0)
    ensures Track(ServerNext(s, OeAccept), n + 1, [], [], 0)
  {
  }

  lemma TrackReceive(s: ServerState, n: nat, inbound: seq<Input>, x: Input)
    requires Track(s, n, inbound, [], 0) && 1 <= x.clientId <= n
    ensures Track(ServerNext(s, OeReceive(x.clientId, x.order)), n, inbound + [x], [], 0)
  {
  }

  lemma TrackEngine(s: ServerState, n: nat, x: Input, inbound: seq<Input>, log: seq<Input>, posts: nat)
    requires Track(s, n, [x] + inbound, log, posts)
    ensures Track(ServerNext(s, EngineTurn), n, inbound, log + [x], posts + 1)
  {
    hide Push, PostFor;
  }

  lemma TrackIo(s: ServerState, n: nat, log: seq<Input>, posts: nat)
    requires Track(s, n, [], log, posts) && posts > 0
    ensures Track(ServerNext(s, IoTurn), n, [], log, posts - 1)
  {
    hide OeQueuedAll, Routed, Broadcast;
  }

  lemma ServerRunNext(all: seq<ServerStep>, k: nat)
    requires k < |all|
    ensures ServerRun(all[..k + 1]) == ServerNext(ServerRun(all[..k]), all[k])
  {
    hide ServerNext;
    assert all[..k + 1][..k] == all[..k];
  }

  lemma CrossingQueues()
    ensures Track(ServerRun(CROSSING_RUN), 2, [], [Input(1, SWEEP), Input(2, FAR_ASK)], 0)
  {
    hide ServerRun, ServerNext, Track;
    var all, x, y := CROSSING_RUN, Input(1, SWEEP), Input(2, FAR_ASK);
    BothOrdersQueued(all, x, y);
    BothOrdersServed(all, x, y);
    assert all[..8] == all;
  }

  lemma BothOrdersQueued(all: seq<ServerStep>, x: Input, y: Input)
    requires |all| == 8 && all[0] == all[1] == OeAccept && x.clientId == 1 && y.clientId == 2
    requires all[2] == OeReceive(1, x.order) && all[3] == OeReceive(2, y.order)
    ensures Track(ServerRun(all[..4]), 2, [x, y], [], 0)
  {
    var none: seq<Input> := [];
    assert Track(ServerRun(all[..0]), 0, none, none, 0);
    hide ServerRun, ServerNext, Track;
    ServerRunNext(all, 0);
    TrackAccept(ServerRun(all[..0]), 0);
    ServerRunNext(all, 1);
    TrackAccept(ServerRun(all[..1]), 1);
    ServerRunNext(all, 2);
    TrackReceive(ServerRun(all[..2]), 2, none, x);
    assert none + [x] == [x];
    ServerRunNext(all, 3);
    TrackReceive(ServerRun(all[..3]), 2, [x], y);
    assert [x] + [y] == [x, y];
  }

  lemma BothOrdersServed(all: seq<ServerStep>, x: Input, y: Input)
    requires |all| == 8 && all[4] == all[5] == EngineTurn && all[6] == all[7] == IoTurn
    requires Track(ServerRun(all[..4]), 2, [x, y], [], 0)
    ensures Track(ServerRun(all[..8]), 2, [], [x, y], 0)
  {
    hide ServerRun, ServerNext, Track;
    var none: seq<Input> := [];
    assert [x] + [y] == [x, y] && none + [x] == [x] && [y] + none == [y];
    ServerRunNext(all, 4);
    TrackEngine(ServerRun(all[..4]), 2, x, [y], none, 0);
    ServerRunNext(all, 5);
    TrackEngine(ServerRun(all[..5]), 2, y, none, [x], 1);
    ServerRunNext(all, 6);
    TrackIo(ServerRun(all[..6]), 2, [x, y], 2);
    ServerRunNext(all, 7);
    TrackIo(ServerRun(all[..7]), 2, [x, y], 1);
  }

  /** The packet then cached, read by anyone, gives a quote with its bid at 99999 and its ask at 0. */
  lemma QuoteCanCross()
    ensures forall v | IsParsed(ServerRun(CROSSING_RUN).latest, v) ::
              IsBestPrice(v, 1, 0, Some(BestPrice(99999, 0)))
  {
    hide Push, SeedBook, Snapshot, ServerRun, IsParsed;
    var x, y := Input(1, SWEEP), Input(2, FAR_ASK);
    CrossingQueues();
    LatestBookIsReplay(CROSSING_RUN);
    assert [x, y][..2] == [x, y] && [x, y][..1] == [x] && [x][..0] == [];
    SweepLeaves();
    FarAskRests();
    var b := Book([Entry(99999, 1, 1, 1)] + SeedBook().bids, [Entry(100000, 2, 1, 1)]);
    assert Replay(SeedBook(), [x]) == Book(b.bids, []);
    assert Replay(SeedBook(), [x, y]) == b;
    forall v | IsParsed(Snapshot(b), v) ensures IsBestPrice(v, 1, 0, Some(BestPrice(99999, 0))) {
      CrossedFrom(b, v);
    }
  }

  lemma CrossedFrom(b: Book, v: Orderbook)
    requires b == Book([Entry(99999, 1, 1, 1)] + SeedBook().bids, [Entry(100000, 2, 1, 1)])
    requires IsParsed(Snapshot(b), v)
    ensures IsBestPrice(v, 1, 0, Some(BestPrice(99999, 0)))
  {
    hide Snapshot, IsParsed;
    DecodedSide(b, v, Buy);
    DecodedSide(b, v, Sell);
    FieldLimits();
    assert b.bids[1..] == SeedBook().bids && SeedBook().bids[0].price == 99;
    assert Aggregate(b.bids)[0] == Level(99999, 1) && Aggregate(b.asks) == [Level(100000, 1)];
    var bq, aq := v.bidQty, v.askQty;
    assert ShownPrices(v, Buy) == v.bidPrice && ShownPrices(v, Sell) == v.askPrice;
    assert bq[0] == 1 && aq[0] == 1 && v.bidPrice[0] == 99999 && v.askPrice[0] == 0;
    assert Total(bq[..1]) == 1 by { assert bq[..1][..0] == []; }
    assert Total(aq[..1]) == 1 by { assert aq[..1][..0] == []; }
    assert StopsAt(bq, 1, 0) && StopsAt(aq, 1, 0);
  }
}
