/**
 * What the market data channel publishes, end to end: every packet a subscriber is sent is the packet
 * of a book the engine really had, later packets of later books, and a quote read from it is true.
 */
module Publication {
  import opened Protocol
  import opened FlatBook
  import opened Codec
  import opened Depth
  import opened PriceTime
  import opened Strategy
  import opened DepthWalk
  import opened Sessions
  import opened OrderEntry
  import opened ServerModel
  import opened Servers

  // ---- The seed is a run like any other ----

  function SeedInputs(n: nat): seq<Input> {
    if n == 0 then []
    else
      SeedInputs(n - 1)
      + [Input(SEED_CLIENT_ID, SeedOrder(Buy, n - 1)), Input(SEED_CLIENT_ID, SeedOrder(Sell, n - 1))]
  }

  lemma ReplaySnoc(b: Book, ins: seq<Input>, x: Input)
    ensures Replay(b, ins + [x]) == Push(Replay(b, ins), x.clientId, x.order).book
  {
    assert (ins + [x])[..|ins|] == ins;
  }

  lemma {:induction false} SeedReplay(n: nat)
    requires n <= NUM_LAYERS
    ensures Replay(EMPTY_BOOK, SeedInputs(n)) == Book(SeedSide(Buy, n), SeedSide(Sell, n))
  {
    hide Push;
    if n > 0 {
      var before, bid, ask := SeedInputs(n - 1), SeedOrder(Buy, n - 1), SeedOrder(Sell, n - 1);
      SeedReplay(n - 1);
      var b := Replay(EMPTY_BOOK, before);
      SeedPush(b, Buy, n - 1);
      SeedPush(b.With(Buy, SeedSide(Buy, n)), Sell, n - 1);
      ReplaySnoc(EMPTY_BOOK, before, Input(SEED_CLIENT_ID, bid));
      ReplaySnoc(EMPTY_BOOK, before + [Input(SEED_CLIENT_ID, bid)], Input(SEED_CLIENT_ID, ask));
      assert SeedInputs(n) == (before + [Input(SEED_CLIENT_ID, bid)]) + [Input(SEED_CLIENT_ID, ask)];
    }
  }

  lemma {:induction false} ReplayAppend(b: Book, a: seq<Input>, c: seq<Input>)
    ensures Replay(b, a + c) == Replay(Replay(b, a), c)
  {
    hide Push;
    if c == [] {
      assert a + c == a;
    } else {
      var n := |c| - 1;
      ReplayAppend(b, a, c[..n]);
      ReplaySnoc(b, a + c[..n], c[n]);
      assert a + c == (a + c[..n]) + [c[n]];
    }
  }

  /** What is proved of runs from the empty book is true of every book a server ever has. */
  lemma ServerBookIsRun(steps: seq<ServerStep>)
    ensures ServerRun(steps).book == Replay(EMPTY_BOOK, SeedInputs(NUM_LAYERS) + ServerRun(steps).log)
    ensures WellFormed(ServerRun(steps).book)
  {
    hide Push, ServerNext, Replay;
    SeedReplay(NUM_LAYERS);
    LatestBookIsReplay(steps);
    ReplayAppend(EMPTY_BOOK, SeedInputs(NUM_LAYERS), ServerRun(steps).log);
    SeedIsWellFormed();
    ReplayKeepsShape(SeedBook(), ServerRun(steps).log);
  }

  // ---- Packets and the books they were taken from ----

  /** The packets are those of books along the replay of the log, in order, none after order k. */
  ghost predicate Timeline(log: seq<Input>, k: nat, packets: seq<Packet>)
    requires k <= |log|
    decreases |packets|
  {
    packets == []
    || exists j: nat :: j <= k && packets[|packets| - 1] == Snapshot(BookAt(log, j))
                        && Timeline(log, j, packets[..|packets| - 1])
  }

  lemma {:induction false} TimelineLater(log: seq<Input>, more: seq<Input>, k: nat, k': nat, packets: seq<Packet>)
    requires k <= |log| && k <= k' <= |log + more| && Timeline(log, k, packets)
    ensures Timeline(log + more, k', packets)
    decreases |packets|
  {
    hide Snapshot, BookAt;
    if packets != [] {
      var j: nat :| j <= k && packets[|packets| - 1] == Snapshot(BookAt(log, j))
                    && Timeline(log, j, packets[..|packets| - 1]);
      TimelineLater(log, more, j, j, packets[..|packets| - 1]);
      BookAtPrefix(log, more, j);
    }
  }

  lemma BookAtPrefix(log: seq<Input>, more: seq<Input>, j: nat)
    requires j <= |log|
    ensures BookAt(log + more, j) == BookAt(log, j)
  {
    assert (log + more)[..j] == log[..j];
  }

  lemma TimelineNext(log: seq<Input>, k: nat, k': nat, packets: seq<Packet>)
    requires k <= k' <= |log| && Timeline(log, k, packets)
    ensures Timeline(log, k', packets + [Snapshot(BookAt(log, k'))])
  {
    hide Snapshot, BookAt;
    var all := packets + [Snapshot(BookAt(log, k'))];
    assert all[..|packets|] == packets;
    assert log + [] == log;
    TimelineLater(log, [], k, k', packets);
  }

  lemma TimelineOfNone(log: seq<Input>, k: nat)
    requires k <= |log|
    ensures Timeline(log, k, [])
  {
  }

  /** Leaving packets out does not disturb the order of the rest. */
  lemma {:induction false} TimelineOfSubsequence(log: seq<Input>, k: nat, a: seq<Packet>, b: seq<Packet>)
    requires k <= |log| && Timeline(log, k, b) && Subsequence(a, b)
    ensures Timeline(log, k, a)
    decreases |b|
  {
    hide Snapshot, BookAt;
    if a != [] {
      var n := |b| - 1;
      var j: nat :| j <= k && b[n] == Snapshot(BookAt(log, j)) && Timeline(log, j, b[..n]);
      if Subsequence(a, b[..n]) {
        TimelineOfSubsequence(log, j, a, b[..n]);
        assert log + [] == log;
        TimelineLater(log, [], j, k, a);
      } else {
        TimelineOfSubsequence(log, j, a[..|a| - 1], b[..n]);
      }
    }
  }

  ghost predicate OffersOnTime(s: ServerState)
    requires |s.posts| <= |s.log|
  {
    forall id <- s.md :: Timeline(s.log, |s.log| - |s.posts|, s.md[id].offered)
  }

  lemma EngineKeepsOffers(s: ServerState)
    requires ServerInv(s) && OffersOnTime(s)
    ensures |Engined(s).posts| <= |Engined(s).log| && OffersOnTime(Engined(s))
  {
    hide Push, PostFor, PostsOk, SessionsOk, Timeline;
    if s.inbound != [] {
      var k := |s.log| - |s.posts|;
      forall id | id in s.md ensures Timeline(s.log + [s.inbound[0]], k, s.md[id].offered) {
        TimelineLater(s.log, [s.inbound[0]], k, k, s.md[id].offered);
      }
    }
  }

  lemma IoKeepsOffers(s: ServerState)
    requires ServerInv(s) && OffersOnTime(s)
    ensures |Published(s).posts| <= |Published(s).log| && OffersOnTime(Published(s))
  {
    hide Push, PostFor, PostsOk, SessionsOk, Timeline, Snapshot, Sent, BookAt;
    if s.posts != [] {
      var k := |s.log| - |s.posts|;
      assert s.log + [] == s.log;
      IoTurnPosts(s, k);
      CleanPostKeepsBook(s.log, k);
      forall id | id in s.md ensures Timeline(s.log, k + 1, Published(s).md[id].offered) {
        if s.posts[0].snapshot.Some? {
          TimelineNext(s.log, k, k + 1, s.md[id].offered);
        } else {
          TimelineLater(s.log, [], k, k + 1, s.md[id].offered);
        }
      }
    }
  }

  lemma AcceptKeepsOffers(s: ServerState)
    requires ServerInv(s) && OffersOnTime(s)
    ensures |ServerNext(s, MdAccept).posts| <= |s.log| && OffersOnTime(ServerNext(s, MdAccept))
  {
    hide Push, PostFor, PostsOk, SessionsOk, Snapshot, BookAt, Timeline, IdsBelow;
    var k := |s.log| - |s.posts|;
    var none: seq<Packet> := [];
    TimelineOfNone(s.log, k);
    TimelineNext(s.log, k, k, none);
    assert none + [s.latest] == [s.latest];
  }

  lemma StepKeepsOffers(s: ServerState, step: ServerStep)
    requires ServerInv(s) && OffersOnTime(s)
    ensures |ServerNext(s, step).posts| <= |ServerNext(s, step).log| && OffersOnTime(ServerNext(s, step))
  {
    hide Push, PostsOk, SessionsOk, Timeline, Snapshot, Engined, Published;
    match step
    case EngineTurn => EngineKeepsOffers(s);
    case IoTurn => IoKeepsOffers(s);
    case MdAccept => AcceptKeepsOffers(s);
    case _ =>
  }

  lemma {:induction false} RunKeepsOffers(steps: seq<ServerStep>)
    ensures |ServerRun(steps).posts| <= |ServerRun(steps).log| && OffersOnTime(ServerRun(steps))
  {
    hide ServerNext, Timeline, ServerInv;
    if steps != [] {
      var before := steps[..|steps| - 1];
      RunKeepsOffers(before);
      ServerRunOk(before);
      StepKeepsOffers(ServerRun(before), steps[|steps| - 1]);
    }
  }

  /**
   * Everything written to a subscriber is, in order, the packet of the sequential engine's book after
   * some prefix of the orders, and never of an earlier one than the packet before it. With all posted
   * work run and the writer ended, the last of them shows the engine's present book.
   */
  lemma SubscriberSeesRealBooks(steps: seq<ServerStep>, id: int)
    requires id in ServerRun(steps).md
    ensures var s := ServerRun(steps);
            var sent := s.md[id].sent;
            && |s.posts| <= |s.log| && Timeline(s.log, |s.log| - |s.posts|, sent)
            && (s.posts == [] && s.md[id].writer.MdOff? ==> sent != [] && sent[|sent| - 1] == Snapshot(s.book))
  {
    hide ServerNext, Timeline, Snapshot, Push, Subsequence;
    var s := ServerRun(steps);
    RunKeepsOffers(steps);
    SubscriberIsFresh(steps, id);
    TimelineOfSubsequence(s.log, |s.log| - |s.posts|, s.md[id].sent, s.md[id].offered);
    LatestBookIsReplay(steps);
    assert s.log[..|s.log|] == s.log;
  }

  lemma {:induction false} TimelineAt(log: seq<Input>, k: nat, packets: seq<Packet>, i: nat) returns (j: nat)
    requires k <= |log| && Timeline(log, k, packets) && i < |packets|
    ensures j <= k && packets[i] == Snapshot(BookAt(log, j))
    decreases |packets|
  {
    hide Snapshot, BookAt;
    var n := |packets| - 1;
    var last: nat :| last <= k && packets[n] == Snapshot(BookAt(log, last)) && Timeline(log, last, packets[..n]);
    if i == n {
      j := last;
    } else {
      j := TimelineAt(log, last, packets[..n], i);
    }
  }

  /** Walking the depth of a packet of book b for q against what b would give. */
  ghost predicate TellsTheTruth(b: Book, o: OrderPacket, r: Option<int>) {
    var levels := Aggregate(b.On(Opposite(o.side)));
    var truth := LastPrice(MatchFor(b, o));
    if o.qty > ShownDepth(levels) then r == None
    else
      exists i: nat :: i < NUM_LAYERS && i < |levels| && truth == Some(levels[i].price)
                       && (r == truth <==> Legible(levels, i))
  }

  /**
   * From the engine through the posts, the cached packet, the pending slot, the writer and the decoder
   * to the strategy: whatever packet a subscriber was sent, the price its depth walk finds for q is the
   * price of the last fill an order of size q, unlimited in price, would have got from the book of some
   * moment of the sequential run, with the two exceptions of too little shown depth and unfit fields.
   */
  lemma QuotesAreTrue(steps: seq<ServerStep>, id: int, i: nat, v: Orderbook) returns (b: Book)
    requires id in ServerRun(steps).md && i < |ServerRun(steps).md[id].sent|
    requires IsParsed(ServerRun(steps).md[id].sent[i], v)
    ensures exists j: nat :: j <= |ServerRun(steps).log| && b == BookAt(ServerRun(steps).log, j)
    ensures WellFormed(b) && IsParsed(Snapshot(b), v)
    ensures forall o, r | TakesAnything(b, o)
                          && IsQuote(ShownPrices(v, Opposite(o.side)), ShownQtys(v, Opposite(o.side)), o.qty, r) ::
              TellsTheTruth(b, o, r)
  {
    hide ServerNext, Timeline, Snapshot, Push, Replay, IsParsed, IsQuote, LastPrice, ShownDepth, WellFormed, Legible;
    var s := ServerRun(steps);
    SubscriberSeesRealBooks(steps, id);
    var j := TimelineAt(s.log, |s.log| - |s.posts|, s.md[id].sent, i);
    b := BookAt(s.log, j);
    SeedIsWellFormed();
    ReplayKeepsShape(SeedBook(), s.log[..j]);
    forall o, r | TakesAnything(b, o)
                  && IsQuote(ShownPrices(v, Opposite(o.side)), ShownQtys(v, Opposite(o.side)), o.qty, r)
      ensures TellsTheTruth(b, o, r)
    {
      PublishedDepthIsTrue(b, o, v, r);
    }
  }
}
