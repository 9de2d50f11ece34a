/** The server's objects: the engine, its inbound queue, the io thread's posted work and the sessions. */
module Servers {
  import opened Protocol
  import opened FlatBook
  import opened LevelMaps
  import opened Codec
  import opened Depth
  import opened MatchingEngines
  import opened ConcurrentQueues
  import opened Sessions
  import opened OrderEntry
  import opened ServerModel

  method AnyOf<T(==)>(s: set<T>) returns (x: T)
    requires s != {}
    ensures x in s
  {
    x :| x in s;
  }

  // ---- The seed orders ----

  function SeedOrder(side: Side, i: nat): OrderPacket {
    OrderPacket(side, if side == Buy then SEED_MID - 1 - i else SEED_MID + 1 + i, SEED_QTY, 0)
  }

  lemma SeedInsert(side: Side, i: nat)
    ensures Insert(SeedSide(side, i), side,
                   Entry(SeedOrder(side, i).price, SEED_CLIENT_ID, SEED_QTY, 0)) == SeedSide(side, i + 1)
  {
    var e := Entry(SeedOrder(side, i).price, SEED_CLIENT_ID, SEED_QTY, 0);
    InsertSkips(SeedSide(side, i), [], side, e);
    assert SeedSide(side, i) + [] == SeedSide(side, i);
    assert SeedSide(side, i) + [e] == SeedSide(side, i + 1);
  }

  /** The next seed order of a side meets nothing that crosses and queues at the end. */
  lemma SeedPush(b: Book, side: Side, i: nat)
    requires b.On(side) == SeedSide(side, i) && i < NUM_LAYERS
    requires b.On(Opposite(side)) == SeedSide(Opposite(side), i)
          || b.On(Opposite(side)) == SeedSide(Opposite(side), i + 1)
    ensures Push(b, SEED_CLIENT_ID, SeedOrder(side, i)).book == b.With(side, SeedSide(side, i + 1))
  {
    var o := SeedOrder(side, i);
    SeedInsert(side, i);
    assert MatchFor(b, o) == MatchOut(b.On(Opposite(side)), [], SEED_QTY);
  }

  /** Handing over one more result changes the session of its client and no other. */
  lemma QueueNext(s: OeView, results: seq<OrderResult>, i: nat, id: int)
    requires i < |results|
    ensures var before := OeQueuedAll(s, Routed(results[..i], id));
            OeQueuedAll(s, Routed(results[..i + 1], id)) ==
            if results[i].clientId == id then OeQueued(before, ToPacket(results[i])) else before
  {
    var r, before := results[i], Routed(results[..i], id);
    assert results[..i + 1] == results[..i] + [r];
    RoutedAppend(results[..i], [r], id);
    assert [r][1..] == [];
    if r.clientId == id {
      assert (before + [ToPacket(r)])[..|before|] == before;
    } else {
      assert before + [] == before;
    }
  }

  lemma QueueNone(s: OeView, results: seq<OrderResult>, id: int)
    ensures OeQueuedAll(s, Routed(results[..0], id)) == s
  {
    assert results[..0] == [];
  }

  class Server {
    const engine: MatchingEngine
    const inbound: ConcurrentQueue<Input>
    var posts: seq<Post>
    var latestBook: Packet
    var oeSessions: map<int, OeSession>
    var mdSessions: map<int, MdSession>
    var nextOeId: int
    var nextMdId: int
    ghost var log: seq<Input>

    /** Each id has a session object of its own. */
    ghost predicate Valid()
      reads this, engine
    {
      && engine.Valid()
      && (forall i <- oeSessions, j <- oeSessions :: i != j ==> oeSessions[i] != oeSessions[j])
      && (forall i <- mdSessions, j <- mdSessions :: i != j ==> mdSessions[i] != mdSessions[j])
    }

    ghost function OeViews(): map<int, OeView>
      reads this`oeSessions, oeSessions.Values
    {
      map id | id in oeSessions :: oeSessions[id].View()
    }

    ghost function MdViews(): map<int, MdView>
      reads this`mdSessions, mdSessions.Values
    {
      map id | id in mdSessions :: mdSessions[id].View()
    }

    ghost function View(): ServerState
      reads this, engine, inbound, oeSessions.Values, mdSessions.Values
    {
      ServerState(engine.Contents(), inbound.q, posts, latestBook, OeViews(), MdViews(), nextOeId, nextMdId, log)
    }

    constructor ()
      ensures Valid() && fresh(engine) && fresh(inbound) && View() == NewServer()
    {
      var e := new MatchingEngine();
      var q := new ConcurrentQueue<Input>();
      InitBook(e);
      var packet := e.ExtractOrderBook();
      engine, inbound := e, q;
      posts, latestBook := [], packet;
      oeSessions, mdSessions := map[], map[];
      nextOeId, nextMdId, log := 1, 1, [];
    }

    static method InitBook(engine: MatchingEngine)
      requires engine.Valid() && engine.Contents() == EMPTY_BOOK
      modifies engine
      ensures engine.Valid() && engine.Contents() == SeedBook()
    {
      assert SeedSide(Buy, 0) == [] && SeedSide(Sell, 0) == [];
      for i := 0 to NUM_LAYERS
        invariant engine.Valid() && engine.Contents() == Book(SeedSide(Buy, i), SeedSide(Sell, i))
      {
        SeedPush(engine.Contents(), Buy, i);
        var out, dirty := engine.PushOrder(SEED_CLIENT_ID, SeedOrder(Buy, i));
        SeedPush(engine.Contents(), Sell, i);
        out, dirty := engine.PushOrder(SEED_CLIENT_ID, SeedOrder(Sell, i));
      }
    }

    // ---- The engine thread ----

    /** One turn of the engine loop; `more` is false when the loop ends. */
    method EngineTurn(stopRequested: bool) returns (more: bool)
      requires Valid() && (stopRequested || inbound.q != [])
      modifies this`posts, this`log, engine, inbound
      ensures Valid() && View() == ServerNext(old(View()), ServerStep.EngineTurn)
      ensures more <==> old(inbound.q) != []
    {
      hide Push, Snapshot, Flatten, Published, OeTurned, MdTurned, MdOpened, OeViews, MdViews;
      var popped := inbound.WaitPop(stopRequested);
      if popped.None? {
        return false;
      }
      var item := popped.value;
      var results, dirty := engine.PushOrder(item.clientId, item.order);
      var snapshot: Option<Packet> := None;
      if dirty {
        var packet := engine.ExtractOrderBook();
        snapshot := Some(packet);
      }
      posts := posts + [Post(results, snapshot)];
      log := log + [item];
      more := true;
    }

    /** The engine loop from a stop request on: it empties the queue before it ends. */
    method EngineLoopStopping()
      requires Valid()
      modifies this`posts, this`log, engine, inbound
      ensures Valid() && View() == Drained(old(View())) && inbound.q == []
    {
      var more := true;
      while more
        invariant Valid() && Drained(View()) == Drained(old(View()))
        invariant oeSessions == old(oeSessions) && mdSessions == old(mdSessions)
        invariant !more ==> inbound.q == []
        decreases more, |inbound.q|
      {
        more := EngineTurn(true);
      }
    }

    // ---- The io thread ----

    /** Hand each result to the session of its client, if that is still connected. */
    method SendOrderResults(results: seq<OrderResult>)
      requires Valid()
      modifies oeSessions.Values
      ensures Valid() && View() == old(View()).(oe := Sent(old(OeViews()), results))
    {
      hide Routed, OeQueuedAll, OeQueued, Flatten, MdViews;
      forall id | id in oeSessions
        ensures OeQueuedAll(oeSessions[id].View(), Routed(results[..0], id)) == oeSessions[id].View()
      {
        QueueNone(oeSessions[id].View(), results, id);
      }
      for i := 0 to |results|
        invariant forall id <- oeSessions ::
                    oeSessions[id].View() == OeQueuedAll(old(oeSessions[id].View()), Routed(results[..i], id))
      {
        var r := results[i];
        forall id | id in oeSessions
          ensures OeQueuedAll(old(oeSessions[id].View()), Routed(results[..i + 1], id)) ==
                  if r.clientId == id then OeQueued(oeSessions[id].View(), ToPacket(r)) else oeSessions[id].View()
        {
          QueueNext(old(oeSessions[id].View()), results, i, id);
        }
        if r.clientId in oeSessions {
          oeSessions[r.clientId].Queue(ToPacket(r));
        }
      }
      assert results[..|results|] == results;
      assert OeViews() == Sent(old(OeViews()), results);
      assert MdViews() == old(MdViews());
    }

    /** The broadcast loop: every session is offered the packet once, in whatever order they come. */
    method OfferToAll(packet: Packet)
      requires Valid()
      modifies mdSessions.Values
      ensures forall id <- mdSessions :: mdSessions[id].View() == MdOffered(old(mdSessions[id].View()), packet)
    {
      hide MdOffered;
      var todo := mdSessions.Keys;
      while todo != {}
        invariant todo <= mdSessions.Keys
        invariant forall id <- mdSessions ::
                    mdSessions[id].View() == if id in todo then old(mdSessions[id].View())
                                             else MdOffered(old(mdSessions[id].View()), packet)
        decreases |todo|
      {
        var id := AnyOf(todo);
        mdSessions[id].Offer(packet);
        todo := todo - {id};
      }
      assert forall id <- mdSessions :: id !in todo;
    }

    method BroadcastOrderBook(packet: Packet)
      requires Valid()
      modifies mdSessions.Values
      ensures Valid() && View() == old(View()).(md := Broadcast(old(MdViews()), packet))
    {
      hide MdOffered, Flatten, Push, Snapshot, OeViews;
      OfferToAll(packet);
      assert forall id <- mdSessions ::
               mdSessions[id].View() == MdOffered(old(mdSessions[id].View()), packet);
      assert forall id <- mdSessions :: MdViews()[id] == Broadcast(old(MdViews()), packet)[id];
      assert MdViews() == Broadcast(old(MdViews()), packet);
    }

    /** The io thread runs the oldest posted work. */
    method IoTurn()
      requires Valid() && posts != []
      modifies this`posts, this`latestBook, oeSessions.Values, mdSessions.Values
      ensures Valid() && View() == ServerNext(old(View()), ServerStep.IoTurn)
    {
      hide Sent, Broadcast, Flatten, Push, Snapshot, Engined, OeTurned, MdTurned, MdOpened, OeViews, MdViews;
      var post := posts[0];
      posts := posts[1..];
      SendOrderResults(post.results);
      if post.snapshot.Some? {
        latestBook := post.snapshot.value;
        BroadcastOrderBook(post.snapshot.value);
      }
    }

    method OeAccept()
      requires Valid()
      modifies this`oeSessions, this`nextOeId
      ensures Valid() && View() == ServerNext(old(View()), ServerStep.OeAccept)
    {
      hide Flatten, MdViews, Engined, Published, OeTurned, MdTurned, MdOpened;
      var s := new OeSession(nextOeId);
      oeSessions := oeSessions[nextOeId := s];
      nextOeId := nextOeId + 1;
    }

    /** One order read from a client's connection. */
    method OeReceive(id: int, order: OrderPacket)
      requires Valid() && id in oeSessions
      modifies inbound
      ensures Valid() && View() == ServerNext(old(View()), ServerStep.OeReceive(id, order))
    {
      hide Flatten, MdViews, Engined, Published, OeTurned, MdTurned, MdOpened;
      inbound.Push(Input(id, order));
    }

    method OeWriterTurn(id: int)
      requires Valid() && id in oeSessions
      modifies oeSessions[id]
      ensures Valid() && View() == ServerNext(old(View()), OeWrite(id))
    {
      hide OeTurned, Flatten, MdViews, Engined, Published, MdTurned, MdOpened;
      oeSessions[id].WriterTurn();
      assert forall j <- oeSessions :: j != id ==> oeSessions[j].View() == old(oeSessions[j].View());
      assert OeViews() == old(OeViews())[id := OeTurned(old(OeViews())[id])];
    }

    method OeClose(id: int)
      requires Valid()
      modifies this`oeSessions
      ensures Valid() && View() == ServerNext(old(View()), ServerStep.OeClose(id))
    {
      hide Flatten, MdViews, Engined, Published, OeTurned, MdTurned, MdOpened;
      oeSessions := oeSessions - {id};
      assert OeViews() == old(OeViews()) - {id};
    }

    method MdAccept()
      requires Valid()
      modifies this`mdSessions, this`nextMdId
      ensures Valid() && View() == ServerNext(old(View()), ServerStep.MdAccept)
    {
      hide Flatten, MdOpened, OeViews, Engined, Published, OeTurned, MdTurned;
      var s := new MdSession(nextMdId, latestBook);
      mdSessions := mdSessions[nextMdId := s];
      nextMdId := nextMdId + 1;
    }

    method MdWriterTurn(id: int)
      requires Valid() && id in mdSessions
      modifies mdSessions[id]
      ensures Valid() && View() == ServerNext(old(View()), MdWrite(id))
    {
      hide MdTurned, Flatten, OeViews, Engined, Published, OeTurned, MdOpened;
      mdSessions[id].WriterTurn();
      assert forall j <- mdSessions :: j != id ==> mdSessions[j].View() == old(mdSessions[j].View());
      assert MdViews() == old(MdViews())[id := MdTurned(old(MdViews())[id])];
    }

    method MdClose(id: int)
      requires Valid()
      modifies this`mdSessions
      ensures Valid() && View() == ServerNext(old(View()), ServerStep.MdClose(id))
    {
      hide Flatten, OeViews, Engined, Published, OeTurned, MdTurned, MdOpened;
      mdSessions := mdSessions - {id};
      assert MdViews() == old(MdViews()) - {id};
    }
  }
}
