/**
 * The whole exchange: clients that come and go, their connections, the server's inbound queue, its two
 * threads, the posted work and the writer coroutines. Seen through everything between a client and the
 * engine, it is the order-entry protocol, so every guarantee of the protocol carries over (Lives.dfy).
 */
module System {
  import opened Protocol
  import opened Depth
  import opened FlatBook
  import opened BaseClients
  import opened Sessions
  import opened OrderEntry
  import opened ServerModel

  /**
   * `wire` holds the orders a client has written and the server not yet read; of the results the server
   * has written to a client, the first `taken` have been read. Of a client whose session is closed,
   * `gone` keeps what had been written to it; nothing of its wire is read any more.
   */
  datatype Exchange = Exchange(
    server: ServerState, clients: map<int, ClientState>, wire: map<int, seq<OrderPacket>>, taken: map<int, nat>,
    gone: map<int, seq<ResultPacket>>)

  datatype Event =
    | Join(measuring: bool)
    | Leave(id: int)
    | SetTarget(id: int, side: Side, desired: int, orderQty: int)
    | Arrive(id: int)
    | Read(id: int, orderQty: int)
    | Serve(step: ServerStep)

  /** The server's other steps; opening, closing and reading a client's session are Join, Leave and Arrive. */
  predicate Internal(step: ServerStep) {
    !step.OeAccept? && !step.OeReceive? && !step.OeClose?
  }

  /** All that was written to a client so far, or up to the closing of its session. */
  function Stream(x: Exchange, id: int): seq<ResultPacket> {
    if id in x.server.oe then x.server.oe[id].written
    else if id in x.gone then x.gone[id]
    else []
  }

  function Unread(x: Exchange, id: int): seq<ResultPacket> {
    if id in x.taken && x.taken[id] <= |Stream(x, id)| then Stream(x, id)[x.taken[id]..] else []
  }

  function Wrote(x: Exchange, id: int, out: ClientOut): Exchange
    requires id in x.wire
  {
    x.(clients := x.clients[id := out.client], wire := x.wire[id := x.wire[id] + out.sent])
  }

  function Took(x: Exchange, id: int): Exchange
    requires id in x.taken
  {
    x.(taken := x.taken[id := x.taken[id] + 1])
  }

  function Happen(x: Exchange, e: Event): Exchange {
    match e
    case Join(measuring) =>
      var id := x.server.nextOe;
      x.(server := ServerNext(x.server, OeAccept), clients := x.clients[id := NewClient(true, measuring)],
         wire := x.wire[id := []], taken := x.taken[id := 0])
    case Leave(id) =>
      if id in x.server.oe then
        x.(server := ServerNext(x.server, OeClose(id)), gone := x.gone[id := x.server.oe[id].written])
      else x
    case SetTarget(id, side, desired, orderQty) =>
      if id in x.clients && id in x.wire && ValidQty(orderQty) then
        Wrote(x, id, Reconciled(x.clients[id], side, desired, orderQty))
      else x
    case Arrive(id) =>
      if id in x.wire && x.wire[id] != [] && id in x.server.oe then
        x.(server := ServerNext(x.server, OeReceive(id, x.wire[id][0])), wire := x.wire[id := x.wire[id][1..]])
      else x
    case Read(id, orderQty) =>
      if id in x.clients && id in x.wire && id in x.taken && Unread(x, id) != [] && ValidQty(orderQty) then
        Wrote(Took(x, id), id, Answered(x.clients[id], Unread(x, id)[0], orderQty))
      else x
    case Serve(step) =>
      if Internal(step) then x.(server := ServerNext(x.server, step)) else x
  }

  function Opened(): Exchange {
    Exchange(NewServer(), map[], map[], map[], map[])
  }

  function Life(events: seq<Event>): Exchange {
    if events == [] then Opened()
    else Happen(Life(events[..|events| - 1]), events[|events| - 1])
  }

  // ---- The protocol's view ----

  function InboundOf(inbound: seq<Input>, id: int): seq<OrderPacket> {
    if inbound == [] then []
    else (if inbound[0].clientId == id then [inbound[0].order] else []) + InboundOf(inbound[1..], id)
  }

  /** Everything between a client and the engine: the server's queue first, then the connection. */
  function Upward(x: Exchange, id: int): seq<OrderPacket> {
    InboundOf(x.server.inbound, id) + if id in x.wire then x.wire[id] else []
  }

  /** Everything the engine has reported to a client and the client has not read. */
  function Downward(x: Exchange, id: int): seq<ResultPacket> {
    var all := ReportedAt(x.server.log, |x.server.log|, id);
    if id in x.taken && x.taken[id] <= |all| then all[x.taken[id]..] else []
  }

  function PeerOf(x: Exchange, id: int): Peer
    requires id in x.clients
  {
    Peer(x.clients[id], Upward(x, id), Downward(x, id))
  }

  function Seen(x: Exchange): State {
    State(x.server.book, map id | id in x.clients :: PeerOf(x, id))
  }

  lemma SeenIs(x: Exchange, s: State)
    requires s.book == x.server.book && s.peers.Keys == x.clients.Keys
    requires forall id <- x.clients :: PeerOf(x, id) == s.peers[id]
    ensures Seen(x) == s
  {
    hide PeerOf;
    assert Seen(x).peers == s.peers;
  }

  lemma SeenPeers(x: Exchange)
    ensures Seen(x).book == x.server.book && Seen(x).peers.Keys == x.clients.Keys
    ensures forall id <- x.clients :: Seen(x).peers[id] == PeerOf(x, id)
  {
    hide PeerOf;
  }

  // ---- What holds after every event ----

  /** The same ids everywhere: every number given out so far is a client, connected or gone. */
  ghost predicate Keyed(x: Exchange) {
    && (forall id :: id in x.clients <==> 1 <= id < x.server.nextOe)
    && x.wire.Keys == x.clients.Keys && x.taken.Keys == x.clients.Keys
    && x.server.oe.Keys <= x.clients.Keys && x.gone.Keys <= x.clients.Keys
  }

  /** Nobody has read more than was written, and what was written is what the engine reported, in order. */
  ghost predicate StreamOk(x: Exchange, id: int)
    requires id in x.taken
  {
    x.taken[id] <= |Stream(x, id)| && Stream(x, id) <= ReportedAt(x.server.log, |x.server.log|, id)
  }

  ghost predicate ExchangeOk(x: Exchange) {
    Keyed(x) && ServerInv(x.server) && forall id <- x.taken :: StreamOk(x, id)
  }

  lemma SessionIsOk(s: ServerState, id: int)
    requires ServerInv(s)
    ensures 0 <= |s.posts| <= |s.log|
    ensures id in s.oe ==>
              && 1 <= id < s.nextOe && OeOk(s.oe[id])
              && OeHistory(s.oe[id]) == ReportedAt(s.log, |s.log| - |s.posts|, id)
  {
    hide PostsOk, OeOk, OeHistory, ReportedAt, BookAt, MdSessionOk;
  }

  lemma ReportedGrows(log: seq<Input>, x: Input, id: int)
    ensures ReportedAt(log + [x], |log| + 1, id)
         == ReportedAt(log, |log|, id) + Routed(Push(BookAt(log, |log|), x.clientId, x.order).results, id)
  {
    hide Push, SeedBook, Routed, Replay, ReplayResults, Snapshot;
    ReportedNext(log + [x], |log|, id);
    assert (log + [x])[..|log|] == log == log[..|log|];
  }

  /** What is written to a connected client is what the engine reported to it, as far as it goes. */
  lemma WrittenIsReported(s: ServerState, id: int)
    requires ServerInv(s)
    ensures id in s.oe ==> s.oe[id].written <= ReportedAt(s.log, |s.log|, id)
  {
    hide Push, SeedBook, Replay, ReplayResults, Routed, ServerInv, OeOk;
    SessionIsOk(s, id);
    var k := |s.log| - |s.posts|;
    ResultsGrow(SeedBook(), s.log, k, id);
    assert s.log[..|s.log|] == s.log;
    if id in s.oe {
      assert s.oe[id].written <= OeHistory(s.oe[id]);
    }
  }

  // ---- Events and the protocol ----

  /** Steps that only move reports along, or concern market data, are out of the clients' sight. */
  ghost predicate SameTraffic(x: Exchange, x': Exchange) {
    && x'.clients == x.clients && x'.wire == x.wire && x'.taken == x.taken
    && x'.server.inbound == x.server.inbound && x'.server.log == x.server.log && x'.server.book == x.server.book
  }

  lemma SameTrafficIsSilent(x: Exchange, x': Exchange)
    requires SameTraffic(x, x')
    ensures Seen(x') == Seen(x)
  {
    hide InboundOf, ReportedAt;
    SeenPeers(x);
    SeenIs(x', Seen(x));
  }

  lemma InboundAppend(a: seq<Input>, b: seq<Input>, id: int)
    ensures InboundOf(a + b, id) == InboundOf(a, id) + InboundOf(b, id)
  {
    if a == [] {
      assert a + b == b;
    } else {
      var head := if a[0].clientId == id then [a[0].order] else [];
      AppendTail(a, b);
      InboundAppend(a[1..], b, id);
      AppendAssoc(head, InboundOf(a[1..], id), InboundOf(b, id));
    }
  }

  lemma InboundOne(x: Input, id: int)
    ensures InboundOf([x], id) == if x.clientId == id then [x.order] else []
  {
    assert [x][1..] == [];
  }

  lemma {:induction false} InboundOfNobody(inbound: seq<Input>, id: int)
    requires IdsBelow(inbound, id)
    ensures InboundOf(inbound, id) == []
  {
    if inbound != [] {
      InboundOfNobody(inbound[1..], id);
    }
  }

  /** What a client writes joins the end of what is under way from it, and is all that changes. */
  lemma WroteSeen(x: Exchange, id: int, out: ClientOut, c: int)
    requires id in x.clients && id in x.wire && c in x.clients
    ensures PeerOf(Wrote(x, id, out), c)
         == if c == id then AfterClient(PeerOf(x, id), out, PeerOf(x, id).down) else PeerOf(x, c)
  {
    hide InboundOf, ReportedAt;
    if c == id {
      assert Upward(Wrote(x, id, out), id) == Upward(x, id) + out.sent;
    }
  }

  lemma SetTargetRefines(x: Exchange, id: int, side: Side, desired: int, orderQty: int)
    requires Keyed(x)
    ensures Seen(Happen(x, SetTarget(id, side, desired, orderQty)))
         == Apply(Seen(x), Target(id, side, desired, orderQty))
  {
    hide Reconciled, Answered, PeerOf, Seen, Push, ServerNext, Routed;
    SeenPeers(x);
    if id in x.clients && ValidQty(orderQty) {
      var out := Reconciled(x.clients[id], side, desired, orderQty);
      PeerParts(x, id);
      forall c | c in x.clients
        ensures PeerOf(Wrote(x, id, out), c)
             == if c == id then AfterClient(PeerOf(x, id), out, PeerOf(x, id).down) else PeerOf(x, c)
      {
        WroteSeen(x, id, out, c);
      }
      SeenIs(Wrote(x, id, out), Apply(Seen(x), Target(id, side, desired, orderQty)));
    }
  }

  lemma PeerParts(x: Exchange, id: int)
    requires id in x.clients
    ensures PeerOf(x, id).client == x.clients[id]
    ensures PeerOf(x, id).up == Upward(x, id) && PeerOf(x, id).down == Downward(x, id)
  {
  }

  /** What a client finds to read is the first of what is under way to it, and reading takes just that. */
  lemma TookSeen(x: Exchange, id: int, c: int)
    requires id in x.clients && id in x.taken && StreamOk(x, id) && Unread(x, id) != [] && c in x.clients
    ensures var p := PeerOf(x, id);
            && p.down != [] && p.down[0] == Unread(x, id)[0]
            && PeerOf(Took(x, id), c) == if c == id then p.(down := p.down[1..]) else PeerOf(x, c)
  {
    hide InboundOf, ReportedAt;
    if c == id {
      assert Downward(Took(x, id), id) == Downward(x, id)[1..];
    }
  }

  lemma ReadRefines(x: Exchange, id: int, orderQty: int)
    requires ExchangeOk(x) && id in x.clients && Unread(x, id) != []
    ensures Seen(Happen(x, Read(id, orderQty))) == Apply(Seen(x), Deliver(id, orderQty))
  {
    hide Reconciled, Answered, PeerOf, Seen, Push, ServerNext, Routed, ServerInv, StreamOk, Unread;
    SeenPeers(x);
    TookSeen(x, id, id);
    PeerParts(x, id);
    if ValidQty(orderQty) {
      var out := Answered(x.clients[id], Unread(x, id)[0], orderQty);
      var x' := Wrote(Took(x, id), id, out);
      forall c | c in x.clients
        ensures PeerOf(x', c)
             == if c == id then AfterClient(PeerOf(x, id), out, PeerOf(x, id).down[1..]) else PeerOf(x, c)
      {
        TookSeen(x, id, c);
        WroteSeen(Took(x, id), id, out, c);
      }
      SeenIs(x', Apply(Seen(x), Deliver(id, orderQty)));
    }
  }

  /** An order that arrives moves from the connection to the server's queue, and stays in its place. */
  lemma ArrivedSeen(x: Exchange, id: int, c: int)
    requires id in x.wire && x.wire[id] != [] && id in x.server.oe
    ensures Upward(Happen(x, Arrive(id)), c) == Upward(x, c)
  {
    hide Push, Routed, Engined, Published, InboundOf;
    var o := x.wire[id][0];
    InboundAppend(x.server.inbound, [Input(id, o)], c);
    InboundOne(Input(id, o), c);
    if c == id {
      assert x.wire[id] == [o] + x.wire[id][1..];
      AppendAssoc(InboundOf(x.server.inbound, c), [o], x.wire[id][1..]);
    }
  }

  lemma ArriveIsSilent(x: Exchange, id: int)
    requires Keyed(x)
    ensures Seen(Happen(x, Arrive(id))) == Seen(x)
  {
    hide Push, InboundOf, ReportedAt, Routed, Engined, Published, Upward, Seen;
    var x' := Happen(x, Arrive(id));
    SeenPeers(x);
    if id in x.wire && x.wire[id] != [] && id in x.server.oe {
      forall c | c in x.clients ensures PeerOf(x', c) == PeerOf(x, c) {
        ArrivedSeen(x, id, c);
      }
      SeenIs(x', Seen(x));
    }
  }

  /** Taking an order from the server's queue takes it from its client and reports to each client its share. */
  lemma EnginedSeen(x: Exchange, c: int)
    requires ExchangeOk(x) && x.server.inbound != [] && c in x.clients
    ensures var x' := x.(server := Engined(x.server));
            var input := x.server.inbound[0];
            && Upward(x, c) == (if c == input.clientId then [input.order] else []) + Upward(x', c)
            && Downward(x', c) == Downward(x, c) + Routed(Push(x.server.book, input.clientId, input.order).results, c)
  {
    hide Push, Snapshot, Routed, PostFor, PostsOk, SessionsOk, Replay, ReportedAt;
    var input := x.server.inbound[0];
    ReportedGrows(x.server.log, input, c);
    var all := ReportedAt(x.server.log, |x.server.log|, c);
    var more := Routed(Push(x.server.book, input.clientId, input.order).results, c);
    assert StreamOk(x, c);
    assert (all + more)[x.taken[c]..] == all[x.taken[c]..] + more;
    var head := if c == input.clientId then [input.order] else [];
    AppendAssoc(head, InboundOf(x.server.inbound[1..], c), x.wire[c]);
  }

  lemma EngineRefines(x: Exchange)
    requires ExchangeOk(x) && x.server.inbound != []
    ensures Seen(Happen(x, Serve(EngineTurn))) == Apply(Seen(x), Engine(x.server.inbound[0].clientId))
  {
    hide Push, Snapshot, Routed, Reconciled, Answered, Seen, Published, Upward, Downward, StreamOk, PostsOk, SessionsOk;
    var x' := Happen(x, Serve(EngineTurn));
    var input := x.server.inbound[0];
    var id := input.clientId;
    var out := Push(x.server.book, id, input.order);
    assert id in x.clients;
    SeenPeers(x);
    EnginedSeen(x, id);
    forall c | c in x.clients ensures PeerOf(x', c) == AfterEngine(c, PeerOf(x, c), id, out.results) {
      EnginedSeen(x, c);
      assert c == id ==> Upward(x, c)[1..] == Upward(x', c);
    }
    SeenIs(x', Apply(Seen(x), Engine(id)));
  }

  /** A client that joins finds nothing under way. */
  lemma NewcomerSeen(x: Exchange, measuring: bool)
    requires ExchangeOk(x)
    ensures var id := x.server.nextOe;
            id !in x.clients && id >= 1
            && PeerOf(Happen(x, Join(measuring)), id) == Peer(NewClient(true, measuring), [], [])
  {
    hide Push, Snapshot, SeedBook, Routed, Replay, ReplayResults, PostsOk, SessionsOk, BookAt, InboundOf;
    var id := x.server.nextOe;
    var x' := Happen(x, Join(measuring));
    NothingReportedYet(x.server.log, |x.server.log|, id);
    InboundOfNobody(x.server.inbound, id);
    assert Upward(x', id) == [] && Downward(x', id) == [];
  }

  lemma JoinRefines(x: Exchange, measuring: bool)
    requires ExchangeOk(x)
    ensures Seen(Happen(x, Join(measuring))) == Apply(Seen(x), Connect(x.server.nextOe, measuring))
  {
    hide Push, Routed, ServerInv, Engined, Published, InboundOf, ReportedAt, Seen, StreamOk;
    hide Reconciled, Answered;
    var id := x.server.nextOe;
    var x' := Happen(x, Join(measuring));
    SeenPeers(x);
    NewcomerSeen(x, measuring);
    forall c | c in x.clients ensures PeerOf(x', c) == PeerOf(x, c) {
    }
    hide PeerOf;
    SeenIs(x', Apply(Seen(x), Connect(id, measuring)));
  }

  /** The step of the protocol that an event amounts to, if any. */
  function AsSteps(x: Exchange, e: Event): seq<Step> {
    match e
    case Join(measuring) => [Connect(x.server.nextOe, measuring)]
    case Leave(id) => []
    case SetTarget(id, side, desired, orderQty) => [Target(id, side, desired, orderQty)]
    case Arrive(id) => []
    case Read(id, orderQty) => if id in x.clients && Unread(x, id) != [] then [Deliver(id, orderQty)] else []
    case Serve(step) =>
      if step.EngineTurn? && x.server.inbound != [] then [Engine(x.server.inbound[0].clientId)] else []
  }

  function ApplyAll(s: State, steps: seq<Step>): State {
    if steps == [] then s else Apply(ApplyAll(s, steps[..|steps| - 1]), steps[|steps| - 1])
  }

  lemma ApplyOne(s: State, step: Step)
    ensures ApplyAll(s, [step]) == Apply(s, step)
  {
    hide Apply;
    assert [step][..0] == [];
  }

  lemma ServeIsSilent(x: Exchange, step: ServerStep)
    requires Internal(step) && (step.EngineTurn? ==> x.server.inbound == [])
    ensures Seen(Happen(x, Serve(step))) == Seen(x)
  {
    hide Push, Seen, Sent, Broadcast, OeTurned, MdTurned, MdOpened;
    SameTrafficIsSilent(x, Happen(x, Serve(step)));
  }

  lemma LeaveIsSilent(x: Exchange, id: int)
    ensures Seen(Happen(x, Leave(id))) == Seen(x)
  {
    hide Seen, Engined, Published;
    SameTrafficIsSilent(x, Happen(x, Leave(id)));
  }

  /** Every event is, in the protocol's view, its step or no step at all. */
  lemma EventRefines(x: Exchange, e: Event)
    requires ExchangeOk(x)
    ensures Seen(Happen(x, e)) == ApplyAll(Seen(x), AsSteps(x, e))
  {
    hide ServerInv, Apply, Seen, Upward, Downward, ServerNext, Reconciled, Answered, StreamOk, Unread;
    if AsSteps(x, e) != [] {
      ApplyOne(Seen(x), AsSteps(x, e)[0]);
    }
    match e
    case Join(measuring) => JoinRefines(x, measuring);
    case Leave(id) => LeaveIsSilent(x, id);
    case SetTarget(id, side, desired, orderQty) => SetTargetRefines(x, id, side, desired, orderQty);
    case Arrive(id) => ArriveIsSilent(x, id);
    case Read(id, orderQty) =>
      if AsSteps(x, e) != [] {
        ReadRefines(x, id, orderQty);
      }
    case Serve(step) =>
      if step.EngineTurn? && x.server.inbound != [] {
        EngineRefines(x);
      } else if Internal(step) {
        ServeIsSilent(x, step);
      }
  }

  /** Whoever joins is connected under a new number, new at both ends; nobody else notices. */
  lemma JoinConnects(x: Exchange, measuring: bool)
    requires ExchangeOk(x)
    ensures var id, x' := x.server.nextOe, Happen(x, Join(measuring));
            && id !in x.clients && id in x'.clients && id in x'.server.oe
            && x'.clients == x.clients[id := NewClient(true, measuring)]
            && x'.wire == x.wire[id := []] && x'.taken == x.taken[id := 0] && x'.gone == x.gone
            && x'.server.oe[id].wq == [] && x'.server.oe[id].written == []
            && x'.server.nextOe == id + 1 && x'.server.oe.Keys == x.server.oe.Keys + {id}
  {
    hide Push, PostsOk, SessionsOk, StreamOk;
  }

  /** Whoever leaves keeps what was written to it, to read or not; nothing of it reaches the server any more. */
  lemma LeaveCloses(x: Exchange, id: int)
    requires id in x.server.oe
    ensures var x' := Happen(x, Leave(id));
            && id !in x'.server.oe && id in x'.gone && x'.gone[id] == x.server.oe[id].written
            && x' == x.(server := x.server.(oe := x'.server.oe), gone := x'.gone)
            && (forall c <- x.server.oe :: c != id ==> c in x'.server.oe && x'.server.oe[c] == x.server.oe[c])
            && (forall c <- x.gone :: c != id ==> c in x'.gone && x'.gone[c] == x.gone[c])
            && Happen(x', Arrive(id)) == x'
  {
    hide Engined, Published;
  }

  // ---- All lives ----

  /** The server's step behind an event, if it is one of the server's. */
  lemma EventKeepsServer(x: Exchange, e: Event)
    requires ServerInv(x.server)
    ensures ServerInv(Happen(x, e).server)
  {
    hide ServerInv, ServerNext, Reconciled, Answered;
    match e
    case Join(measuring) => StepOk(x.server, OeAccept);
    case Leave(id) => StepOk(x.server, OeClose(id));
    case SetTarget(id, side, desired, orderQty) =>
    case Arrive(id) =>
      if id in x.wire && x.wire[id] != [] {
        StepOk(x.server, OeReceive(id, x.wire[id][0]));
      }
    case Read(id, orderQty) =>
    case Serve(step) => StepOk(x.server, step);
  }

  lemma EventKeepsKeys(x: Exchange, e: Event)
    requires Keyed(x) && x.server.nextOe >= 1
    ensures Keyed(Happen(x, e))
  {
    hide Reconciled, Answered, Push, PostFor, OeQueuedAll, Routed, Broadcast, OeTurned, MdTurned, MdOpened, Unread;
  }

  /** What a step of the server does to what is written to a client: it adds to it or ends its session. */
  lemma WrittenGrows(s: ServerState, step: ServerStep, id: int)
    requires ServerInv(s) && id in s.oe && id in ServerNext(s, step).oe && (step.OeAccept? ==> id != s.nextOe)
    ensures s.oe[id].written <= ServerNext(s, step).oe[id].written
  {
    hide Push, PostFor, Broadcast, MdTurned, MdOpened, ReportedAt, ServerInv, Routed, OeTurned, OeQueuedAll;
    SessionIsOk(s, id);
    match step
    case OeWrite(_) => OeTurnedOk(s.oe[id]);
    case IoTurn =>
      if s.posts != [] {
        OeQueuedAllOk(s.oe[id], Routed(s.posts[0].results, id));
      }
    case _ =>
  }

  /** The step of the server behind an event. */
  function ServerStepOf(x: Exchange, e: Event): seq<ServerStep> {
    match e
    case Join(_) => [OeAccept]
    case Leave(id) => if id in x.server.oe then [OeClose(id)] else []
    case Arrive(id) =>
      if id in x.wire && x.wire[id] != [] && id in x.server.oe then [OeReceive(id, x.wire[id][0])] else []
    case Serve(step) => if Internal(step) then [step] else []
    case _ => []
  }

  lemma ServerMoves(x: Exchange, e: Event)
    ensures var steps := ServerStepOf(x, e);
            Happen(x, e).server == if steps == [] then x.server else ServerNext(x.server, steps[0])
  {
    hide ServerNext, Reconciled, Answered, Unread;
  }

  /** The stream of a client only grows, and stays as it is when the client has left. */
  lemma StreamGrows(x: Exchange, e: Event, id: int)
    requires ExchangeOk(x) && id in x.clients
    ensures Stream(x, id) <= Stream(Happen(x, e), id)
  {
    hide ServerInv, StreamOk;
    var x' := Happen(x, e);
    if id in x.server.oe && id in x'.server.oe {
      hide Happen, ServerNext;
      ServerMoves(x, e);
      if ServerStepOf(x, e) != [] {
        WrittenGrows(x.server, ServerStepOf(x, e)[0], id);
      }
    } else {
      StreamKept(x, e, id);
    }
  }

  lemma StreamKept(x: Exchange, e: Event, id: int)
    requires Keyed(x) && id in x.clients && !(id in x.server.oe && id in Happen(x, e).server.oe)
    ensures Stream(Happen(x, e), id) == Stream(x, id)
  {
    hide Reconciled, Answered, Push, PostFor, OeQueuedAll, Routed, Broadcast, OeTurned, MdTurned, MdOpened, Unread;
  }

  /** Unless an order is processed, nothing new is reported. */
  lemma ReportedOnlyGrows(x: Exchange, e: Event, id: int)
    requires ServerInv(x.server)
    ensures ReportedAt(x.server.log, |x.server.log|, id)
         <= ReportedAt(Happen(x, e).server.log, |Happen(x, e).server.log|, id)
  {
    hide Reconciled, Answered, Push, PostFor, Sent, Broadcast, OeTurned, MdTurned, MdOpened, Unread;
    hide ReportedAt, ServerInv, Routed;
    if e.Serve? && e.step == EngineTurn && x.server.inbound != [] {
      ReportedGrows(x.server.log, x.server.inbound[0], id);
    }
  }

  lemma EventKeepsStreams(x: Exchange, e: Event, id: int)
    requires ExchangeOk(x) && ServerInv(Happen(x, e).server) && id in Happen(x, e).taken
    ensures StreamOk(Happen(x, e), id)
  {
    hide Reconciled, Answered, ServerInv, ReportedAt, ServerNext;
    var x' := Happen(x, e);
    if id in x.clients {
      assert StreamOk(x, id);
      StreamGrows(x, e, id);
    } else {
      NewcomerIsConnected(x, e, id);
    }
    if id in x'.server.oe {
      WrittenIsReported(x'.server, id);
    } else {
      ReportedOnlyGrows(x, e, id);
      StreamKept(x, e, id);
    }
  }

  lemma NewcomerIsConnected(x: Exchange, e: Event, id: int)
    requires Keyed(x) && id in Happen(x, e).taken && id !in x.clients
    ensures id in Happen(x, e).server.oe
  {
    hide Reconciled, Answered, Engined, Published, OeTurned, MdTurned, MdOpened, Unread;
  }

  lemma EventKeepsOk(x: Exchange, e: Event)
    requires ExchangeOk(x)
    ensures ExchangeOk(Happen(x, e))
  {
    hide Happen, StreamOk, Keyed;
    assert x.server.nextOe >= 1;
    hide ServerInv;
    EventKeepsServer(x, e);
    EventKeepsKeys(x, e);
    forall id | id in Happen(x, e).taken ensures StreamOk(Happen(x, e), id) {
      EventKeepsStreams(x, e, id);
    }
  }

  /** The run of the protocol that a life of the exchange amounts to. */
  function AsRun(events: seq<Event>): seq<Step> {
    if events == [] then []
    else
      var before := events[..|events| - 1];
      AsRun(before) + AsSteps(Life(before), events[|events| - 1])
  }

  lemma {:induction false} RunAppend(a: seq<Step>, b: seq<Step>)
    ensures Run(a + b) == ApplyAll(Run(a), b)
  {
    hide Apply;
    if b == [] {
      assert a + b == a;
    } else {
      var n := |b| - 1;
      assert (a + b)[..|a + b| - 1] == a + b[..n];
      RunAppend(a, b[..n]);
    }
  }

  lemma OpenedRefines()
    ensures ExchangeOk(Opened()) && Seen(Opened()) == Run([])
  {
    hide SeedBook, Snapshot, ServerInv;
    ServerRunOk([]);
  }

  lemma {:induction false} LifeOk(events: seq<Event>)
    ensures ExchangeOk(Life(events))
  {
    hide ExchangeOk, Happen;
    if events == [] {
      OpenedRefines();
    } else {
      LifeOk(events[..|events| - 1]);
      EventKeepsOk(Life(events[..|events| - 1]), events[|events| - 1]);
    }
  }

  /**
   * The threaded, queued, buffered exchange, with clients joining and leaving at any time, refines the
   * order-entry protocol in every interleaving. To those who stay, one who left is one who is silent.
   */
  lemma {:induction false} ExchangeRefinesProtocol(events: seq<Event>)
    ensures Seen(Life(events)) == Run(AsRun(events))
  {
    hide ExchangeOk, Apply, Happen, AsSteps, Seen;
    if events == [] {
      OpenedRefines();
    } else {
      var before := events[..|events| - 1];
      ExchangeRefinesProtocol(before);
      LifeOk(before);
      EventRefines(Life(before), events[|events| - 1]);
      RunAppend(AsRun(before), AsSteps(Life(before), events[|events| - 1]));
    }
  }

  // ---- Where the reports under way are ----

  function PostedTo(posts: seq<Post>, id: int): seq<ResultPacket> {
    if posts == [] then [] else Routed(posts[0].results, id) + PostedTo(posts[1..], id)
  }

  /** What is posted to a client is what the orders not yet published report to it. */
  lemma {:induction false} PostedIsReported(log: seq<Input>, posts: seq<Post>, k: nat, id: int)
    requires k + |posts| == |log|
    requires forall i :: 0 <= i < |posts| ==> posts[i] == PostFor(BookAt(log, k + i), log[k + i])
    ensures ReportedAt(log, |log|, id) == ReportedAt(log, k, id) + PostedTo(posts, id)
  {
    hide Push, Snapshot, SeedBook, Routed, Replay, ReplayResults, PostFor, BookAt, ReportedAt;
    if posts == [] {
      assert ReportedAt(log, k, id) + [] == ReportedAt(log, k, id);
    } else {
      assert posts[0] == PostFor(BookAt(log, k + 0), log[k + 0]);
      forall i | 0 <= i < |posts[1..]|
        ensures posts[1..][i] == PostFor(BookAt(log, k + 1 + i), log[k + 1 + i])
      {
        assert posts[i + 1] == PostFor(BookAt(log, k + (i + 1)), log[k + (i + 1)]);
      }
      PostedIsReported(log, posts[1..], k + 1, id);
      ReportedNext(log, k, id);
      AppendAssoc(ReportedAt(log, k, id), Routed(posts[0].results, id), PostedTo(posts[1..], id));
    }
  }

  /**
   * To a connected client, everything reported and not read is physically there: written and not yet
   * read, then in the queue of its session, then in posts the io thread has still to run.
   */
  lemma DownwardIsUnderWay(events: seq<Event>, id: int)
    requires id in Life(events).server.oe
    ensures var x := Life(events);
            Downward(x, id) == Unread(x, id) + x.server.oe[id].wq + PostedTo(x.server.posts, id)
  {
    hide Life, ReportedAt, PostedTo, OeOk, BookAt, PostFor, SessionsOk;
    LifeOk(events);
    var x := Life(events);
    var s := x.server;
    SessionIsOk(s, id);
    var v, k, posted := s.oe[id], |s.log| - |s.posts|, PostedTo(s.posts, id);
    PostedIsReported(s.log, s.posts, k, id);
    assert StreamOk(x, id);
    assert OeHistory(v) == v.written + v.wq;
    assert ((v.written + v.wq) + posted)[x.taken[id]..] == (v.written[x.taken[id]..] + v.wq) + posted;
  }
}
