/** Every order a client sends reaches the engine once, in order, and is accounted for to the last unit. */
module Delivery {
  import opened Protocol
  import opened Depth
  import opened FlatBook
  import opened BaseClients
  import opened Conservation
  import opened OrderEntry
  import opened Accounting
  import opened ServerModel
  import opened System
  import opened Lives

  /** All a client ever sent is, in order, what the engine has taken, what is queued and what is on the wire. */
  ghost predicate Delivered(x: Exchange, id: int)
    requires id in x.clients
  {
    InboundOf(x.server.log, id) + Upward(x, id) == x.clients[id].history
  }

  lemma ReconcileHistory(c: ClientState, side: Side, desired: int, orderQty: int)
    ensures var out := Reconciled(c, side, desired, orderQty); out.client.history == c.history + out.sent
  {
    assert c.history + [] == c.history;
  }

  lemma AnswerHistory(c: ClientState, r: ResultPacket, orderQty: int)
    ensures var out := Answered(c, r, orderQty); out.client.history == c.history + out.sent
  {
    hide Reconciled;
    AnsweredInSteps(c, r, orderQty);
    var read := JustRead(Measured(c, r.seqNo), r);
    assert c.history + [] == c.history == read.history;
    ReconcileHistory(read, r.side, read.Of(r.side).pending, orderQty);
  }

  lemma WroteDelivers(x: Exchange, id: int, out: ClientOut)
    requires id in x.clients && id in x.wire && Delivered(x, id)
    requires out.client.history == x.clients[id].history + out.sent
    ensures Delivered(Wrote(x, id, out), id)
  {
    hide InboundOf;
    assert Upward(Wrote(x, id, out), id) == Upward(x, id) + out.sent;
    AppendAssoc(InboundOf(x.server.log, id), Upward(x, id), out.sent);
  }

  /** An order the engine takes moves from the front of what is under way to the end of the log. */
  lemma EngineDelivers(x: Exchange, c: int)
    requires ExchangeOk(x) && x.server.inbound != [] && c in x.clients && Delivered(x, c)
    ensures Delivered(x.(server := Engined(x.server)), c)
  {
    hide Push, PostFor, StreamOk, ServerInv, Downward;
    var x' := x.(server := Engined(x.server));
    var input := x.server.inbound[0];
    var head := if c == input.clientId then [input.order] else [];
    InboundAppend(x.server.log, [input], c);
    InboundOne(input, c);
    AppendAssoc(head, InboundOf(x.server.inbound[1..], c), x.wire[c]);
    AppendAssoc(InboundOf(x.server.log, c), head, Upward(x', c));
  }

  lemma JoinDelivers(x: Exchange, measuring: bool)
    requires ExchangeOk(x)
    ensures Delivered(Happen(x, Join(measuring)), x.server.nextOe)
  {
    hide Push, StreamOk, PostsOk, SessionsOk, BookAt, Snapshot;
    InboundOfNobody(x.server.log, x.server.nextOe);
    InboundOfNobody(x.server.inbound, x.server.nextOe);
  }

  lemma EventDelivers(x: Exchange, e: Event, c: int)
    requires ExchangeOk(x) && c in Happen(x, e).clients && (c in x.clients ==> Delivered(x, c))
    ensures Delivered(Happen(x, e), c)
  {
    hide Push, StreamOk, ServerInv, Reconciled, Answered, InboundOf, Unread, Engined, Delivered;
    match e
    case Join(measuring) =>
      if c == x.server.nextOe {
        JoinDelivers(x, measuring);
      } else {
        SameDelivers(x, Happen(x, e), c);
      }
    case SetTarget(id, side, desired, orderQty) =>
      if id == c && id in x.wire {
        ReconcileHistory(x.clients[c], side, desired, orderQty);
        WroteDelivers(x, c, Reconciled(x.clients[c], side, desired, orderQty));
      } else {
        SameDelivers(x, Happen(x, e), c);
      }
    case Read(id, orderQty) =>
      if id == c && id in x.wire && id in x.taken && Unread(x, id) != [] {
        AnswerHistory(x.clients[c], Unread(x, id)[0], orderQty);
        SameDelivers(x, Took(x, id), c);
        WroteDelivers(Took(x, id), c, Answered(x.clients[c], Unread(x, id)[0], orderQty));
      } else {
        SameDelivers(x, Happen(x, e), c);
      }
    case Arrive(id) =>
      if id in x.wire && x.wire[id] != [] && id in x.server.oe {
        ArrivedSeen(x, id, c);
        MovedDelivers(x, Happen(x, e), c);
      }
    case Leave(id) => SameDelivers(x, Happen(x, e), c);
    case Serve(step) =>
      if step == EngineTurn && x.server.inbound != [] {
        EngineDelivers(x, c);
      } else {
        ServeDelivers(x, step, c);
      }
  }

  lemma MovedDelivers(x: Exchange, x': Exchange, c: int)
    requires c in x.clients && c in x'.clients && Delivered(x, c)
    requires x'.clients[c].history == x.clients[c].history
    requires x'.server.log == x.server.log && Upward(x', c) == Upward(x, c)
    ensures Delivered(x', c)
  {
  }

  lemma SameDelivers(x: Exchange, x': Exchange, c: int)
    requires c in x.clients && c in x'.clients && Delivered(x, c) && x'.clients[c].history == x.clients[c].history
    requires x'.server.log == x.server.log && x'.server.inbound == x.server.inbound
    requires c in x.wire && c in x'.wire && x'.wire[c] == x.wire[c]
    ensures Delivered(x', c)
  {
    hide InboundOf;
  }

  lemma ServeDelivers(x: Exchange, step: ServerStep, c: int)
    requires Keyed(x) && c in x.clients && Delivered(x, c) && (step == EngineTurn ==> x.server.inbound == [])
    ensures Delivered(Happen(x, Serve(step)), c)
  {
    hide Delivered;
    SameDelivers(x, Happen(x, Serve(step)), c);
  }

  /** No order is lost, doubled or overtaken on its way from a client to the engine. */
  lemma {:induction false} OrdersAreDelivered(events: seq<Event>, id: int)
    requires id in Life(events).clients
    ensures Delivered(Life(events), id)
  {
    hide Delivered, Happen, ExchangeOk;
    if events != [] {
      var before, e := events[..|events| - 1], events[|events| - 1];
      LifeOk(before);
      if id in Life(before).clients {
        OrdersAreDelivered(before, id);
      }
      EventDelivers(Life(before), e, id);
    }
  }

  /** The orders of one client stand in the log one after the other; order i of the log is among them. */
  lemma OrderInLog(log: seq<Input>, i: nat)
    requires i < |log|
    ensures var id := log[i].clientId;
            InboundOf(log, id) == InboundOf(log[..i], id) + [log[i].order] + InboundOf(log[i + 1..], id)
  {
    hide InboundOf;
    var id, rest := log[i].clientId, log[i + 1..];
    Cut(log, i);
    InboundAppend(log[..i], [log[i]] + rest, id);
    InboundAppend([log[i]], rest, id);
    InboundOne(log[i], id);
    AppendAssoc(InboundOf(log[..i], id), [log[i].order], InboundOf(rest, id));
  }

  /** In the log, a client's orders carry 1, 2, 3 and so on. */
  lemma NumberInLog(events: seq<Event>, i: nat)
    requires i < |Life(events).server.log|
    ensures var log := Life(events).server.log;
            log[i].clientId in Life(events).clients
            && log[i].order.seqNo == |InboundOf(log[..i], log[i].clientId)| + 1
  {
    hide Life, AsRun, Run, StreamOk, PostsOk, SessionsOk, InboundOf, LedgerOk, ChannelsOk;
    var x := Life(events);
    var log := x.server.log;
    var id := log[i].clientId;
    LifeOk(events);
    assert id in x.clients;
    OrdersAreDelivered(events, id);
    OrderInLog(log, i);
    var p := |InboundOf(log[..i], id)|;
    assert x.clients[id].history[p] == log[i].order;
    HistoryIsNumbered(events, id);
  }

  lemma HistoryIsNumbered(events: seq<Event>, id: int)
    requires id in Life(events).clients
    ensures NumberedOk(Life(events).clients[id])
  {
    hide Life, AsRun, Run, NumberedOk, RecordsOk, ChannelsOk;
    LifeIsRun(events, id);
    PeerParts(Life(events), id);
    RunAccounted(AsRun(events));
    assert Accounted(Run(AsRun(events)).book, id, Run(AsRun(events)).peers[id]);
  }

  lemma NumbersDiffer(events: seq<Event>, i: nat, j: nat)
    requires i < j < |Life(events).server.log|
    requires var log := Life(events).server.log; log[i].clientId == log[j].clientId
    ensures var log := Life(events).server.log; log[i].order.seqNo < log[j].order.seqNo
  {
    hide Life, InboundOf;
    var log := Life(events).server.log;
    var id := log[i].clientId;
    NumberInLog(events, i);
    NumberInLog(events, j);
    OrderInLog(log[..j], i);
    assert log[..j][..i] == log[..i];
  }

  /** Every order proper that the engine has taken is the only one of its sender with its number. */
  lemma EveryOrderIsItsOwn(events: seq<Event>, i: nat)
    requires i < |Life(events).server.log| && Tradable(Life(events).server.log[i].order)
    ensures OnlyOrder(Life(events).server.log, i)
  {
    hide Life;
    var log := Life(events).server.log;
    forall j | 0 <= j < |log| && j != i && Tradable(log[j].order)
      ensures (log[j].clientId, log[j].order.seqNo) != (log[i].clientId, log[i].order.seqNo)
    {
      if log[j].clientId == log[i].clientId {
        if i < j {
          NumbersDiffer(events, i, j);
        } else {
          NumbersDiffer(events, j, i);
        }
      }
    }
  }

  lemma {:induction false} HeldByOthers(entries: seq<Entry>, keys: iset<Key>)
    requires forall i :: 0 <= i < |entries| ==> KeyOf(entries[i]) !in keys
    ensures Held(entries, keys) == 0
  {
    if entries != [] {
      HeldByOthers(entries[1..], keys);
    }
  }

  /**
   * In every life of the exchange, each order the engine has taken is fully accounted for: its quantity
   * is what was reported executed under its number, what rests of it in the engine's book, and what a
   * cancel took away.
   */
  lemma EveryOrderIsAccounted(events: seq<Event>, i: nat)
    requires i < |Life(events).server.log| && Tradable(Life(events).server.log[i].order)
    ensures var s := Life(events).server;
            var key := iset{(s.log[i].clientId, s.log[i].order.seqNo)};
            s.log[i].order.qty
            == Filled(ReplayResults(SeedBook(), s.log), key) + InBook(s.book, key)
               + TotalDropped(SeedBook(), s.log, key)
  {
    hide Life, Replay, ReplayResults, TotalDropped, StreamOk, PostsOk, SessionsOk, Filled, Held;
    LifeOk(events);
    var s := Life(events).server;
    var key := iset{(s.log[i].clientId, s.log[i].order.seqNo)};
    EveryOrderIsItsOwn(events, i);
    OrderAccount(SeedBook(), s.log, i);
    HeldByOthers(SeedBook().bids, key);
    HeldByOthers(SeedBook().asks, key);
    assert s.log[..|s.log|] == s.log;
  }
}
