/**
 * The server does not stand still: sessions open when they are accepted and close when they are closed,
 * the two threads empty their queues, and the writers write everything and end.
 */
module Progress {
  import opened Protocol
  import opened FlatBook
  import opened Codec
  import opened Depth
  import opened Sessions
  import opened OrderEntry
  import opened ServerModel

  // ---- Who is connected ----

  function Count(steps: seq<ServerStep>, step: ServerStep): nat {
    if steps == [] then 0
    else Count(steps[..|steps| - 1], step) + if steps[|steps| - 1] == step then 1 else 0
  }

  /** Step k accepted connection number id, and no later step closed it. */
  ghost predicate OpenSince(steps: seq<ServerStep>, accept: ServerStep, close: ServerStep, id: int, k: nat) {
    && k < |steps| && steps[k] == accept && Count(steps[..k], accept) + 1 == id
    && forall l :: k < l < |steps| ==> steps[l] != close
  }

  lemma OpenBefore(steps: seq<ServerStep>, e: ServerStep, accept: ServerStep, close: ServerStep, id: int, k: nat)
    requires k < |steps|
    ensures OpenSince(steps + [e], accept, close, id, k) <==> OpenSince(steps, accept, close, id, k) && e != close
  {
    var all := steps + [e];
    assert all[..k] == steps[..k] && all[|steps|] == e;
    assert forall l :: 0 <= l < |steps| ==> all[l] == steps[l];
  }

  lemma OpenNow(steps: seq<ServerStep>, e: ServerStep, accept: ServerStep, close: ServerStep, id: int)
    ensures OpenSince(steps + [e], accept, close, id, |steps|) <==> e == accept && Count(steps, accept) + 1 == id
  {
    assert (steps + [e])[..|steps|] == steps;
  }

  ghost predicate Open(steps: seq<ServerStep>, accept: ServerStep, close: ServerStep, id: int) {
    exists k: nat :: OpenSince(steps, accept, close, id, k)
  }

  lemma OpenSnoc(steps: seq<ServerStep>, e: ServerStep, accept: ServerStep, close: ServerStep, id: int)
    requires accept != close
    ensures Open(steps + [e], accept, close, id) <==>
            (Open(steps, accept, close, id) && e != close) || (e == accept && Count(steps, accept) + 1 == id)
  {
    OpenNow(steps, e, accept, close, id);
    if Open(steps + [e], accept, close, id) {
      var k: nat :| OpenSince(steps + [e], accept, close, id, k);
      if k < |steps| {
        OpenBefore(steps, e, accept, close, id, k);
      }
    }
    if Open(steps, accept, close, id) && e != close {
      var k: nat :| OpenSince(steps, accept, close, id, k);
      OpenBefore(steps, e, accept, close, id, k);
    }
  }

  /** The subscribers are those that were given a number and not closed since; numbers are 1, 2, 3... */
  lemma {:induction false} SubscribersAre(steps: seq<ServerStep>, id: int)
    ensures ServerRun(steps).nextMd == Count(steps, MdAccept) + 1
    ensures id in ServerRun(steps).md <==> Open(steps, MdAccept, MdClose(id), id)
  {
    hide Open, Engined, Published, Broadcast, OeTurned, MdTurned, MdOpened, SeedBook, Snapshot;
    if steps == [] {
      NotOpenYet(MdAccept, MdClose(id), id);
    } else {
      var before, e := steps[..|steps| - 1], steps[|steps| - 1];
      SubscribersAre(before, id);
      OpenSnoc(before, e, MdAccept, MdClose(id), id);
      assert before + [e] == steps;
      SubscribersMove(ServerRun(before), e);
    }
  }

  lemma NotOpenYet(accept: ServerStep, close: ServerStep, id: int)
    ensures !Open([], accept, close, id)
  {
  }

  lemma SubscribersMove(s: ServerState, e: ServerStep)
    ensures var t := ServerNext(s, e);
            && t.nextMd == s.nextMd + (if e == MdAccept then 1 else 0)
            && t.md.Keys == s.md.Keys - (if e.MdClose? then {e.id} else {})
                            + (if e == MdAccept then {s.nextMd} else {})
  {
    hide Push, PostFor, Sent, MdOffered, OeTurned, MdTurned, MdOpened;
  }

  /** The same of clients. */
  lemma {:induction false} ClientsAre(steps: seq<ServerStep>, id: int)
    ensures ServerRun(steps).nextOe == Count(steps, OeAccept) + 1
    ensures id in ServerRun(steps).oe <==> Open(steps, OeAccept, OeClose(id), id)
  {
    hide Open, Engined, Published, Sent, OeTurned, MdTurned, MdOpened, SeedBook, Snapshot;
    if steps == [] {
      NotOpenYet(OeAccept, OeClose(id), id);
    } else {
      var before, e := steps[..|steps| - 1], steps[|steps| - 1];
      ClientsAre(before, id);
      OpenSnoc(before, e, OeAccept, OeClose(id), id);
      assert before + [e] == steps;
      ClientsMove(ServerRun(before), e);
    }
  }

  lemma ClientsMove(s: ServerState, e: ServerStep)
    ensures var t := ServerNext(s, e);
            && t.nextOe == s.nextOe + (if e == OeAccept then 1 else 0)
            && t.oe.Keys == s.oe.Keys - (if e.OeClose? then {e.id} else {})
                            + (if e == OeAccept then {s.nextOe} else {})
  {
    hide Push, PostFor, Broadcast, OeQueuedAll, Routed, OeTurned, MdTurned, MdOpened;
  }

  lemma RunSnoc(steps: seq<ServerStep>, e: ServerStep)
    ensures ServerRun(steps + [e]) == ServerNext(ServerRun(steps), e)
  {
    hide ServerNext;
    assert (steps + [e])[..|steps|] == steps;
  }

  /**
   * A subscriber that connects is registered under a new number, with the cached packet waiting in its
   * slot, a writer started and nothing sent yet; nothing else changes.
   */
  lemma SubscriberJoins(steps: seq<ServerStep>)
    ensures var s, t := ServerRun(steps), ServerRun(steps + [MdAccept]);
            && s.nextMd !in s.md && s.nextMd in t.md
            && t == s.(md := s.md[s.nextMd := t.md[s.nextMd]], nextMd := s.nextMd + 1)
            && (var m := t.md[s.nextMd];
                m.hasPending && m.pending == s.latest && m.writing && m.writer == MdSpawned
                && m.offered == [s.latest] && m.sent == [])
  {
    hide ServerRun;
    RunSnoc(steps, MdAccept);
    ServerRunOk(steps);
    SubscriberIdsBelow(ServerRun(steps), ServerRun(steps).nextMd);
  }

  lemma SubscriberIdsBelow(s: ServerState, id: int)
    requires ServerInv(s)
    ensures id in s.md ==> id < s.nextMd && MdOk(s.md[id])
    ensures id in s.oe ==> id < s.nextOe && OeOk(s.oe[id])
  {
    hide MdOk, OeOk, OeHistory, PostsOk, BookAt, ReportedAt;
  }

  /** A client that connects is registered under a new number, with nothing queued, written or under way. */
  lemma ClientJoins(steps: seq<ServerStep>)
    ensures var s, t := ServerRun(steps), ServerRun(steps + [OeAccept]);
            && s.nextOe !in s.oe && s.nextOe in t.oe
            && t == s.(oe := s.oe[s.nextOe := t.oe[s.nextOe]], nextOe := s.nextOe + 1)
            && (var v := t.oe[s.nextOe]; v.wq == [] && !v.writing && v.writer == OeOff && v.written == [])
  {
    hide ServerRun;
    RunSnoc(steps, OeAccept);
    ServerRunOk(steps);
    SubscriberIdsBelow(ServerRun(steps), ServerRun(steps).nextOe);
  }

  lemma RunNext(steps: seq<ServerStep>, e: ServerStep, n: nat)
    requires n > 0
    ensures ServerRun(steps + Times(e, n)) == ServerNext(ServerRun(steps + Times(e, n - 1)), e)
  {
    hide ServerRun, ServerNext;
    RunSnoc(steps + Times(e, n - 1), e);
    AppendAssoc(steps, Times(e, n - 1), [e]);
  }

  lemma RunNone(steps: seq<ServerStep>, e: ServerStep)
    ensures ServerRun(steps + Times(e, 0)) == ServerRun(steps)
  {
    assert steps + Times(e, 0) == steps;
  }

  // ---- The writers ----

  /** Every turn of a subscriber's writer does its part: write what it awaited, take the slot or end. */
  lemma MdTurnWrites(m: MdView)
    requires MdOk(m) && m.writing
    ensures var t := MdTurned(m);
            && t.sent == m.sent + (if m.writer.MdWriting? then [m.writer.packet] else [])
            && (m.hasPending ==> t.writer == MdWriting(m.pending) && !t.hasPending && t.writing)
            && (!m.hasPending ==> t.writer == MdOff && !t.hasPending && !t.writing)
            && t.offered == m.offered
  {
  }

  function MdTurns(m: MdView, n: nat): MdView {
    if n == 0 then m else MdTurned(MdTurns(m, n - 1))
  }

  /** How many turns a subscriber's writer still has to go. */
  function MdWork(m: MdView): nat {
    (if m.hasPending then 1 else 0) + (if m.writing then 1 else 0)
  }

  lemma MdTurnWorks(m: MdView)
    requires MdOk(m)
    ensures MdOk(MdTurned(m)) && Outlook(MdTurned(m)) == Outlook(m)
    ensures if m.writing then MdWork(MdTurned(m)) == MdWork(m) - 1 else MdTurned(m) == m
  {
    hide Subsequence;
    MdTurnedOk(m);
    assert Outlook(MdTurned(m)) == Outlook(m);
  }

  lemma {:induction false} MdTurnsWork(m: MdView, n: nat)
    requires MdOk(m)
    ensures MdOk(MdTurns(m, n)) && Outlook(MdTurns(m, n)) == Outlook(m)
    ensures MdWork(MdTurns(m, n)) == if n < MdWork(m) then MdWork(m) - n else 0
  {
    hide MdTurned, Outlook;
    if n > 0 {
      MdTurnsWork(m, n - 1);
      MdTurnWorks(MdTurns(m, n - 1));
    }
  }

  lemma MdNoTurn(s: ServerState, id: int)
    requires id in s.md
    ensures s.(md := s.md[id := MdTurns(s.md[id], 0)]) == s
  {
    assert s.md[id := s.md[id]] == s.md;
  }

  lemma MdOneTurn(s: ServerState, id: int, n: nat)
    requires id in s.md && n > 0
    ensures var v := s.md[id];
            ServerNext(s.(md := s.md[id := MdTurns(v, n - 1)]), MdWrite(id))
            == s.(md := s.md[id := MdTurns(v, n)])
  {
    hide MdTurned;
    var m := MdTurns(s.md[id], n - 1);
    assert s.md[id := m][id := MdTurned(m)] == s.md[id := MdTurned(m)];
  }

  lemma {:induction false} MdWriteTimes(steps: seq<ServerStep>, id: int, n: nat)
    requires id in ServerRun(steps).md
    ensures var s := ServerRun(steps);
            ServerRun(steps + Times(MdWrite(id), n)) == s.(md := s.md[id := MdTurns(s.md[id], n)])
  {
    hide ServerRun, ServerNext, MdTurns, Times;
    var s := ServerRun(steps);
    if n == 0 {
      RunNone(steps, MdWrite(id));
      MdNoTurn(s, id);
    } else {
      MdWriteTimes(steps, id, n - 1);
      RunNext(steps, MdWrite(id), n);
      MdOneTurn(s, id, n);
    }
  }

  /**
   * From any moment, two turns of a subscriber's writer (and any more) write everything that was being
   * written or waited in the slot: the writer has ended and the last packet sent is the cached one.
   */
  lemma SubscriberCatchesUp(steps: seq<ServerStep>, id: int, n: nat)
    requires id in ServerRun(steps).md && n >= 2
    ensures var s, t := ServerRun(steps), ServerRun(steps + Times(MdWrite(id), n));
            && id in t.md && t == s.(md := s.md[id := t.md[id]])
            && (var m := t.md[id];
                && m.writer == MdOff && !m.hasPending && !m.writing
                && m.sent == Outlook(s.md[id]) && m.sent != [] && m.sent[|m.sent| - 1] == s.latest)
  {
    hide ServerRun, MdTurns, ServerNext;
    var s := ServerRun(steps);
    ServerRunOk(steps);
    SubscriberIdsBelow(s, id);
    MdWriteTimes(steps, id, n);
    MdTurnsWork(s.md[id], n);
    ServerRunOk(steps + Times(MdWrite(id), n));
    SubscriberIsFresh(steps + Times(MdWrite(id), n), id);
    var m := MdTurns(s.md[id], n);
    assert Outlook(m) == m.sent;
  }

  /** A turn on an awaited write moves exactly the head of the queue to what is written. */
  lemma OeTurnWrites(v: OeView)
    requires OeOk(v) && v.writing
    ensures var t := OeTurned(v);
            && (v.writer == OeWriting ==> t.written == v.written + [v.wq[0]] && t.wq == v.wq[1..])
            && (v.writer == OeSpawned ==> t.written == v.written && t.wq == v.wq)
            && t.writer == if t.wq == [] then OeOff else OeWriting
  {
  }

  function OeTurns(v: OeView, n: nat): OeView {
    if n == 0 then v else OeTurned(OeTurns(v, n - 1))
  }

  function OeWork(v: OeView): nat {
    |v.wq| + if v.writer == OeSpawned then 1 else 0
  }

  lemma {:induction false} OeTurnsWork(v: OeView, n: nat)
    requires OeOk(v)
    ensures OeOk(OeTurns(v, n)) && OeHistory(OeTurns(v, n)) == OeHistory(v)
    ensures OeWork(OeTurns(v, n)) == if n < OeWork(v) then OeWork(v) - n else 0
  {
    hide OeHistory;
    if n > 0 {
      OeTurnsWork(v, n - 1);
      OeTurnedOk(OeTurns(v, n - 1));
    }
  }

  lemma OeNoTurn(s: ServerState, id: int)
    requires id in s.oe
    ensures s.(oe := s.oe[id := OeTurns(s.oe[id], 0)]) == s
  {
    assert s.oe[id := s.oe[id]] == s.oe;
  }

  lemma OeOneTurn(s: ServerState, id: int, n: nat)
    requires id in s.oe && n > 0
    ensures var v := s.oe[id];
            ServerNext(s.(oe := s.oe[id := OeTurns(v, n - 1)]), OeWrite(id))
            == s.(oe := s.oe[id := OeTurns(v, n)])
  {
    hide OeTurned;
    var m := OeTurns(s.oe[id], n - 1);
    assert s.oe[id := m][id := OeTurned(m)] == s.oe[id := OeTurned(m)];
  }

  lemma {:induction false} OeWriteTimes(steps: seq<ServerStep>, id: int, n: nat)
    requires id in ServerRun(steps).oe
    ensures var s := ServerRun(steps);
            ServerRun(steps + Times(OeWrite(id), n)) == s.(oe := s.oe[id := OeTurns(s.oe[id], n)])
  {
    hide ServerRun, ServerNext, OeTurns, Times;
    var s := ServerRun(steps);
    if n == 0 {
      RunNone(steps, OeWrite(id));
      OeNoTurn(s, id);
    } else {
      OeWriteTimes(steps, id, n - 1);
      RunNext(steps, OeWrite(id), n);
      OeOneTurn(s, id, n);
    }
  }

  /**
   * From any moment, one turn of a client's writer more than its queue holds (and any more than that)
   * writes the whole queue in order; the writer has ended.
   */
  lemma ResultsGetOut(steps: seq<ServerStep>, id: int, n: nat)
    requires id in ServerRun(steps).oe && n >= |ServerRun(steps).oe[id].wq| + 1
    ensures var s, t := ServerRun(steps), ServerRun(steps + Times(OeWrite(id), n));
            && id in t.oe && t == s.(oe := s.oe[id := t.oe[id]])
            && (var v := t.oe[id];
                v.wq == [] && v.writer == OeOff && !v.writing && v.written == s.oe[id].written + s.oe[id].wq)
  {
    hide ServerRun, OeTurns, ServerNext;
    ServerRunOk(steps);
    SubscriberIdsBelow(ServerRun(steps), id);
    OeWriteTimes(steps, id, n);
    OeTurnsWork(ServerRun(steps).oe[id], n);
  }

  // ---- The threads ----

  lemma EngineTakesHead(s: ServerState)
    requires s.inbound != []
    ensures var t := ServerNext(s, EngineTurn);
            && t.log == s.log + [s.inbound[0]] && t.inbound == s.inbound[1..] && |t.posts| == |s.posts| + 1
            && t.oe == s.oe && t.md == s.md && t.latest == s.latest
  {
    hide Push, PostFor;
  }

  lemma IoTakesHead(s: ServerState)
    requires s.posts != []
    ensures var t := ServerNext(s, IoTurn);
            && t.posts == s.posts[1..] && t.log == s.log && t.inbound == s.inbound && t.book == s.book
            && t.oe.Keys == s.oe.Keys && t.md.Keys == s.md.Keys
  {
    hide OeQueuedAll, Routed, MdOffered;
  }

  /** As many turns of the engine thread as orders are queued process them all, in order. */
  lemma {:induction false} EngineEmptiesQueue(steps: seq<ServerStep>, n: nat)
    requires n <= |ServerRun(steps).inbound|
    ensures var s, t := ServerRun(steps), ServerRun(steps + Times(EngineTurn, n));
            && t.log == s.log + s.inbound[..n] && t.inbound == s.inbound[n..] && |t.posts| == |s.posts| + n
            && t.oe == s.oe && t.md == s.md && t.latest == s.latest
  {
    hide ServerRun, ServerNext, Times;
    var s := ServerRun(steps);
    if n == 0 {
      RunNone(steps, EngineTurn);
      assert s.log + s.inbound[..0] == s.log && s.inbound[0..] == s.inbound;
    } else {
      EngineEmptiesQueue(steps, n - 1);
      var t := ServerRun(steps + Times(EngineTurn, n - 1));
      RunNext(steps, EngineTurn, n);
      EngineTakesHead(t);
      assert t.inbound[0] == s.inbound[n - 1] && t.inbound[1..] == s.inbound[n..];
      assert s.inbound[..n] == s.inbound[..n - 1] + [s.inbound[n - 1]];
      AppendAssoc(s.log, s.inbound[..n - 1], [s.inbound[n - 1]]);
    }
  }

  /** As many turns of the io thread as work is posted run it all. */
  lemma {:induction false} IoEmptiesPosts(steps: seq<ServerStep>, n: nat)
    requires n <= |ServerRun(steps).posts|
    ensures var s, t := ServerRun(steps), ServerRun(steps + Times(IoTurn, n));
            && t.posts == s.posts[n..] && t.log == s.log && t.inbound == s.inbound && t.book == s.book
            && t.oe.Keys == s.oe.Keys && t.md.Keys == s.md.Keys
  {
    hide ServerRun, ServerNext, Times;
    if n == 0 {
      RunNone(steps, IoTurn);
    } else {
      IoEmptiesPosts(steps, n - 1);
      var posts, t := ServerRun(steps).posts, ServerRun(steps + Times(IoTurn, n - 1));
      RunNext(steps, IoTurn, n);
      IoTakesHead(t);
      assert t.posts[1..] == posts[n..];
    }
  }

  /** The steps that process what is queued, run what is then posted, and write one client's results. */
  function Answering(steps: seq<ServerStep>, id: int): seq<ServerStep> {
    var a := steps + Times(EngineTurn, |ServerRun(steps).inbound|);
    var b := a + Times(IoTurn, |ServerRun(a).posts|);
    b + Times(OeWrite(id), if id in ServerRun(b).oe then |ServerRun(b).oe[id].wq| + 1 else 0)
  }

  /**
   * Every queued order is answered: from any moment, with nothing further arriving, finitely many turns
   * of the two threads and of a connected client's writer leave nothing queued or posted, the cached
   * packet that of the book, and the client with every report of a sequential run over all the orders.
   */
  lemma EveryOrderIsAnswered(steps: seq<ServerStep>, id: int)
    requires id in ServerRun(steps).oe
    ensures var s, t := ServerRun(steps), ServerRun(Answering(steps, id));
            && t.inbound == [] && t.posts == [] && t.log == s.log + s.inbound
            && t.book == Replay(SeedBook(), t.log) && t.latest == Snapshot(t.book)
            && id in t.oe && t.oe[id].wq == [] && !t.oe[id].writing
            && t.oe[id].written == Routed(ReplayResults(SeedBook(), t.log), id)
  {
    hide ServerRun, ServerNext, Replay, ReplayResults, Routed, Snapshot, SeedBook;
    var s := ServerRun(steps);
    EngineEmptiesQueue(steps, |s.inbound|);
    var a := steps + Times(EngineTurn, |s.inbound|);
    assert s.inbound[..|s.inbound|] == s.inbound;
    IoEmptiesPosts(a, |ServerRun(a).posts|);
    var b := a + Times(IoTurn, |ServerRun(a).posts|);
    assert id in ServerRun(b).oe;
    ResultsGetOut(b, id, |ServerRun(b).oe[id].wq| + 1);
    var all := Answering(steps, id);
    LatestBookIsReplay(all);
    ResultsRefineSequentialRun(all, id);
    var t := ServerRun(all);
    assert t.log[..|t.log|] == t.log;
  }
}
