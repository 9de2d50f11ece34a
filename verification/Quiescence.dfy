/**
 * Once no client is given a new target, the exchange comes to rest: whatever is under way, finitely many
 * steps of the machinery deliver all of it, and then every client and every subscriber is in agreement
 * with the engine's book.
 */
module Quiescence {
  import opened Protocol
  import opened FlatBook
  import opened Codec
  import opened Depth
  import opened BaseClients
  import opened SideView
  import opened Attribution
  import opened Accounting
  import opened Sessions
  import opened OrderEntry
  import opened OrderSafety
  import opened ServerModel
  import opened Progress
  import opened System
  import opened Lives

  // ---- Sums over sessions ----

  ghost function Sum<T(!new)>(ids: set<T>, f: T -> nat): nat {
    if ids == {} then 0
    else
      var t :| t in ids;
      f(t) + Sum(ids - {t}, f)
  }

  lemma {:induction false} SumTake<T(!new)>(ids: set<T>, f: T -> nat, t: T)
    requires t in ids
    ensures Sum(ids, f) == f(t) + Sum(ids - {t}, f)
    decreases |ids|
  {
    var u :| u in ids && Sum(ids, f) == f(u) + Sum(ids - {u}, f);
    if u != t {
      SumTake(ids - {u}, f, t);
      SumTake(ids - {t}, f, u);
      assert ids - {u} - {t} == ids - {t} - {u};
    }
  }

  lemma {:induction false} SumSame<T(!new)>(ids: set<T>, f: T -> nat, g: T -> nat)
    requires forall t <- ids :: f(t) == g(t)
    ensures Sum(ids, f) == Sum(ids, g)
    decreases |ids|
  {
    if ids != {} {
      var t :| t in ids;
      SumTake(ids, f, t);
      SumTake(ids, g, t);
      SumSame(ids - {t}, f, g);
    }
  }

  lemma SumLess<T(!new)>(ids: set<T>, f: T -> nat, g: T -> nat, t: T)
    requires t in ids && g(t) < f(t) && forall u <- ids :: u != t ==> g(u) == f(u)
    ensures Sum(ids, g) < Sum(ids, f)
  {
    SumTake(ids, f, t);
    SumTake(ids, g, t);
    SumSame(ids - {t}, f, g);
  }

  // ---- What is left to do, most significant first ----

  /** The sides on which a client still holds a target back: each may make it write once more. */
  function Held(c: ClientState): nat {
    (if c.bid.pending != 0 then 1 else 0) + if c.ask.pending != 0 then 1 else 0
  }

  ghost function Targets(x: Exchange): nat {
    Sum(x.server.oe.Keys, id => if id in x.clients then Held(x.clients[id]) else 0)
  }

  ghost function OnWires(x: Exchange): nat {
    Sum(x.server.oe.Keys, id => if id in x.wire then |x.wire[id]| else 0)
  }

  ghost function ToWrite(x: Exchange): nat {
    Sum(x.server.oe.Keys, id => if id in x.server.oe then OeWork(x.server.oe[id]) else 0)
  }

  ghost function ToPublish(x: Exchange): nat {
    Sum(x.server.md.Keys, id => if id in x.server.md then MdWork(x.server.md[id]) else 0)
  }

  ghost function ToRead(x: Exchange): nat {
    Sum(x.server.oe.Keys, id => |Unread(x, id)|)
  }

  /** Less is left to do: the first of the seven amounts that differs is smaller. */
  ghost predicate Closer(x': Exchange, x: Exchange) {
    || Targets(x') < Targets(x)
    || (Targets(x') == Targets(x)
        && (|| OnWires(x') < OnWires(x)
            || (OnWires(x') == OnWires(x) && CloserInside(x', x))))
  }

  /** The same for what is inside the server or on its way out of it. */
  ghost predicate CloserInside(x': Exchange, x: Exchange) {
    || |x'.server.inbound| < |x.server.inbound|
    || (|x'.server.inbound| == |x.server.inbound|
        && (|| |x'.server.posts| < |x.server.posts|
            || (|x'.server.posts| == |x.server.posts| && CloserOut(x', x))))
  }

  ghost predicate CloserOut(x': Exchange, x: Exchange) {
    || ToWrite(x') < ToWrite(x)
    || (ToWrite(x') == ToWrite(x)
        && (ToPublish(x') < ToPublish(x) || (ToPublish(x') == ToPublish(x) && ToRead(x') < ToRead(x))))
  }

  /** The machinery at work: no new targets, nobody joins or leaves. */
  predicate IsWork(e: Event) {
    || e.Arrive? || (e.Read? && ValidQty(e.orderQty))
    || (e.Serve? && (e.step.EngineTurn? || e.step.IoTurn? || e.step.OeWrite? || e.step.MdWrite?))
  }

  /** Nothing is under way to or from anyone connected, and no writer is active. */
  ghost predicate AtRest(x: Exchange) {
    && x.server.inbound == [] && x.server.posts == []
    && (forall id <- x.server.oe ::
          id in x.wire && x.wire[id] == [] && Unread(x, id) == []
          && x.server.oe[id].wq == [] && !x.server.oe[id].writing)
    && (forall id <- x.server.md :: !x.server.md[id].hasPending && !x.server.md[id].writing)
  }

  // ---- Each piece of work brings it closer ----

  lemma ArriveWorks(x: Exchange, id: int)
    requires Keyed(x) && id in x.server.oe && x.wire[id] != []
    ensures Closer(Happen(x, Arrive(id)), x)
  {
    hide Sum, Unread, OeWork, MdWork, Held;
    var x' := Happen(x, Arrive(id));
    SumSame(x.server.oe.Keys, c => if c in x.clients then Held(x.clients[c]) else 0,
            c => if c in x'.clients then Held(x'.clients[c]) else 0);
    SumLess(x.server.oe.Keys, c => if c in x.wire then |x.wire[c]| else 0,
            c => if c in x'.wire then |x'.wire[c]| else 0, id);
  }

  /** Held-back targets and connections stay as they are while the server works. */
  lemma SameAmounts(x: Exchange, x': Exchange)
    requires x'.server.oe.Keys == x.server.oe.Keys && x'.wire.Keys == x.wire.Keys && x'.clients.Keys == x.clients.Keys
    requires forall c <- x.wire :: x'.wire[c] == x.wire[c]
    requires forall c <- x.clients :: Held(x'.clients[c]) == Held(x.clients[c])
    ensures Targets(x') == Targets(x) && OnWires(x') == OnWires(x)
  {
    hide Sum, Held;
    var ids := x.server.oe.Keys;
    var f: int -> nat := c => if c in x.clients then Held(x.clients[c]) else 0;
    var g: int -> nat := c => if c in x'.clients then Held(x'.clients[c]) else 0;
    forall c | c in ids ensures f(c) == g(c) {
      assert c in x.clients.Keys <==> c in x'.clients.Keys;
    }
    SumSame(ids, f, g);
    var h: int -> nat := c => if c in x.wire then |x.wire[c]| else 0;
    var k: int -> nat := c => if c in x'.wire then |x'.wire[c]| else 0;
    forall c | c in ids ensures h(c) == k(c) {
      assert c in x.wire.Keys <==> c in x'.wire.Keys;
    }
    SumSame(ids, h, k);
  }

  lemma EngineWorks(x: Exchange)
    requires x.server.inbound != []
    ensures Closer(Happen(x, Serve(EngineTurn)), x)
  {
    hide ServerNext, Targets, OnWires, CloserOut;
    var x' := Happen(x, Serve(EngineTurn));
    EngineTakesHead(x.server);
    SameAmounts(x, x');
    assert |x'.server.inbound| < |x.server.inbound|;
  }

  lemma IoWorks(x: Exchange)
    requires x.server.posts != []
    ensures Closer(Happen(x, Serve(IoTurn)), x)
  {
    hide ServerNext, Targets, OnWires, CloserOut;
    var x' := Happen(x, Serve(IoTurn));
    IoTakesHead(x.server);
    SameAmounts(x, x');
    assert |x'.server.posts| < |x.server.posts|;
  }

  lemma OeTurnWorks(v: OeView)
    requires OeOk(v) && v.writing
    ensures OeWork(OeTurned(v)) < OeWork(v)
  {
  }

  lemma OeWriteWorks(x: Exchange, id: int)
    requires ServerInv(x.server) && id in x.server.oe && x.server.oe[id].writing
    ensures Closer(Happen(x, Serve(OeWrite(id))), x)
  {
    hide Sum, OeWork, MdWork, Unread, Targets, OnWires, OeTurned, ServerInv, ToRead, ToPublish;
    var x' := Happen(x, Serve(OeWrite(id)));
    SessionIsOk(x.server, id);
    OeTurnWorks(x.server.oe[id]);
    SameAmounts(x, x');
    SumLess(x.server.oe.Keys, c => if c in x.server.oe then OeWork(x.server.oe[c]) else 0,
            c => if c in x'.server.oe then OeWork(x'.server.oe[c]) else 0, id);
  }

  lemma MdWriteWorks(x: Exchange, id: int)
    requires ServerInv(x.server) && id in x.server.md && x.server.md[id].writing
    ensures Closer(Happen(x, Serve(MdWrite(id))), x)
  {
    hide Sum, OeWork, MdWork, Unread, Targets, OnWires, MdTurned, ServerInv, ToRead, Outlook;
    var x' := Happen(x, Serve(MdWrite(id)));
    SubscriberIdsBelow(x.server, id);
    MdTurnWorks(x.server.md[id]);
    assert x'.server.md.Keys == x.server.md.Keys;
    SameAmounts(x, x');
    SumSame(x.server.oe.Keys, c => if c in x.server.oe then OeWork(x.server.oe[c]) else 0,
            c => if c in x'.server.oe then OeWork(x'.server.oe[c]) else 0);
    SumLess(x.server.md.Keys, c => if c in x.server.md then MdWork(x.server.md[c]) else 0,
            c => if c in x'.server.md then MdWork(x'.server.md[c]) else 0, id);
  }

  /** A client that writes because of a report has used up a target it held back. */
  lemma AnswerUsesTarget(c: ClientState, r: ResultPacket, orderQty: int)
    ensures var out := Answered(c, r, orderQty);
            Held(out.client) <= Held(c) && (out.sent != [] ==> Held(out.client) < Held(c))
  {
    hide PendingTaken;
    AnsweredInSteps(c, r, orderQty);
    var read := JustRead(Measured(c, r.seqNo), r);
    assert Held(read) == Held(c);
    TakingUsesTarget(read, r.side, orderQty);
  }

  lemma TakingUsesTarget(c: ClientState, side: Side, orderQty: int)
    ensures var out := PendingTaken(c, side, orderQty);
            Held(out.client) <= Held(c) && (out.sent != [] ==> Held(out.client) < Held(c))
  {
    hide Send;
    SendKeepsSides(c, side);
  }

  lemma SendKeepsSides(c: ClientState, side: Side)
    ensures forall price, qty ::
              Send(c, side, price, qty).client.bid == c.bid && Send(c, side, price, qty).client.ask == c.ask
  {
  }

  /** Reading changes nothing at the server and, when nothing is written in answer, only one client's stream. */
  lemma ReadStays(x: Exchange, id: int)
    requires Keyed(x) && id in x.server.oe && Unread(x, id) != []
    ensures var x', out := Happen(x, Read(id, 1)), Answered(x.clients[id], Unread(x, id)[0], 1);
            && x'.server == x.server && x'.clients == x.clients[id := out.client]
            && x'.wire == x.wire[id := x.wire[id] + out.sent]
            && |Unread(x', id)| < |Unread(x, id)|
            && (forall c <- x.server.oe :: c != id ==> Unread(x', c) == Unread(x, c))
  {
    hide Answered, ServerNext;
  }

  lemma ReadWorks(x: Exchange, id: int)
    requires Keyed(x) && id in x.server.oe && Unread(x, id) != []
    ensures Closer(Happen(x, Read(id, 1)), x)
  {
    hide Sum, OeWork, MdWork, Answered, Held, Happen, Unread;
    var x' := Happen(x, Read(id, 1));
    var out := Answered(x.clients[id], Unread(x, id)[0], 1);
    ReadStays(x, id);
    AnswerUsesTarget(x.clients[id], Unread(x, id)[0], 1);
    if Held(out.client) < Held(x.clients[id]) {
      SumLess(x.server.oe.Keys, c => if c in x.clients then Held(x.clients[c]) else 0,
              c => if c in x'.clients then Held(x'.clients[c]) else 0, id);
    } else {
      assert out.sent == [] && x'.wire[id] == x.wire[id];
      SameAmounts(x, x');
      hide Targets, OnWires;
      SumLess(x.server.oe.Keys, c => |Unread(x, c)|, c => |Unread(x', c)|, id);
      assert ToWrite(x') == ToWrite(x) && ToPublish(x') == ToPublish(x);
    }
  }

  /** As long as the exchange is not at rest there is work that brings it closer. */
  lemma WorkIsLeft(x: Exchange) returns (e: Event)
    requires ExchangeOk(x) && !AtRest(x)
    ensures IsWork(e) && Closer(Happen(x, e), x)
  {
    hide Closer, Unread, Happen, StreamOk, MdOk, OeOk, PostsOk, SessionsOk;
    if id :| id in x.server.oe && x.wire[id] != [] {
      e := Arrive(id);
      ArriveWorks(x, id);
    } else if x.server.inbound != [] {
      e := Serve(EngineTurn);
      EngineWorks(x);
    } else if x.server.posts != [] {
      e := Serve(IoTurn);
      IoWorks(x);
    } else if id :| id in x.server.oe && x.server.oe[id].writing {
      e := Serve(OeWrite(id));
      OeWriteWorks(x, id);
    } else if id :| id in x.server.md && x.server.md[id].writing {
      e := Serve(MdWrite(id));
      MdWriteWorks(x, id);
    } else {
      var id := SomethingToRead(x);
      e := Read(id, 1);
      ReadWorks(x, id);
    }
  }

  lemma SomethingToRead(x: Exchange) returns (id: int)
    requires ExchangeOk(x) && !AtRest(x)
    requires x.server.inbound == [] && x.server.posts == []
    requires forall id <- x.server.oe :: x.wire[id] == [] && !x.server.oe[id].writing
    requires forall id <- x.server.md :: !x.server.md[id].writing
    ensures id in x.server.oe && Unread(x, id) != []
  {
    hide Unread, StreamOk, MdOk, OeOk, ServerInv;
    forall c | c in x.server.oe ensures x.server.oe[c].wq == [] {
      SubscriberIdsBelow(x.server, c);
      QueueNeedsWriter(x.server.oe[c]);
    }
    forall c | c in x.server.md ensures !x.server.md[c].hasPending {
      SubscriberIdsBelow(x.server, c);
      SlotNeedsWriter(x.server.md[c]);
    }
    id :| id in x.server.oe && Unread(x, id) != [];
  }

  lemma QueueNeedsWriter(v: OeView)
    requires OeOk(v)
    ensures v.wq != [] <==> v.writing
  {
  }

  lemma SlotNeedsWriter(m: MdView)
    requires MdOk(m)
    ensures m.hasPending ==> m.writing
  {
  }

  lemma LifeSnoc(events: seq<Event>, e: Event)
    ensures Life(events + [e]) == Happen(Life(events), e)
  {
    hide Happen;
    assert (events + [e])[..|events|] == events;
  }

  lemma WorkKeepsSessions(x: Exchange, e: Event)
    requires IsWork(e)
    ensures Happen(x, e).server.oe.Keys == x.server.oe.Keys && Happen(x, e).server.md.Keys == x.server.md.Keys
  {
    hide Happen, ServerNext;
    ServerMoves(x, e);
    var steps := ServerStepOf(x, e);
    if steps != [] {
      ClientsMove(x.server, steps[0]);
      SubscribersMove(x.server, steps[0]);
    }
  }

  /** From every moment of every life, finitely much work brings the exchange to rest. */
  lemma {:induction false} LifeComesToRest(events: seq<Event>) returns (more: seq<Event>)
    ensures forall e <- more :: IsWork(e)
    ensures AtRest(Life(events + more))
    ensures Life(events + more).server.oe.Keys == Life(events).server.oe.Keys
    ensures Life(events + more).server.md.Keys == Life(events).server.md.Keys
    decreases Targets(Life(events)), OnWires(Life(events)), |Life(events).server.inbound|,
              |Life(events).server.posts|, ToWrite(Life(events)), ToPublish(Life(events)), ToRead(Life(events))
  {
    hide Life, Happen, AtRest, Targets, OnWires, ToWrite, ToPublish, ToRead, ExchangeOk, IsWork;
    if AtRest(Life(events)) {
      more := [];
      assert events + more == events;
    } else {
      LifeOk(events);
      var e := WorkIsLeft(Life(events));
      LifeSnoc(events, e);
      WorkKeepsSessions(Life(events), e);
      var rest := LifeComesToRest(events + [e]);
      more := [e] + rest;
      assert events + more == (events + [e]) + rest;
    }
  }

  // ---- What rest means ----

  /** Nothing under way, and the side idle with no entry in the book or resting with exactly its entry there. */
  ghost predicate InAgreement(s: Sight) {
    && s.up == [] && s.down == []
    && if s.live == [] then s.state.state == Idle
       else s.state.state == Resting && Works(s.live, s.state.price, s.state.qty)
  }

  lemma ClientAtRest(events: seq<Event>, id: int, side: Side)
    requires AtRest(Life(events)) && id in Life(events).server.oe
    ensures id in Life(events).clients && InAgreement(SightOf(Life(events), id, side))
    ensures Upward(Life(events), id) == [] && Downward(Life(events), id) == []
  {
    hide Life, Own, ReportedAt, Agrees, Works, StreamOk, ServerInv, Unread;
    var x := Life(events);
    LifeOk(events);
    DownwardIsUnderWay(events, id);
    assert PostedTo(x.server.posts, id) == [];
    EveryClientAgrees(events, id, side);
    QuietSide(SightOf(x, id, side).state, SightOf(x, id, side).live);
  }

  lemma SubscriberAtRest(s: ServerState, id: int)
    requires ServerInv(s) && id in s.md && s.posts == [] && !s.md[id].writing && !s.md[id].hasPending
    ensures s.md[id].sent != [] && s.md[id].sent[|s.md[id].sent| - 1] == Snapshot(s.book)
  {
    hide Snapshot, BookAt, ReportedAt, OeOk, OeHistory, PostsOk, Subsequence;
    assert MdSessionOk(s.latest, s.md[id]);
    assert Outlook(s.md[id]) == s.md[id].sent;
  }

  /**
   * The exchange settles. From every moment of every life, once targets stop, finitely much work leaves
   * every connected client in agreement with the engine on both sides, with every order it ever measured
   * answered and logged, and every subscriber with the present book as the last packet it was sent.
   */
  lemma ExchangeSettles(events: seq<Event>) returns (more: seq<Event>)
    ensures forall e <- more :: IsWork(e)
    ensures var x := Life(events + more);
            && x.server.oe.Keys == Life(events).server.oe.Keys && x.server.md.Keys == Life(events).server.md.Keys
            && x.server.inbound == [] && x.server.posts == []
            && (forall id, side | id in x.server.oe ::
                  id in x.clients && InAgreement(SightOf(x, id, side))
                  && (x.clients[id].measuring ==>
                        forall k :: Logged(x.clients[id].log, k) <==> 1 <= k < x.clients[id].nextSeq))
            && (forall id | id in x.server.md ::
                  x.server.md[id].sent != []
                  && x.server.md[id].sent[|x.server.md[id].sent| - 1] == Snapshot(x.server.book))
  {
    hide Life, IsWork, InAgreement, SightOf, Snapshot, Logged, ServerInv, StreamOk, Unread;
    more := LifeComesToRest(events);
    var all := events + more;
    var x := Life(all);
    forall id, side | id in x.server.oe
      ensures id in x.clients && InAgreement(SightOf(x, id, side))
      ensures x.clients[id].measuring ==>
                forall k :: Logged(x.clients[id].log, k) <==> 1 <= k < x.clients[id].nextSeq
    {
      ClientAtRest(all, id, side);
      if x.clients[id].measuring {
        AllAnsweredAtRest(all, id);
      }
    }
    LifeOk(all);
    forall id | id in x.server.md
      ensures x.server.md[id].sent != []
              && x.server.md[id].sent[|x.server.md[id].sent| - 1] == Snapshot(x.server.book)
    {
      SubscriberAtRest(x.server, id);
    }
  }

  lemma AllAnsweredAtRest(events: seq<Event>, id: int)
    requires id in Life(events).clients && Life(events).clients[id].measuring
    requires Upward(Life(events), id) == [] && Downward(Life(events), id) == []
    ensures var c := Life(events).clients[id]; forall k :: Logged(c.log, k) <==> 1 <= k < c.nextSeq
  {
    hide Life, AsRun, Run, Logged, Upward, Downward;
    LifeIsRun(events, id);
    PeerParts(Life(events), id);
    QuietMeansAllAnswered(AsRun(events), id);
  }
}
