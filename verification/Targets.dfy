/** What a client does about its targets, over whole runs: when it writes, when it stays, what it loses. */
module Targets {
  import opened Protocol
  import opened FlatBook
  import opened BaseClients
  import opened OrderEntry
  import opened OrderSafety
  import opened SideView

  // ---- A target given ----

  /** What client c wrote to its connection in going from s to s'. */
  ghost predicate Writes(s: State, s': State, c: int, o: OrderPacket)
    requires c in s.peers && c in s'.peers
  {
    s'.peers[c].up == s.peers[c].up + [o]
  }

  /**
   * A client that is given a target cancels exactly if the side rests at another price, orders exactly if
   * the side is idle, and otherwise writes nothing; the cancel names the price on record, the order the
   * target. A side already resting at its target stays put, and so does all else.
   */
  lemma TargetWrites(steps: seq<Step>, c: int, side: Side, desired: int, orderQty: int)
    requires c in Run(steps).peers && ValidQty(orderQty)
    ensures var s, s' := Run(steps), Run(steps + [Target(c, side, desired, orderQty)]);
            var r := s.peers[c].client.Of(side);
            && s'.book == s.book && s'.peers.Keys == s.peers.Keys
            && (forall d <- s.peers :: d != c ==> s'.peers[d] == s.peers[d])
            && s'.peers[c].client.Of(Opposite(side)) == s.peers[c].client.Of(Opposite(side))
            && ((exists o :: Writes(s, s', c, o) && IsCancel(o)) <==>
                  r.state == Resting && desired > 0 && desired != r.price)
            && ((exists o :: Writes(s, s', c, o) && !IsCancel(o)) <==> r.state == Idle && desired > 0)
            && (forall o :: Writes(s, s', c, o) ==>
                  o.side == side && o.price == if IsCancel(o) then r.price else desired)
            && (forall o :: Writes(s, s', c, o) && !IsCancel(o) ==> o.qty == orderQty)
            && ((forall o :: !Writes(s, s', c, o)) ==> s'.peers[c].up == s.peers[c].up)
            && (desired <= 0 || (r.state == Resting && desired == r.price) ==> s' == s)
  {
    hide Run;
    var s, s' := Run(steps), Run(steps + [Target(c, side, desired, orderQty)]);
    RunAfter(steps, Target(c, side, desired, orderQty));
    RunNotesWanted(steps, c, side);
    var out := Reconciled(s.peers[c].client, side, desired, orderQty);
    TargetSends(s.peers[c].client, side, desired, orderQty);
    assert s'.peers[c].up == s.peers[c].up + out.sent;
    if out.sent != [] {
      assert Writes(s, s', c, out.sent[0]);
      forall o | Writes(s, s', c, o) ensures o == out.sent[0] {
        assert (s.peers[c].up + [o])[|s.peers[c].up|] == o;
      }
    } else {
      forall o ensures !Writes(s, s', c, o) {
        if Writes(s, s', c, o) {
          assert |s'.peers[c].up| == |s.peers[c].up| + 1;
        }
      }
    }
  }

  lemma TargetSends(c: ClientState, side: Side, desired: int, orderQty: int)
    requires c.ready && ValidQty(orderQty)
    ensures var out, r := Reconciled(c, side, desired, orderQty), c.Of(side);
            && (out.sent == [] || out.sent == [out.sent[0]])
            && (out.sent != [] && IsCancel(out.sent[0]) <==> r.state == Resting && desired > 0 && desired != r.price)
            && (out.sent != [] && !IsCancel(out.sent[0]) <==> r.state == Idle && desired > 0)
            && (out.sent != [] ==> out.sent[0].side == side)
            && (out.sent != [] && IsCancel(out.sent[0]) ==> out.sent[0].price == r.price)
            && (out.sent != [] && !IsCancel(out.sent[0]) ==>
                  out.sent[0].price == desired && out.sent[0].qty == orderQty)
            && (desired <= 0 || (r.state == Resting && desired == r.price) ==> out.client == c)
            && out.client.Of(Opposite(side)) == c.Of(Opposite(side))
  {
  }

  /** However often a side resting at its target is given it again, nothing happens: it keeps its place. */
  lemma {:induction false} SteadyTarget(steps: seq<Step>, c: int, side: Side, orderQty: int, n: nat)
    requires c in Run(steps).peers && ValidQty(orderQty) && Run(steps).peers[c].client.Of(side).state == Resting
    ensures var price := Run(steps).peers[c].client.Of(side).price;
            Run(steps + Times(Target(c, side, price, orderQty), n)) == Run(steps)
  {
    hide Run;
    var again := Target(c, side, Run(steps).peers[c].client.Of(side).price, orderQty);
    if n == 0 {
      assert steps + Times(again, 0) == steps;
    } else {
      SteadyTarget(steps, c, side, orderQty, n - 1);
      TargetWrites(steps + Times(again, n - 1), c, side, again.desired, orderQty);
      AppendAssoc(steps, Times(again, n - 1), [again]);
    }
  }

  // ---- A target kept or lost ----

  /** The last usable target the client kept for a side since it last ordered there or read a confirmation. */
  function Wanted(steps: seq<Step>, c: int, side: Side): int {
    if steps == [] then 0
    else
      var before, step := steps[..|steps| - 1], steps[|steps| - 1];
      var peers, t := Run(before).peers, Wanted(before, c, side);
      if c !in peers then 0
      else
        match step
        case Target(id, s, desired, orderQty) =>
          if id == c && s == side && ValidQty(orderQty) then Kept(peers[c].client.Of(side), desired, t) else t
        case Deliver(id, orderQty) =>
          if id == c && ValidQty(orderQty) && peers[c].down != []
             && peers[c].down[0].side == side
             && (peers[c].down[0].kind == Accepted || peers[c].down[0].kind == Cancelled) then 0
          else t
        case _ => t
  }

  /** While a side waits for a confirmation it holds that target and no older one. */
  lemma {:induction false} RunNotesWanted(steps: seq<Step>, c: int, side: Side)
    requires c in Run(steps).peers
    ensures Run(steps).peers[c].client.ready && Notes(Run(steps).peers[c].client.Of(side), Wanted(steps, c, side))
  {
    hide Push, Reconciled, Answered, Notes, Inv, Routed, SeedBook;
    if steps != [] {
      var before, step := steps[..|steps| - 1], steps[|steps| - 1];
      if c in Run(before).peers {
        RunNotesWanted(before, c, side);
        var p, t := Run(before).peers[c], Wanted(before, c, side);
        match step
        case Target(id, s, desired, orderQty) => ReconcileNotes(p.client, s, desired, orderQty, side, t);
        case Deliver(id, orderQty) =>
          if p.down != [] {
            AnswerNotes(p.client, p.down[0], orderQty, side, t);
          }
        case _ =>
      } else {
        NewcomerNotes(step.measuring, side);
      }
    }
  }

  lemma NewcomerNotes(measuring: bool, side: Side)
    ensures NewClient(true, measuring).ready && Notes(NewClient(true, measuring).Of(side), 0)
  {
  }

  /**
   * In every run, what reading a report makes a client write. An order exactly if the report confirms a
   * cancel and the client was given a usable target for the side since that order's registration, and then
   * at the last of those: a target from before the registration is lost. A cancel exactly if the report is
   * a registration and the last usable target since the order went out is another price.
   */
  lemma RequoteIffWanted(steps: seq<Step>, c: int, orderQty: int)
    requires c in Run(steps).peers && Run(steps).peers[c].down != [] && ValidQty(orderQty)
    ensures var p := Run(steps).peers[c];
            var r := p.down[0];
            var t := Wanted(steps, c, r.side);
            var out := Answered(p.client, r, orderQty);
            && (OrdersAfresh(out) <==> r.kind == Cancelled && t > 0)
            && (OrdersAfresh(out) ==> out.sent == [OrderPacket(r.side, t, orderQty, p.client.nextSeq)])
            && (var price := p.client.Of(r.side).price;
                && (Cancels(out) <==> r.kind == Accepted && t > 0 && t != price)
                && (Cancels(out) ==> out.sent == [OrderPacket(r.side, price, 0, p.client.nextSeq)]))
  {
    hide Run, Wanted, Answered, Notes;
    var p := Run(steps).peers[c];
    EveryReportIsExpected(steps, c);
    RunNotesWanted(steps, c, p.down[0].side);
    ReportWritesIff(p.client, p.down[0], orderQty, Wanted(steps, c, p.down[0].side));
  }

  // ---- A run in which a target is lost ----

  const FIRST_ORDER := OrderPacket(Buy, 100, 10, 1)
  const ITS_CANCEL := OrderPacket(Buy, 100, 0, 2)

  /** Order at 100, a target of 101 before the registration is read, and everything delivered. */
  const LOSING_RUN: seq<Step> :=
    [Connect(1, false), Target(1, Buy, 100, 10), Target(1, Buy, 101, 10),
     Engine(1), Deliver(1, 10), Engine(1), Deliver(1, 10)]

  /** One client with the sell side unused. */
  function Buyer(bid: SideState, history: seq<OrderPacket>, received: set<int>): ClientState {
    NewClient(true, false).(bid := bid, nextSeq := |history| + 1, history := history, received := received)
  }

  function Alone(b: Book, p: Peer): State {
    State(b, map[1 := p])
  }

  function WithFirst(): Book {
    SeedBook().(bids := [Entry(100, 1, 10, 1)] + SeedBook().bids)
  }

  lemma FirstRests()
    ensures Push(SeedBook(), 1, FIRST_ORDER)
         == PushOut(WithFirst(), [OrderResult(1, Accepted, Buy, 100, 10, 1)], true)
  {
    assert MatchFor(SeedBook(), FIRST_ORDER) == MatchOut(SeedBook().asks, [], 10);
    assert SeedBook().bids[0].price == 99;
  }

  lemma FirstIsCancelled()
    ensures Push(WithFirst(), 1, ITS_CANCEL)
         == PushOut(SeedBook(), [OrderResult(1, Cancelled, Buy, 100, 0, 2)], true)
  {
    assert WithFirst().bids[0] in WithFirst().bids;
    assert WithFirst().bids[1..] == SeedBook().bids;
  }

  lemma EngineAlone(b: Book, client: ClientState, o: OrderPacket, after: Book, r: OrderResult)
    requires Push(b, 1, o) == PushOut(after, [r], true) && r.clientId == 1
    ensures Apply(Alone(b, Peer(client, [o], [])), Engine(1)) == Alone(after, Peer(client, [], [ToPacket(r)]))
  {
    hide Push;
    RoutedOne(r, 1);
    var p' := AfterEngine(1, Peer(client, [o], []), 1, [r]);
    assert p' == Peer(client, [], [ToPacket(r)]);
    assert Apply(Alone(b, Peer(client, [o], [])), Engine(1)).peers == map[1 := p'];
  }

  lemma TargetAlone(b: Book, p: Peer, desired: int)
    ensures Apply(Alone(b, p), Target(1, Buy, desired, 10))
         == Alone(b, AfterClient(p, Reconciled(p.client, Buy, desired, 10), p.down))
  {
    hide Reconciled;
  }

  lemma DeliverAlone(b: Book, client: ClientState, r: ResultPacket)
    ensures var p := Peer(client, [], [r]);
            Apply(Alone(b, p), Deliver(1, 10)) == Alone(b, AfterClient(p, Answered(client, r, 10), []))
  {
    hide Answered;
    assert [r][1..] == [];
  }

  /** The four things the client does on the way. */
  lemma BuyerSteps()
    ensures Reconciled(Buyer(NO_ORDER, [], {}), Buy, 100, 10)
         == ClientOut(Buyer(SideState(WaitAccepted, 100, 10, 0), [FIRST_ORDER], {}), [FIRST_ORDER])
    ensures Reconciled(Buyer(SideState(WaitAccepted, 100, 10, 0), [FIRST_ORDER], {}), Buy, 101, 10)
         == ClientOut(Buyer(SideState(WaitAccepted, 100, 10, 101), [FIRST_ORDER], {}), [])
    ensures Answered(Buyer(SideState(WaitAccepted, 100, 10, 101), [FIRST_ORDER], {}),
                     ResultPacket(Accepted, Buy, 100, 10, 1), 10)
         == ClientOut(Buyer(SideState(WaitCanceled, 100, 10, 0), [FIRST_ORDER, ITS_CANCEL], {1}), [ITS_CANCEL])
    ensures Answered(Buyer(SideState(WaitCanceled, 100, 10, 0), [FIRST_ORDER, ITS_CANCEL], {1}),
                     ResultPacket(Cancelled, Buy, 100, 0, 2), 10)
         == ClientOut(Buyer(SideState(Idle, 100, 10, 0), [FIRST_ORDER, ITS_CANCEL], {1, 2}), [])
  {
    assert [FIRST_ORDER] + [ITS_CANCEL] == [FIRST_ORDER, ITS_CANCEL];
    assert {} + {1} == {1} && {1} + {2} == {1, 2};
  }

  /** The client is given a target of 101 before it reads anything, reads everything, and never quotes it. */
  lemma TargetIsDropped()
    ensures Run(LOSING_RUN).book == SeedBook()
    ensures var c := Buyer(SideState(Idle, 100, 10, 0), [FIRST_ORDER, ITS_CANCEL], {1, 2});
            Run(LOSING_RUN).peers == map[1 := Peer(c, [], [])]
  {
    hide Push, SeedBook, Routed, Reconciled, Answered, Buyer;
    var all := LOSING_RUN;
    BuyerSteps();
    LosingStart(all);
    LosingEnd(all);
    assert all[..7] == all;
  }

  lemma RunNext(all: seq<Step>, k: nat)
    requires k < |all|
    ensures Run(all[..k + 1]) == Apply(Run(all[..k]), all[k])
  {
    assert all[..k + 1][..k] == all[..k];
  }

  lemma LosingStart(all: seq<Step>)
    requires all == LOSING_RUN
    ensures var c := Buyer(SideState(WaitAccepted, 100, 10, 101), [FIRST_ORDER], {});
            Run(all[..3]) == Alone(SeedBook(), Peer(c, [FIRST_ORDER], []))
  {
    hide Push, SeedBook, Routed, Reconciled, Answered;
    BuyerSteps();
    assert Run(all[..0]) == State(SeedBook(), map[]);
    RunNext(all, 0);
    assert NewClient(true, false) == Buyer(NO_ORDER, [], {});
    assert Run(all[..1]) == Alone(SeedBook(), Peer(Buyer(NO_ORDER, [], {}), [], []));
    hide Buyer, Run;
    RunNext(all, 1);
    TargetAlone(SeedBook(), Peer(Buyer(NO_ORDER, [], {}), [], []), 100);
    RunNext(all, 2);
    var ordered := Buyer(SideState(WaitAccepted, 100, 10, 0), [FIRST_ORDER], {});
    TargetAlone(SeedBook(), Peer(ordered, [FIRST_ORDER], []), 101);
    assert [] + [FIRST_ORDER] == [FIRST_ORDER] && [FIRST_ORDER] + [] == [FIRST_ORDER];
  }

  lemma LosingEnd(all: seq<Step>)
    requires all == LOSING_RUN
    requires var c := Buyer(SideState(WaitAccepted, 100, 10, 101), [FIRST_ORDER], {});
             Run(all[..3]) == Alone(SeedBook(), Peer(c, [FIRST_ORDER], []))
    ensures var c := Buyer(SideState(Idle, 100, 10, 0), [FIRST_ORDER, ITS_CANCEL], {1, 2});
            Run(all[..7]) == Alone(SeedBook(), Peer(c, [], []))
  {
    hide Push, SeedBook, Routed, Run, Reconciled, Answered, Buyer, Apply, WithFirst;
    BuyerSteps();
    var waiting := Buyer(SideState(WaitAccepted, 100, 10, 101), [FIRST_ORDER], {});
    var leaving := Buyer(SideState(WaitCanceled, 100, 10, 0), [FIRST_ORDER, ITS_CANCEL], {1});
    FirstRests();
    EngineAlone(SeedBook(), waiting, FIRST_ORDER, WithFirst(), OrderResult(1, Accepted, Buy, 100, 10, 1));
    RunNext(all, 3);
    DeliverAlone(WithFirst(), waiting, ResultPacket(Accepted, Buy, 100, 10, 1));
    RunNext(all, 4);
    var none: seq<OrderPacket> := [];
    assert none + [ITS_CANCEL] == [ITS_CANCEL] && none + none == none;
    assert Run(all[..5]) == Alone(WithFirst(), Peer(leaving, [ITS_CANCEL], []));
    FirstIsCancelled();
    EngineAlone(WithFirst(), leaving, ITS_CANCEL, SeedBook(), OrderResult(1, Cancelled, Buy, 100, 0, 2));
    RunNext(all, 5);
    DeliverAlone(SeedBook(), leaving, ResultPacket(Cancelled, Buy, 100, 0, 2));
    RunNext(all, 6);
  }
}
