/** Every order sent is answered, and its first answer is recorded exactly once. */
module Accounting {
  import opened Protocol
  import opened FlatBook
  import opened PriceTime
  import opened BaseClients
  import opened OrderEntry

  /** The serial numbers of a client's entries lie below `lo`. */
  ghost predicate OwnBelow(entries: seq<Entry>, c: int, lo: int) {
    forall i :: 0 <= i < |entries| && entries[i].clientId == c ==> 1 <= entries[i].seqNo < lo
  }

  ghost predicate Answers(down: seq<ResultPacket>, seqNo: int) {
    exists i :: 0 <= i < |down| && down[i].seqNo == seqNo
  }

  ghost predicate AllBelow(down: seq<ResultPacket>, lo: int) {
    forall i :: 0 <= i < |down| ==> 1 <= down[i].seqNo < lo
  }

  ghost predicate Logged(log: seq<LogLine>, seqNo: int) {
    exists i :: 0 <= i < |log| && log[i].seqNo == seqNo
  }

  ghost predicate LoggedOnce(log: seq<LogLine>) {
    forall i, j :: 0 <= i < j < |log| ==> log[i].seqNo != log[j].seqNo
  }

  /** Order number k of a client, if it has sent so many, has this side and price. */
  predicate SentAs(history: seq<OrderPacket>, k: int, side: Side, price: int) {
    && 1 <= k <= |history|
    && history[k - 1].seqNo == k && history[k - 1].side == side && history[k - 1].price == price
  }

  /** What is kept of an order, in flight or logged, is of the order sent under that number. */
  ghost predicate RecordsOk(c: ClientState) {
    && (forall k <- c.inflight :: SentAs(c.history, k, c.inflight[k].side, c.inflight[k].price))
    && (forall i :: 0 <= i < |c.log| ==> SentAs(c.history, c.log[i].seqNo, c.log[i].side, c.log[i].price))
  }

  /** Orders are numbered from 1 without a gap. */
  ghost predicate NumberedOk(c: ClientState) {
    c.nextSeq == |c.history| + 1 && forall i :: 0 <= i < |c.history| ==> c.history[i].seqNo == i + 1
  }

  /**
   * The client's own accounts: what is in flight is what was sent and not yet answered, and the log
   * has one line for each answered order.
   */
  ghost predicate LedgerOk(c: ClientState) {
    && (forall k :: k in c.received ==> 1 <= k < c.nextSeq)
    && (forall k :: k in c.inflight <==> c.measuring && 1 <= k < c.nextSeq && k !in c.received)
    && LoggedOnce(c.log)
    && (forall k :: Logged(c.log, k) <==> c.measuring && k in c.received)
    && NumberedOk(c) && RecordsOk(c)
  }

  /** The first serial number the engine has not yet seen. */
  function NextAtEngine(p: Peer): int { p.client.nextSeq - |p.up| }

  /** What is sent arrives in order; all that has arrived is answered, in flight or already read. */
  ghost predicate ChannelsOk(b: Book, c: int, p: Peer) {
    var lo := NextAtEngine(p);
    && 1 <= lo && |p.up| <= |p.client.history| && p.up == p.client.history[|p.client.history| - |p.up|..]
    && (forall i :: 0 <= i < |p.up| ==> p.up[i].seqNo == lo + i)
    && AllBelow(p.down, lo)
    && OwnBelow(b.bids, c, lo) && OwnBelow(b.asks, c, lo)
    && (forall k :: k in p.client.received ==> k < lo)
    && (forall k :: 1 <= k < lo && k !in p.client.received ==> Answers(p.down, k))
  }

  ghost predicate Accounted(b: Book, c: int, p: Peer) {
    LedgerOk(p.client) && ChannelsOk(b, c, p)
  }

  ghost predicate AllAccounted(s: State) {
    forall c <- s.peers :: c >= 1 && Accounted(s.book, c, s.peers[c])
  }

  // ---- Client steps ----

  /** The part of a client that the accounts are about. */
  function Ledger(c: ClientState): ClientState { c.(bid := NO_ORDER, ask := NO_ORDER) }

  /** Setting a target leaves the accounts alone or enters one order sent. */
  ghost predicate SendsAtMostOne(c: ClientState, out: ClientOut) {
    || (out.sent == [] && Ledger(out.client) == Ledger(c))
    || (exists side, price, qty ::
          out.sent == Send(c, side, price, qty).sent && Ledger(out.client) == Ledger(Send(c, side, price, qty).client))
  }

  lemma ReconcileSendsAtMostOne(c: ClientState, side: Side, desired: int, orderQty: int)
    ensures SendsAtMostOne(c, Reconciled(c, side, desired, orderQty))
  {
    var out := Reconciled(c, side, desired, orderQty);
    if out.sent != [] {
      var o := out.sent[0];
      assert out.sent == Send(c, side, o.price, o.qty).sent;
      assert Ledger(out.client) == Ledger(Send(c, side, o.price, o.qty).client);
    }
  }

  lemma PendingSendsAtMostOne(c: ClientState, side: Side, orderQty: int)
    ensures SendsAtMostOne(c, PendingTaken(c, side, orderQty))
  {
    var pending := c.Of(side).pending;
    ReconcileSendsAtMostOne(c, side, pending, orderQty);
    assert Ledger(PendingTaken(c, side, orderQty).client) ==
           if pending == 0 then Ledger(c) else Ledger(Reconciled(c, side, pending, orderQty).client);
  }

  lemma SendLedger(c: ClientState, out: ClientOut)
    requires LedgerOk(c) && SendsAtMostOne(c, out)
    ensures LedgerOk(out.client) && out.client.history == c.history + out.sent
  {
    if out.sent == [] {
      assert c.history + [] == c.history;
      assert out.client == Ledger(out.client).(bid := out.client.bid, ask := out.client.ask);
    }
  }

  lemma SendAccounted(b: Book, c: int, p: Peer, out: ClientOut)
    requires Accounted(b, c, p) && SendsAtMostOne(p.client, out)
    ensures Accounted(b, c, AfterClient(p, out, p.down))
  {
    hide LedgerOk, RecordsOk, NumberedOk;
    SendLedger(p.client, out);
    var p' := AfterClient(p, out, p.down);
    assert out.client.received == p.client.received && NextAtEngine(p') == NextAtEngine(p) by {
      assert Ledger(out.client).received == p.client.received;
      assert Ledger(out.client).nextSeq == p.client.nextSeq + |out.sent|;
    }
    assert p'.up == p'.client.history[|p'.client.history| - |p'.up|..];
  }

  lemma LogAppend(log: seq<LogLine>, line: LogLine, k: int)
    ensures Logged(log + [line], k) <==> Logged(log, k) || line.seqNo == k
  {
    if Logged(log, k) {
      var i :| 0 <= i < |log| && log[i].seqNo == k;
      assert (log + [line])[i].seqNo == k;
    }
    if line.seqNo == k {
      assert (log + [line])[|log|].seqNo == k;
    }
  }

  /** Reading an answer: the first one is logged and ends the wait, later ones change nothing. */
  lemma MeasuredLedger(c: ClientState, seqNo: int)
    requires LedgerOk(c) && 1 <= seqNo < c.nextSeq
    ensures LedgerOk(Measured(c, seqNo))
  {
    var m := Measured(c, seqNo);
    if c.measuring && seqNo in c.inflight {
      var line := LogLine(seqNo, c.inflight[seqNo].side, c.inflight[seqNo].price);
      forall k ensures Logged(m.log, k) <==> Logged(c.log, k) || k == seqNo {
        LogAppend(c.log, line, k);
      }
      assert !Logged(c.log, seqNo);
    }
  }

  lemma AnswersTail(down: seq<ResultPacket>, k: int)
    requires down != []
    ensures Answers(down, k) <==> down[0].seqNo == k || Answers(down[1..], k)
  {
    if Answers(down, k) && down[0].seqNo != k {
      var i :| 0 <= i < |down| && down[i].seqNo == k;
      assert down[1..][i - 1].seqNo == k;
    }
    if Answers(down[1..], k) {
      var i :| 0 <= i < |down[1..]| && down[1..][i].seqNo == k;
      assert down[i + 1].seqNo == k;
    }
  }

  lemma ReadAccounted(b: Book, c: int, p: Peer)
    requires Accounted(b, c, p) && p.down != []
    ensures Accounted(b, c, Peer(Measured(p.client, p.down[0].seqNo), p.up, p.down[1..]))
  {
    var p' := Peer(Measured(p.client, p.down[0].seqNo), p.up, p.down[1..]);
    MeasuredLedger(p.client, p.down[0].seqNo);
    forall k | 1 <= k < NextAtEngine(p') && k !in p'.client.received
      ensures Answers(p'.down, k)
    {
      AnswersTail(p.down, k);
    }
  }

  lemma SameLedger(b: Book, c: int, p: Peer, client: ClientState)
    requires Accounted(b, c, p) && Ledger(client) == Ledger(p.client)
    ensures Accounted(b, c, p.(client := client))
  {
    assert client == Ledger(client).(bid := client.bid, ask := client.ask);
  }

  lemma DeliverAccounted(b: Book, c: int, p: Peer, orderQty: int)
    requires Accounted(b, c, p) && p.down != []
    ensures Accounted(b, c, AfterClient(p, Answered(p.client, p.down[0], orderQty), p.down[1..]))
  {
    var r := p.down[0];
    ReadAccounted(b, c, p);
    var m := Peer(Measured(p.client, r.seqNo), p.up, p.down[1..]);
    var read := JustRead(m.client, r);
    SameLedger(b, c, m, read);
    AnsweredInSteps(p.client, r, orderQty);
    if r.kind == Accepted || r.kind == Cancelled {
      PendingSendsAtMostOne(read, r.side, orderQty);
    }
    SendAccounted(b, c, m.(client := read), Answered(p.client, r, orderQty));
  }

  // ---- Engine steps ----

  lemma {:induction false} MakersBelow(entries: seq<Entry>, side: Side, limit: int, qty: int, c: int, lo: int)
    requires OwnBelow(entries, c, lo)
    ensures var r := Match(entries, side, limit, qty);
            && OwnBelow(r.rest, c, lo)
            && (forall i :: 0 <= i < |r.fills| && r.fills[i].maker.clientId == c ==>
                  1 <= r.fills[i].maker.seqNo < lo)
  {
    if qty > 0 && entries != [] && Crosses(side, limit, entries[0].price) {
      if qty >= entries[0].qty {
        MakersBelow(entries[1..], side, limit, qty - entries[0].qty, c, lo);
      }
    }
  }

  /** The reports of executions carry the taker's number or a maker's. */
  lemma {:induction false} FillReportsBelow(id: int, seqNo: int, side: Side, fills: seq<Fill>, c: int, lo: int)
    requires forall i :: 0 <= i < |fills| && fills[i].maker.clientId == c ==> 1 <= fills[i].maker.seqNo < lo
    requires c == id ==> 1 <= seqNo < lo
    ensures AllBelow(Routed(FillResults(id, seqNo, side, fills), c), lo)
  {
    if fills != [] {
      hide FillResults, Routed;
      var f, rest := fills[0], FillResults(id, seqNo, side, fills[1..]);
      var taker := OrderResult(id, Success, side, f.maker.price, f.qty, seqNo);
      var maker := OrderResult(f.maker.clientId, Success, Opposite(side), f.maker.price, f.qty, f.maker.seqNo);
      FillReportsBelow(id, seqNo, side, fills[1..], c, lo);
      FillResultsFirst(id, seqNo, side, fills);
      RoutedAppend([taker], [maker] + rest, c);
      RoutedAppend([maker], rest, c);
      RoutedOne(taker, c);
      RoutedOne(maker, c);
    }
  }

  lemma {:induction false} InsertNumbersBelow(entries: seq<Entry>, side: Side, e: Entry, c: int, lo: int)
    requires OwnBelow(entries, c, lo) && (e.clientId == c ==> 1 <= e.seqNo < lo)
    ensures OwnBelow(Insert(entries, side, e), c, lo)
  {
    if entries != [] && !Better(side, e.price, entries[0].price) {
      InsertNumbersBelow(entries[1..], side, e, c, lo);
    }
  }

  /** What one order leaves and reports to client c stays below `lo`, if the order itself does when it is c's. */
  lemma PushNumbersBelow(b: Book, id: int, o: OrderPacket, c: int, lo: int)
    requires OwnBelow(b.bids, c, lo) && OwnBelow(b.asks, c, lo) && (c == id ==> 1 <= o.seqNo < lo)
    ensures var out := Push(b, id, o);
            OwnBelow(out.book.bids, c, lo) && OwnBelow(out.book.asks, c, lo)
            && AllBelow(Routed(out.results, c), lo)
  {
    hide Match, Insert, Remove, FillResults, Routed;
    var own, opp := b.On(o.side), b.On(Opposite(o.side));
    var out := Push(b, id, o);
    assert OwnBelow(own, c, lo) && OwnBelow(opp, c, lo);
    if !Tradable(o) {
      RoutedOne(out.results[0], c);
      if o.qty == 0 && Has(own, o.price, id) {
        var i := RemovePosition(own, o.price, id);
      }
    } else {
      var m := MatchFor(b, o);
      MakersBelow(opp, o.side, o.price, o.qty, c, lo);
      FillReportsBelow(id, o.seqNo, o.side, m.fills, c, lo);
      TradeBook(b, id, o);
      if m.left > 0 {
        var accepted := OrderResult(id, Accepted, o.side, o.price, m.left, o.seqNo);
        InsertNumbersBelow(own, o.side, Entry(o.price, id, m.left, o.seqNo), c, lo);
        RoutedAppend(FillResults(id, o.seqNo, o.side, m.fills), [accepted], c);
        RoutedOne(accepted, c);
      }
    }
    assert OwnBelow(out.book.On(o.side), c, lo) && OwnBelow(out.book.On(Opposite(o.side)), c, lo);
  }

  /** Every order is answered at once: the first report is the sender's and carries its number. */
  lemma FirstReportIsSenders(b: Book, id: int, o: OrderPacket)
    ensures var results := Push(b, id, o).results;
            results != [] && results[0].clientId == id && results[0].seqNo == o.seqNo
  {
  }

  lemma SenderIsAnswered(b: Book, id: int, o: OrderPacket, before: seq<ResultPacket>)
    ensures Answers(before + Routed(Push(b, id, o).results, id), o.seqNo)
  {
    FirstReportIsSenders(b, id, o);
    var results := Push(b, id, o).results;
    assert Routed(results, id)[0] == ToPacket(results[0]);
    assert (before + Routed(results, id))[|before|].seqNo == o.seqNo;
  }

  lemma AnswersMore(a: seq<ResultPacket>, b: seq<ResultPacket>, k: int)
    requires Answers(a, k)
    ensures Answers(a + b, k)
  {
    var i :| 0 <= i < |a| && a[i].seqNo == k;
    assert (a + b)[i].seqNo == k;
  }

  lemma EngineAccounted(b: Book, c: int, p: Peer, id: int, o: OrderPacket)
    requires Accounted(b, c, p) && (c == id ==> p.up != [] && p.up[0] == o)
    ensures var out := Push(b, id, o); Accounted(out.book, c, AfterEngine(c, p, id, out.results))
  {
    var out := Push(b, id, o);
    var p' := AfterEngine(c, p, id, out.results);
    var lo, lo' := NextAtEngine(p), NextAtEngine(p');
    assert lo' == if c == id then lo + 1 else lo;
    PushNumbersBelow(b, id, o, c, lo');
    forall k | 1 <= k < lo' && k !in p'.client.received
      ensures Answers(p'.down, k)
    {
      if k < lo {
        AnswersMore(p.down, Routed(out.results, c), k);
      } else {
        SenderIsAnswered(b, id, o, p.down);
      }
    }
  }

  // ---- All runs ----

  lemma StepAccounted(s: State, step: Step)
    requires AllAccounted(s) && Inv(s)
    ensures AllAccounted(Apply(s, step))
  {
    hide Accounted, Push, Reconciled, Answered, Routed, Inv, SendsAtMostOne;
    var s' := Apply(s, step);
    match step
    case Connect(id, measuring) =>
      if id >= 1 && id !in s.peers {
        NewcomerAccounted(s, id, measuring);
      }
    case Target(id, side, desired, orderQty) =>
      if id in s.peers && ValidQty(orderQty) {
        ReconcileSendsAtMostOne(s.peers[id].client, side, desired, orderQty);
        SendAccounted(s.book, id, s.peers[id], Reconciled(s.peers[id].client, side, desired, orderQty));
      }
    case Engine(id) =>
      if id in s.peers && s.peers[id].up != [] {
        forall c | c in s'.peers
          ensures Accounted(s'.book, c, s'.peers[c])
        {
          EngineAccounted(s.book, c, s.peers[c], id, s.peers[id].up[0]);
        }
      }
    case Deliver(id, orderQty) =>
      if id in s.peers && s.peers[id].down != [] && ValidQty(orderQty) {
        DeliverAccounted(s.book, id, s.peers[id], orderQty);
      }
  }

  /** A stranger has no entries, and a new client nothing to account for. */
  lemma NewcomerAccounted(s: State, id: int, measuring: bool)
    requires Inv(s) && id >= 1 && id !in s.peers
    ensures Accounted(s.book, id, Peer(NewClient(true, measuring), [], []))
  {
    hide PeerOk;
    assert OwnBelow(s.book.bids, id, 1) && OwnBelow(s.book.asks, id, 1);
  }

  lemma {:induction false} RunAccounted(steps: seq<Step>)
    ensures AllAccounted(Run(steps))
  {
    if steps != [] {
      var before := steps[..|steps| - 1];
      RunAccounted(before);
      RunKeepsInv(before);
      StepAccounted(Run(before), steps[|steps| - 1]);
    }
  }

  /**
   * After any run, for a measuring client: the orders held as in flight are exactly those sent and
   * not yet answered; each answered order has exactly one line in the log, however many reports carried
   * its number; both record the side and price of the order sent under it; and whatever is in flight is
   * on its way to the engine or its answer is on its way back.
   */
  lemma ExactlyOnce(steps: seq<Step>, c: int)
    requires c in Run(steps).peers && Run(steps).peers[c].client.measuring
    ensures var p := Run(steps).peers[c];
            var cl := p.client;
            && (forall k :: k in cl.inflight <==> 1 <= k < cl.nextSeq && k !in cl.received)
            && (forall k :: Logged(cl.log, k) <==> k in cl.received)
            && LoggedOnce(cl.log) && RecordsOk(cl)
            && (forall k :: k in cl.inflight ==>
                  Answers(p.down, k) || exists i :: 0 <= i < |p.up| && p.up[i].seqNo == k)
  {
    RunAccounted(steps);
    var p := Run(steps).peers[c];
    assert Accounted(Run(steps).book, c, p);
    forall k | k in p.client.inflight && !Answers(p.down, k)
      ensures exists i :: 0 <= i < |p.up| && p.up[i].seqNo == k
    {
      assert k >= NextAtEngine(p);
      assert p.up[k - NextAtEngine(p)].seqNo == k;
    }
  }

  /** Once both channels are empty, every order ever sent has been answered and logged. */
  lemma QuietMeansAllAnswered(steps: seq<Step>, c: int)
    requires c in Run(steps).peers && Run(steps).peers[c].client.measuring
    requires Run(steps).peers[c].up == [] && Run(steps).peers[c].down == []
    ensures var cl := Run(steps).peers[c].client;
            (forall k :: k !in cl.inflight) && forall k :: Logged(cl.log, k) <==> 1 <= k < cl.nextSeq
  {
    RunAccounted(steps);
    var p := Run(steps).peers[c];
    assert Accounted(Run(steps).book, c, p);
    assert forall k :: !Answers(p.down, k);
  }

  // ---- The log is written in order ----

  lemma ReportAppends(c: ClientState, r: ResultPacket, orderQty: int)
    ensures var c' := Answered(c, r, orderQty).client;
            if c.measuring && r.seqNo in c.inflight then
              c'.log == c.log + [LogLine(r.seqNo, c.inflight[r.seqNo].side, c.inflight[r.seqNo].price)]
            else c'.log == c.log
  {
    hide PendingTaken;
    AnsweredInSteps(c, r, orderQty);
    PendingSendsAtMostOne(JustRead(Measured(c, r.seqNo), r), r.side, orderQty);
    KeepsLog(JustRead(Measured(c, r.seqNo), r), PendingTaken(JustRead(Measured(c, r.seqNo), r), r.side, orderQty));
  }

  lemma KeepsLog(c: ClientState, out: ClientOut)
    requires SendsAtMostOne(c, out)
    ensures out.client.log == c.log
  {
    assert Ledger(out.client).log == out.client.log;
  }

  /**
   * A step of a run adds at most one line to a client's log, at its end: the line of the order answered by
   * the report then read, if it is the order's first answer and the client measures. All else stays.
   */
  lemma LogIsAppended(steps: seq<Step>, step: Step, c: int)
    requires c in Run(steps).peers
    ensures c in Run(steps + [step]).peers
    ensures var p, p' := Run(steps).peers[c], Run(steps + [step]).peers[c];
            var reading := step.Deliver? && step.id == c && ValidQty(step.orderQty) && p.down != [];
            if reading && p.client.measuring && p.down[0].seqNo !in p.client.received then
              exists line :: p'.client.log == p.client.log + [line] && line.seqNo == p.down[0].seqNo
                             && SentAs(p.client.history, line.seqNo, line.side, line.price)
            else p'.client.log == p.client.log
  {
    hide Run, Reconciled, Answered, Push, Routed, SendsAtMostOne, LoggedOnce, Logged;
    RunAfter(steps, step);
    RunAccounted(steps);
    var p := Run(steps).peers[c];
    assert Accounted(Run(steps).book, c, p);
    match step
    case Deliver(id, orderQty) =>
      if id == c && p.down != [] {
        ReportAppends(p.client, p.down[0], orderQty);
      }
    case Target(id, side, desired, orderQty) =>
      ReconcileSendsAtMostOne(p.client, side, desired, orderQty);
      KeepsLog(p.client, Reconciled(p.client, side, desired, orderQty));
    case _ =>
  }
}
