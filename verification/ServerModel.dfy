/**
 * The server as a transition system: the io thread, the engine thread and the writer coroutines, one
 * atomic step from suspension to suspension, in any interleaving and with any orders arriving.
 */
module ServerModel {
  import opened Protocol
  import opened FlatBook
  import opened Codec
  import opened Depth
  import opened PriceTime
  import opened Sessions
  import opened OrderEntry

  /** What the engine thread posts to the io thread for one order. */
  datatype Post = Post(results: seq<OrderResult>, snapshot: Option<Packet>)

  /** `log` is the orders the engine has taken, kept to state what the rest must agree with. */
  datatype ServerState = ServerState(
    book: Book, inbound: seq<Input>, posts: seq<Post>, latest: Packet,
    oe: map<int, OeView>, md: map<int, MdView>, nextOe: int, nextMd: int,
    log: seq<Input>)

  datatype ServerStep =
    | OeAccept
    | OeClose(id: int)
    | OeReceive(id: int, order: OrderPacket)
    | EngineTurn
    | IoTurn
    | OeWrite(id: int)
    | MdAccept
    | MdClose(id: int)
    | MdWrite(id: int)

  function NewServer(): ServerState {
    ServerState(SeedBook(), [], [], Snapshot(SeedBook()), map[], map[], 1, 1, [])
  }

  function PostFor(b: Book, input: Input): Post {
    var out := Push(b, input.clientId, input.order);
    Post(out.results, if out.dirty then Some(Snapshot(out.book)) else None)
  }

  function Sent(oe: map<int, OeView>, results: seq<OrderResult>): map<int, OeView> {
    map id | id in oe :: OeQueuedAll(oe[id], Routed(results, id))
  }

  function Broadcast(md: map<int, MdView>, packet: Packet): map<int, MdView> {
    map id | id in md :: MdOffered(md[id], packet)
  }

  function Engined(s: ServerState): ServerState {
    if s.inbound == [] then s
    else
      var input := s.inbound[0];
      s.(book := Push(s.book, input.clientId, input.order).book,
         inbound := s.inbound[1..],
         posts := s.posts + [PostFor(s.book, input)],
         log := s.log + [input])
  }

  function Published(s: ServerState): ServerState {
    if s.posts == [] then s
    else
      var post := s.posts[0];
      var sent := s.(posts := s.posts[1..], oe := Sent(s.oe, post.results));
      if post.snapshot.Some? then
        sent.(latest := post.snapshot.value, md := Broadcast(s.md, post.snapshot.value))
      else sent
  }

  function ServerNext(s: ServerState, step: ServerStep): ServerState {
    match step
    case OeAccept => s.(oe := s.oe[s.nextOe := OE_OPENED], nextOe := s.nextOe + 1)
    case OeClose(id) => s.(oe := s.oe - {id})
    case OeReceive(id, order) =>
      if id in s.oe then s.(inbound := s.inbound + [Input(id, order)]) else s
    case EngineTurn => Engined(s)
    case IoTurn => Published(s)
    case OeWrite(id) => if id in s.oe then s.(oe := s.oe[id := OeTurned(s.oe[id])]) else s
    case MdAccept => s.(md := s.md[s.nextMd := MdOpened(s.latest)], nextMd := s.nextMd + 1)
    case MdClose(id) => s.(md := s.md - {id})
    case MdWrite(id) => if id in s.md then s.(md := s.md[id := MdTurned(s.md[id])]) else s
  }

  function ServerRun(steps: seq<ServerStep>): ServerState {
    if steps == [] then NewServer()
    else ServerNext(ServerRun(steps[..|steps| - 1]), steps[|steps| - 1])
  }

  // ---- The invariant: everything agrees with a sequential replay ----

  /** The book after the first k orders the engine took, one at a time. */
  function BookAt(log: seq<Input>, k: nat): Book
    requires k <= |log|
  {
    Replay(SeedBook(), log[..k])
  }

  /** All that those orders report to one client. */
  function ReportedAt(log: seq<Input>, k: nat, id: int): seq<ResultPacket>
    requires k <= |log|
  {
    Routed(ReplayResults(SeedBook(), log[..k]), id)
  }

  /** How many orders have had their post run. */
  ghost predicate Posted(s: ServerState, k: int) {
    0 <= k && k + |s.posts| == |s.log|
  }

  ghost predicate PostsOk(s: ServerState, k: nat)
    requires Posted(s, k)
  {
    forall i :: 0 <= i < |s.posts| ==> s.posts[i] == PostFor(BookAt(s.log, k + i), s.log[k + i])
  }

  ghost predicate IdsBelow(ins: seq<Input>, n: int) {
    forall i :: 0 <= i < |ins| ==> 1 <= ins[i].clientId < n
  }

  /** A client's session: its writer is right, and it was handed what the first k orders report to it. */
  ghost predicate OeSessionOk(log: seq<Input>, k: nat, id: int, v: OeView)
    requires k <= |log|
  {
    OeOk(v) && OeHistory(v) == ReportedAt(log, k, id)
  }

  /** A subscriber's session: its writer is right, and the cached packet is the last it was offered. */
  ghost predicate MdSessionOk(latest: Packet, m: MdView) {
    MdOk(m) && m.offered[|m.offered| - 1] == latest
  }

  ghost predicate SessionsOk(s: ServerState, k: nat)
    requires Posted(s, k)
  {
    && (forall id <- s.oe :: 1 <= id < s.nextOe && OeSessionOk(s.log, k, id, s.oe[id]))
    && (forall id <- s.md :: id < s.nextMd && MdSessionOk(s.latest, s.md[id]))
  }

  ghost predicate ServerInv(s: ServerState) {
    var k := |s.log| - |s.posts|;
    && Posted(s, k)
    && s.nextOe >= 1 && IdsBelow(s.inbound, s.nextOe) && IdsBelow(s.log, s.nextOe)
    && s.book == BookAt(s.log, |s.log|)
    && PostsOk(s, k)
    && s.latest == Snapshot(BookAt(s.log, k))
    && SessionsOk(s, k)
  }

  lemma BookAtNext(log: seq<Input>, k: nat)
    requires k < |log|
    ensures var out := Push(BookAt(log, k), log[k].clientId, log[k].order);
            && BookAt(log, k + 1) == out.book
            && ReplayResults(SeedBook(), log[..k + 1]) == ReplayResults(SeedBook(), log[..k]) + out.results
  {
    assert log[..k + 1][..k] == log[..k];
  }

  lemma ReportedNext(log: seq<Input>, k: nat, id: int)
    requires k < |log|
    ensures ReportedAt(log, k + 1, id)
         == ReportedAt(log, k, id) + Routed(PostFor(BookAt(log, k), log[k]).results, id)
  {
    hide Push, Replay, ReplayResults, Routed, SeedBook, Snapshot;
    BookAtNext(log, k);
    RoutedAppend(ReplayResults(SeedBook(), log[..k]), PostFor(BookAt(log, k), log[k]).results, id);
  }

  // ---- Nobody is reported to before being connected ----

  ghost predicate EntriesBelow(entries: seq<Entry>, n: int) {
    forall i :: 0 <= i < |entries| ==> entries[i].clientId < n
  }

  ghost predicate ResultsBelow(results: seq<OrderResult>, n: int) {
    forall i :: 0 <= i < |results| ==> results[i].clientId < n
  }

  lemma {:induction false} MatchBelow(entries: seq<Entry>, side: Side, limit: int, qty: int, id: int, seqNo: int,
                                      n: int)
    requires EntriesBelow(entries, n) && id < n
    ensures var r := Match(entries, side, limit, qty);
            EntriesBelow(r.rest, n) && ResultsBelow(FillResults(id, seqNo, side, r.fills), n)
  {
    if qty > 0 && entries != [] && Crosses(side, limit, entries[0].price) {
      var r := Match(entries, side, limit, qty);
      if qty >= entries[0].qty {
        MatchBelow(entries[1..], side, limit, qty - entries[0].qty, id, seqNo, n);
        assert r.fills[1..] == Match(entries[1..], side, limit, qty - entries[0].qty).fills;
      } else {
        assert r.fills[1..] == [];
      }
    }
  }

  lemma {:induction false} InsertIdsBelow(entries: seq<Entry>, side: Side, e: Entry, n: int)
    requires EntriesBelow(entries, n) && e.clientId < n
    ensures EntriesBelow(Insert(entries, side, e), n)
  {
    if entries != [] && !Better(side, e.price, entries[0].price) {
      InsertIdsBelow(entries[1..], side, e, n);
    }
  }

  lemma PushIdsBelow(b: Book, id: int, o: OrderPacket, n: int)
    requires EntriesBelow(b.bids, n) && EntriesBelow(b.asks, n) && id < n
    ensures var out := Push(b, id, o);
            EntriesBelow(out.book.bids, n) && EntriesBelow(out.book.asks, n) && ResultsBelow(out.results, n)
  {
    var own, opp := b.On(o.side), b.On(Opposite(o.side));
    var out := Push(b, id, o);
    if o.qty == 0 {
      if Has(own, o.price, id) {
        var i := RemovePosition(own, o.price, id);
      }
    } else if Tradable(o) {
      MatchBelow(opp, o.side, o.price, o.qty, id, o.seqNo, n);
      TradeBook(b, id, o);
      InsertIdsBelow(own, o.side, Entry(o.price, id, MatchFor(b, o).left, o.seqNo), n);
    }
    assert EntriesBelow(out.book.On(o.side), n) && EntriesBelow(out.book.On(Opposite(o.side)), n);
  }

  lemma {:induction false} ReplayBelow(ins: seq<Input>, n: int)
    requires IdsBelow(ins, n) && n >= 1
    ensures var b := Replay(SeedBook(), ins);
            EntriesBelow(b.bids, n) && EntriesBelow(b.asks, n) && ResultsBelow(ReplayResults(SeedBook(), ins), n)
  {
    if ins != [] {
      var k := |ins| - 1;
      ReplayBelow(ins[..k], n);
      PushIdsBelow(Replay(SeedBook(), ins[..k]), ins[k].clientId, ins[k].order, n);
    }
  }

  lemma NothingReportedYet(log: seq<Input>, k: nat, n: int)
    requires k <= |log| && n >= 1 && IdsBelow(log, n)
    ensures ReportedAt(log, k, n) == []
  {
    ReplayBelow(log[..k], n);
    RoutedElsewhere(ReplayResults(SeedBook(), log[..k]), n);
  }

  // ---- Each step keeps the invariant ----

  lemma EngineTurnOk(s: ServerState)
    requires ServerInv(s)
    ensures ServerInv(Engined(s))
  {
    hide Push, Replay, ReplayResults, Routed, SeedBook, Snapshot;
    if s.inbound != [] {
      var s' := Engined(s);
      var k := |s.log| - |s.posts|;
      LogGrows(s, s', k);
      BookAtNext(s'.log, |s.log|);
    }
  }

  /** The log is only appended to, so what was true of its beginning stays true. */
  lemma LogGrows(s: ServerState, s': ServerState, k: nat)
    requires ServerInv(s) && s.inbound != [] && s' == Engined(s) && Posted(s, k)
    ensures BookAt(s'.log, |s.log|) == s.book
    ensures Posted(s', k) && PostsOk(s', k) && SessionsOk(s', k)
    ensures BookAt(s'.log, k) == BookAt(s.log, k)
  {
    hide Push, Replay, ReplayResults, Routed, SeedBook, Snapshot;
    hide PostFor, OeOk, OeHistory, MdOk, Subsequence, Outlook;
    forall j: nat | j <= |s.log|
      ensures BookAt(s'.log, j) == BookAt(s.log, j)
      ensures forall id :: ReportedAt(s'.log, j, id) == ReportedAt(s.log, j, id)
    {
      assert s'.log[..j] == s.log[..j];
    }
  }

  /** Without a snapshot the book has not changed, so the cached packet is still that of the replay. */
  lemma CleanPostKeepsBook(log: seq<Input>, k: nat)
    requires k < |log|
    ensures PostFor(BookAt(log, k), log[k]).snapshot ==
            if BookAt(log, k + 1) != BookAt(log, k) then Some(Snapshot(BookAt(log, k + 1))) else None
  {
    BookAtNext(log, k);
    ReplayKeepsShape(SeedBook(), log[..k]);
    DirtyIffChanged(BookAt(log, k), log[k].clientId, log[k].order);
  }

  lemma SentOk(s: ServerState, k: nat, id: int)
    requires k < |s.log| && id in s.oe && OeSessionOk(s.log, k, id, s.oe[id])
    ensures var results := PostFor(BookAt(s.log, k), s.log[k]).results;
            OeSessionOk(s.log, k + 1, id, Sent(s.oe, results)[id])
  {
    hide Push, Replay, ReplayResults, Routed, SeedBook, Snapshot;
    OeQueuedAllOk(s.oe[id], Routed(PostFor(BookAt(s.log, k), s.log[k]).results, id));
    ReportedNext(s.log, k, id);
  }

  lemma IoTurnPosts(s: ServerState, k: nat)
    requires s.posts != [] && Posted(s, k) && PostsOk(s, k)
    ensures Posted(Published(s), k + 1) && PostsOk(Published(s), k + 1)
    ensures s.posts[0] == PostFor(BookAt(s.log, k), s.log[k])
  {
    hide Push, Replay, ReplayResults, Routed, SeedBook, Snapshot;
    var s' := Published(s);
    assert s.posts[0] == PostFor(BookAt(s.log, k + 0), s.log[k + 0]);
    forall i | 0 <= i < |s'.posts|
      ensures s'.posts[i] == PostFor(BookAt(s'.log, k + 1 + i), s'.log[k + 1 + i])
    {
      assert s.posts[i + 1] == PostFor(BookAt(s.log, k + (i + 1)), s.log[k + (i + 1)]);
    }
  }

  lemma IoTurnOk(s: ServerState)
    requires ServerInv(s)
    ensures ServerInv(Published(s))
  {
    hide Push, Replay, ReplayResults, Routed, SeedBook, Snapshot;
    hide PostFor, BookAt, ReportedAt, OeOk, OeHistory, MdOk, Subsequence, Outlook;
    if s.posts != [] {
      var s' := Published(s);
      var k := |s.log| - |s.posts|;
      IoTurnPosts(s, k);
      CleanPostKeepsBook(s.log, k);
      forall id | id in s'.oe
        ensures OeSessionOk(s'.log, k + 1, id, s'.oe[id])
      {
        SentOk(s, k, id);
      }
      forall id | id in s'.md
        ensures MdSessionOk(s'.latest, s'.md[id])
      {
        if s.posts[0].snapshot.Some? {
          MdOfferedOk(s.md[id], s.posts[0].snapshot.value);
        }
      }
    }
  }

  /** A step that only touches sessions has only the sessions to account for. */
  lemma OnlySessions(s: ServerState, s': ServerState)
    requires ServerInv(s)
    requires s' == s.(oe := s'.oe, md := s'.md, nextOe := s'.nextOe, nextMd := s'.nextMd)
    requires s'.nextOe >= s.nextOe && SessionsOk(s', |s.log| - |s.posts|)
    ensures ServerInv(s')
  {
    hide Push, Replay, ReplayResults, Routed, SeedBook, Snapshot;
    hide PostFor, BookAt, ReportedAt, OeOk, OeHistory, MdOk, Subsequence, Outlook;
  }

  lemma OeWriteOk(s: ServerState, id: int)
    requires ServerInv(s)
    ensures ServerInv(ServerNext(s, OeWrite(id)))
  {
    hide Push, Replay, ReplayResults, Routed, SeedBook, Snapshot;
    hide PostFor, BookAt, ReportedAt, OeOk, OeHistory, MdOk, Subsequence, Outlook;
    if id in s.oe {
      OeTurnedOk(s.oe[id]);
      assert OeSessionOk(s.log, |s.log| - |s.posts|, id, OeTurned(s.oe[id]));
      OnlySessions(s, ServerNext(s, OeWrite(id)));
    }
  }

  lemma MdWriteOk(s: ServerState, id: int)
    requires ServerInv(s)
    ensures ServerInv(ServerNext(s, MdWrite(id)))
  {
    hide Push, Replay, ReplayResults, Routed, SeedBook, Snapshot;
    hide PostFor, BookAt, ReportedAt, OeOk, OeHistory, MdOk, Subsequence, Outlook;
    if id in s.md {
      MdTurnedOk(s.md[id]);
      assert MdSessionOk(s.latest, MdTurned(s.md[id]));
      OnlySessions(s, ServerNext(s, MdWrite(id)));
    }
  }

  lemma OeAcceptOk(s: ServerState)
    requires ServerInv(s)
    ensures ServerInv(ServerNext(s, OeAccept))
  {
    hide Push, Replay, ReplayResults, Routed, SeedBook, Snapshot;
    hide PostFor, BookAt, ReportedAt, MdOk, Subsequence, Outlook;
    var k := |s.log| - |s.posts|;
    NothingReportedYet(s.log, k, s.nextOe);
    assert OeSessionOk(s.log, k, s.nextOe, OE_OPENED);
    OnlySessions(s, ServerNext(s, OeAccept));
  }

  lemma MdAcceptOk(s: ServerState)
    requires ServerInv(s)
    ensures ServerInv(ServerNext(s, MdAccept))
  {
    hide Push, Replay, ReplayResults, Routed, SeedBook, Snapshot;
    hide PostFor, BookAt, ReportedAt, OeOk, OeHistory, MdOk, Subsequence, Outlook;
    MdOpenedOk(s.latest);
    assert MdSessionOk(s.latest, MdOpened(s.latest));
    OnlySessions(s, ServerNext(s, MdAccept));
  }

  lemma CloseOk(s: ServerState, step: ServerStep)
    requires ServerInv(s) && (step.OeClose? || step.MdClose?)
    ensures ServerInv(ServerNext(s, step))
  {
    hide Push, Replay, ReplayResults, Routed, SeedBook, Snapshot;
    hide PostFor, BookAt, ReportedAt, OeOk, OeHistory, MdOk, Subsequence, Outlook;
    OnlySessions(s, ServerNext(s, step));
  }

  lemma ReceiveOk(s: ServerState, id: int, order: OrderPacket)
    requires ServerInv(s)
    ensures ServerInv(ServerNext(s, OeReceive(id, order)))
  {
    hide Push, Replay, ReplayResults, Routed, SeedBook, Snapshot;
    hide PostFor, BookAt, ReportedAt, OeOk, OeHistory, MdOk, Subsequence, Outlook;
  }

  lemma StepOk(s: ServerState, step: ServerStep)
    requires ServerInv(s)
    ensures ServerInv(ServerNext(s, step))
  {
    match step
    case OeAccept => OeAcceptOk(s);
    case MdAccept => MdAcceptOk(s);
    case OeClose(id) => CloseOk(s, step);
    case MdClose(id) => CloseOk(s, step);
    case OeReceive(id, order) => ReceiveOk(s, id, order);
    case EngineTurn => EngineTurnOk(s);
    case IoTurn => IoTurnOk(s);
    case OeWrite(id) => OeWriteOk(s, id);
    case MdWrite(id) => MdWriteOk(s, id);
  }

  lemma {:induction false} ServerRunOk(steps: seq<ServerStep>)
    ensures ServerInv(ServerRun(steps))
  {
    if steps != [] {
      ServerRunOk(steps[..|steps| - 1]);
      StepOk(ServerRun(steps[..|steps| - 1]), steps[|steps| - 1]);
    }
  }

  // ---- Stopping ----

  /** The engine loop once no more orders arrive: turn after turn until the queue is empty. */
  function Drained(s: ServerState): ServerState
    decreases |s.inbound|
  {
    if s.inbound == [] then s else Drained(Engined(s))
  }

  /** After a stop request every queued order is still processed, in order, and its results are posted. */
  lemma {:induction false} StopDrainsTheQueue(s: ServerState)
    requires ServerInv(s)
    ensures var t := Drained(s);
            && ServerInv(t) && t.inbound == [] && t.log == s.log + s.inbound
            && |t.posts| == |s.posts| + |s.inbound| && s.posts <= t.posts
            && t.book == Replay(SeedBook(), s.log + s.inbound)
    decreases |s.inbound|
  {
    hide Push, ReplayResults, Routed, SeedBook, Snapshot, PostFor, PostsOk, SessionsOk;
    var t := Drained(s);
    if s.inbound == [] {
      assert s.log + s.inbound == s.log && s.log[..|s.log|] == s.log;
    } else {
      EngineTurnOk(s);
      StopDrainsTheQueue(Engined(s));
      assert (s.log + [s.inbound[0]]) + s.inbound[1..] == s.log + s.inbound;
    }
  }

  // ---- What this gives ----

  /**
   * The cached packet: after every run it is the packet of the book as it was after exactly the
   * orders whose posts have run, though orders that change nothing post no snapshot.
   */
  lemma LatestBookIsReplay(steps: seq<ServerStep>)
    ensures var s := ServerRun(steps);
            && |s.posts| <= |s.log|
            && s.latest == Snapshot(Replay(SeedBook(), s.log[..|s.log| - |s.posts|]))
            && s.book == Replay(SeedBook(), s.log)
  {
    hide Push, Snapshot, SeedBook, PostsOk, SessionsOk;
    ServerRunOk(steps);
    var s := ServerRun(steps);
    assert s.log[..|s.log|] == s.log;
  }

  /**
   * A subscriber: what was written to it is the offers, some left out, in their order; a filled slot
   * has its writer; and once the writer has ended, the last packet written is the current book.
   */
  lemma SubscriberIsFresh(steps: seq<ServerStep>, id: int)
    requires id in ServerRun(steps).md
    ensures var m := ServerRun(steps).md[id];
            && Subsequence(m.sent, m.offered)
            && (m.hasPending ==> m.writing) && (m.writing <==> !m.writer.MdOff?)
            && (m.writer.MdOff? ==> m.sent != [] && m.sent[|m.sent| - 1] == ServerRun(steps).latest)
  {
    ServerRunOk(steps);
    var m := ServerRun(steps).md[id];
    SentIsSubsequence(m);
    if m.writer.MdOff? {
      assert Outlook(m) == m.sent;
    }
  }

  lemma SentIsSubsequence(m: MdView)
    requires Subsequence(Outlook(m), m.offered)
    ensures Subsequence(m.sent, m.offered)
  {
    var a := m.sent + MdDone(m.writer);
    if m.hasPending {
      SubsequenceFewer(Outlook(m), m.offered);
      assert Outlook(m)[..|Outlook(m)| - 1] == a;
    } else {
      assert Outlook(m) == a;
    }
    if m.writer.MdWriting? {
      SubsequenceFewer(a, m.offered);
      assert a[..|a| - 1] == m.sent;
    } else {
      assert a == m.sent;
    }
  }

  lemma {:induction false} ResultsGrow(b: Book, ins: seq<Input>, k: nat, id: int)
    requires k <= |ins|
    ensures Routed(ReplayResults(b, ins[..k]), id) <= Routed(ReplayResults(b, ins), id)
  {
    if k < |ins| {
      var n := |ins| - 1;
      ResultsGrow(b, ins[..n], k, id);
      assert ins[..n][..k] == ins[..k];
      RoutedAppend(ReplayResults(b, ins[..n]), Push(Replay(b, ins[..n]), ins[n].clientId, ins[n].order).results, id);
    } else {
      assert ins[..k] == ins;
    }
  }

  /**
   * A connected client: what was written to it is a prefix of what a sequential run of the engine
   * over the same orders reports to it; nothing queued is without a writer; and with every post run
   * and the writer ended, it is all of it.
   */
  lemma ResultsRefineSequentialRun(steps: seq<ServerStep>, id: int)
    requires id in ServerRun(steps).oe
    ensures var s := ServerRun(steps);
            var all := Routed(ReplayResults(SeedBook(), s.log), id);
            && s.oe[id].written <= all
            && (s.oe[id].wq != [] <==> s.oe[id].writing) && (s.oe[id].writing <==> !s.oe[id].writer.OeOff?)
            && (s.posts == [] && !s.oe[id].writing ==> s.oe[id].written == all)
  {
    hide Push, Snapshot, SeedBook, PostsOk;
    ServerRunOk(steps);
    var s := ServerRun(steps);
    ResultsGrow(SeedBook(), s.log, |s.log| - |s.posts|, id);
    assert s.oe[id].written <= OeHistory(s.oe[id]);
    assert s.log[..|s.log|] == s.log;
  }
}
