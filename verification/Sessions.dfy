/** The two kinds of server session, each with the coroutine that writes to it. */
module Sessions {
  import opened Protocol
  import opened Codec

  // ---- Market data: one pending slot per subscriber ----

  /** Where a subscriber's writer stands: not running, started but not yet run, or awaiting a write. */
  datatype MdWriter = MdOff | MdSpawned | MdWriting(packet: Packet)

  /** A subscriber, with everything it was ever offered and everything written to it in full. */
  datatype MdView = MdView(pending: Packet, hasPending: bool, writing: bool, writer: MdWriter,
                           offered: seq<Packet>, sent: seq<Packet>)

  /** A new subscriber is offered the cached book at once. */
  function MdOpened(latest: Packet): MdView {
    MdView(latest, true, true, MdSpawned, [latest], [])
  }

  /** Broadcasting to one subscriber: overwrite the slot, and start a writer if none is active. */
  function MdOffered(m: MdView, packet: Packet): MdView {
    m.(pending := packet, hasPending := true, offered := m.offered + [packet], writing := true,
       writer := if m.writing then m.writer else MdSpawned)
  }

  function MdDone(w: MdWriter): seq<Packet> {
    if w.MdWriting? then [w.packet] else []
  }

  /** The writer runs on: the write it awaited is complete; take the slot again or end. */
  function MdTurned(m: MdView): MdView {
    if m.writer.MdOff? then m
    else
      var sent := m.sent + MdDone(m.writer);
      if m.hasPending then m.(sent := sent, hasPending := false, writer := MdWriting(m.pending))
      else m.(sent := sent, writing := false, writer := MdOff)
  }

  class MdSession {
    const id: int
    var pending: Packet
    var hasPending: bool
    var writing: bool
    var writer: MdWriter
    ghost var offered: seq<Packet>
    ghost var sent: seq<Packet>

    ghost function View(): MdView
      reads this
    {
      MdView(pending, hasPending, writing, writer, offered, sent)
    }

    constructor (id: int, latest: Packet)
      ensures this.id == id && View() == MdOpened(latest)
    {
      this.id := id;
      pending, hasPending, writing, writer := latest, true, true, MdSpawned;
      offered, sent := [latest], [];
    }

    method Offer(packet: Packet)
      modifies this
      ensures View() == MdOffered(old(View()), packet)
    {
      pending := packet;
      hasPending := true;
      if !writing {
        writing := true;
        writer := MdSpawned;
      }
      offered := offered + [packet];
    }

    /** The writer coroutine from one suspension to the next. */
    method WriterTurn()
      modifies this
      ensures View() == MdTurned(old(View()))
    {
      if writer.MdOff? {
        return;
      }
      sent := sent + MdDone(writer);
      if hasPending {
        var packet := pending;
        hasPending := false;
        writer := MdWriting(packet);
      } else {
        writing := false;
        writer := MdOff;
      }
    }
  }

  // ---- Coalescing ----

  /** a is b with some elements left out. */
  ghost predicate Subsequence(a: seq<Packet>, b: seq<Packet>) {
    || a == []
    || (b != [] && Subsequence(a, b[..|b| - 1]))
    || (b != [] && a[|a| - 1] == b[|b| - 1] && Subsequence(a[..|a| - 1], b[..|b| - 1]))
  }

  lemma SubsequenceMore(a: seq<Packet>, b: seq<Packet>, x: Packet)
    requires Subsequence(a, b)
    ensures Subsequence(a, b + [x]) && Subsequence(a + [x], b + [x])
  {
    assert (b + [x])[..|b|] == b && (a + [x])[..|a|] == a;
  }

  lemma {:induction false} SubsequenceFewer(a: seq<Packet>, b: seq<Packet>)
    requires a != [] && Subsequence(a, b)
    ensures Subsequence(a[..|a| - 1], b)
    decreases |b|
  {
    var n := |b| - 1;
    if Subsequence(a, b[..n]) {
      SubsequenceFewer(a, b[..n]);
    } else if a[..|a| - 1] != [] {
      assert Subsequence(a[..|a| - 1], b[..n]);
    }
  }

  /** What the subscriber has, is getting, and will get. */
  function Outlook(m: MdView): seq<Packet> {
    m.sent + MdDone(m.writer) + (if m.hasPending then [m.pending] else [])
  }

  /** One writer at most, never idle with something to write; nothing stale, nothing out of order. */
  ghost predicate MdOk(m: MdView) {
    && (m.writing <==> !m.writer.MdOff?)
    && (m.hasPending ==> m.writing) && (m.writer.MdSpawned? ==> m.hasPending)
    && Subsequence(Outlook(m), m.offered)
    && m.offered != [] && Outlook(m) != []
    && Outlook(m)[|Outlook(m)| - 1] == m.offered[|m.offered| - 1]
  }

  lemma MdOpenedOk(latest: Packet)
    ensures MdOk(MdOpened(latest))
  {
    assert Outlook(MdOpened(latest)) == [latest];
    assert [latest][..0] == [];
  }

  lemma MdOfferedOk(m: MdView, packet: Packet)
    requires MdOk(m)
    ensures MdOk(MdOffered(m, packet))
  {
    var m' := MdOffered(m, packet);
    var base := m.sent + MdDone(m.writer);
    assert Outlook(m') == base + [packet];
    if m.hasPending {
      SubsequenceFewer(Outlook(m), m.offered);
      assert Outlook(m)[..|Outlook(m)| - 1] == base;
    } else {
      assert Outlook(m) == base;
    }
    SubsequenceMore(base, m.offered, packet);
  }

  lemma MdTurnedOk(m: MdView)
    requires MdOk(m)
    ensures MdOk(MdTurned(m))
  {
    assert Outlook(MdTurned(m)) == Outlook(m);
  }

  // ---- Order entry: a queue of results per client ----

  datatype OeWriter = OeOff | OeSpawned | OeWriting

  datatype OeView = OeView(wq: seq<ResultPacket>, writing: bool, writer: OeWriter, written: seq<ResultPacket>)

  const OE_OPENED := OeView([], false, OeOff, [])

  function OeQueued(s: OeView, packet: ResultPacket): OeView {
    s.(wq := s.wq + [packet], writing := true, writer := if s.writing then s.writer else OeSpawned)
  }

  function OeQueuedAll(s: OeView, packets: seq<ResultPacket>): OeView {
    if packets == [] then s
    else OeQueued(OeQueuedAll(s, packets[..|packets| - 1]), packets[|packets| - 1])
  }

  /** The packet just written leaves the queue only now. */
  function OePopped(s: OeView): OeView {
    if s.writer.OeWriting? && s.wq != [] then s.(written := s.written + [s.wq[0]], wq := s.wq[1..]) else s
  }

  function OeTurned(s: OeView): OeView {
    if s.writer.OeOff? then s
    else
      var t := OePopped(s);
      if t.wq != [] then t.(writer := OeWriting) else t.(writing := false, writer := OeOff)
  }

  class OeSession {
    const clientId: int
    var wq: seq<ResultPacket>
    var writing: bool
    var writer: OeWriter
    var written: seq<ResultPacket>

    ghost function View(): OeView
      reads this
    {
      OeView(wq, writing, writer, written)
    }

    constructor (clientId: int)
      ensures this.clientId == clientId && View() == OE_OPENED
    {
      this.clientId := clientId;
      wq, writing, writer, written := [], false, OeOff, [];
    }

    method Queue(packet: ResultPacket)
      modifies this
      ensures View() == OeQueued(old(View()), packet)
    {
      wq := wq + [packet];
      if !writing {
        writing := true;
        writer := OeSpawned;
      }
    }

    method WriterTurn()
      modifies this
      ensures View() == OeTurned(old(View()))
    {
      if writer.OeOff? {
        return;
      }
      if writer.OeWriting? && wq != [] {
        written := written + [wq[0]];
        wq := wq[1..];
      }
      if wq != [] {
        writer := OeWriting;
      } else {
        writing := false;
        writer := OeOff;
      }
    }
  }

  /** Nothing is stranded: a queue that holds anything has its writer. */
  ghost predicate OeOk(s: OeView) {
    && (s.writing <==> !s.writer.OeOff?)
    && (s.wq != [] <==> s.writing)
  }

  /** All that was ever queued, in order. */
  function OeHistory(s: OeView): seq<ResultPacket> {
    s.written + s.wq
  }

  lemma {:induction false} OeQueuedAllOk(s: OeView, packets: seq<ResultPacket>)
    requires OeOk(s)
    ensures var t := OeQueuedAll(s, packets);
            && OeOk(t) && t.written == s.written && t.wq == s.wq + packets
            && OeHistory(t) == OeHistory(s) + packets
  {
    if packets == [] {
      assert s.wq + packets == s.wq && OeHistory(s) + packets == OeHistory(s);
    } else {
      var front, last := packets[..|packets| - 1], packets[|packets| - 1];
      OeQueuedAllOk(s, front);
      assert packets == front + [last];
      assert s.wq + packets == (s.wq + front) + [last];
      assert OeHistory(s) + packets == (OeHistory(s) + front) + [last];
      assert s.written + ((s.wq + front) + [last]) == (s.written + (s.wq + front)) + [last];
    }
  }

  lemma OeTurnedOk(s: OeView)
    requires OeOk(s)
    ensures OeOk(OeTurned(s)) && OeHistory(OeTurned(s)) == OeHistory(s)
    ensures OeTurned(s).written == s.written || (s.wq != [] && OeTurned(s).written == s.written + [s.wq[0]])
  {
    if s.wq != [] {
      assert s.written + s.wq == (s.written + [s.wq[0]]) + s.wq[1..];
    }
  }
}
