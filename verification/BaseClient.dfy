/** The order-entry half of a trading client: one working order a side, moved by cancel and re-quote. */
module BaseClients {
  import opened Protocol

  datatype OeState = Idle | WaitAccepted | Resting | WaitCanceled

  datatype SideState = SideState(state: OeState, price: int, qty: int, pending: int)

  /** What is kept of a sent order until its first answer; clock readings are left out. */
  datatype SendHistory = SendHistory(side: Side, price: int)

  /** A line of the latency log, with the serial number it answers. */
  datatype LogLine = LogLine(seqNo: int, side: Side, price: int)

  /** `history` is every order written to the connection, `received` the serial numbers answered. */
  datatype ClientState = ClientState(
    bid: SideState, ask: SideState, ready: bool,
    measuring: bool, nextSeq: int, inflight: map<int, SendHistory>, log: seq<LogLine>,
    history: seq<OrderPacket>, received: set<int>)
  {
    function Of(side: Side): SideState {
      if side == Buy then bid else ask
    }

    function With(side: Side, s: SideState): ClientState {
      if side == Buy then this.(bid := s) else this.(ask := s)
    }
  }

  const NO_ORDER := SideState(Idle, 0, 0, 0)

  function NewClient(ready: bool, measuring: bool): ClientState {
    ClientState(NO_ORDER, NO_ORDER, ready, measuring, 1, map[], [], [], {})
  }

  /** A client, and the orders it has just written to its connection. */
  datatype ClientOut = ClientOut(client: ClientState, sent: seq<OrderPacket>)

  function Send(c: ClientState, side: Side, price: int, qty: int): ClientOut {
    var packet := OrderPacket(side, price, qty, c.nextSeq);
    ClientOut(
      c.(nextSeq := c.nextSeq + 1,
         inflight := if c.measuring then c.inflight[c.nextSeq := SendHistory(side, price)] else c.inflight,
         history := c.history + [packet]),
      [packet])
  }

  /** Bring a side towards the target price; `orderQty` is what the client would order afresh. */
  function Reconciled(c: ClientState, side: Side, desired: int, orderQty: int): ClientOut {
    var s := c.Of(side);
    if !c.ready || desired <= 0 then ClientOut(c, [])
    else
      match s.state
      case Idle =>
        var out := Send(c, side, desired, orderQty);
        out.(client := out.client.With(side, SideState(WaitAccepted, desired, orderQty, 0)))
      case Resting =>
        if s.price == desired then ClientOut(c, [])
        else
          var out := Send(c, side, s.price, 0);
          out.(client := out.client.With(side, s.(state := WaitCanceled, pending := desired)))
      case _ => ClientOut(c.With(side, s.(pending := desired)), [])
  }

  /** The first answer to a measured order is logged and the order forgotten. */
  function Measured(c: ClientState, seqNo: int): ClientState {
    var seen := c.(received := c.received + {seqNo});
    if c.measuring && seqNo in c.inflight then
      seen.(log := c.log + [LogLine(seqNo, c.inflight[seqNo].side, c.inflight[seqNo].price)],
            inflight := c.inflight - {seqNo})
    else seen
  }

  /** A confirmed side takes up a target that came in meanwhile, and then forgets it. */
  function PendingTaken(c: ClientState, side: Side, orderQty: int): ClientOut {
    if c.Of(side).pending != 0 then
      var out := Reconciled(c, side, c.Of(side).pending, orderQty);
      out.(client := out.client.With(side, out.client.Of(side).(pending := 0)))
    else ClientOut(c, [])
  }

  function Answered(c: ClientState, pack: ResultPacket, orderQty: int): ClientOut {
    var m := Measured(c, pack.seqNo);
    var s := m.Of(pack.side);
    match pack.kind
    case Accepted => PendingTaken(m.With(pack.side, s.(state := Resting)), pack.side, orderQty)
    case Cancelled => PendingTaken(m.With(pack.side, s.(state := Idle)), pack.side, orderQty)
    case Reject => ClientOut(m, [])
    case Success =>
      var qty := s.qty - pack.qty;
      ClientOut(m.With(pack.side, s.(qty := qty, state := if qty <= 0 then Idle else s.state)), [])
  }

  class BaseClient {
    var bid: SideState
    var ask: SideState
    var oeReady: bool
    var latencyEnabled: bool
    var nextSeq: int
    var inflight: map<int, SendHistory>
    var latencyLog: seq<LogLine>
    var oeSocket: seq<OrderPacket>
    ghost var received: set<int>

    ghost function State(): ClientState
      reads this
    {
      ClientState(bid, ask, oeReady, latencyEnabled, nextSeq, inflight, latencyLog, oeSocket, received)
    }

    constructor (measureLatency: bool)
      ensures State() == NewClient(false, measureLatency) && oeSocket == []
    {
      bid, ask := NO_ORDER, NO_ORDER;
      oeReady, latencyEnabled := false, measureLatency;
      nextSeq, inflight, latencyLog := 1, map[], [];
      oeSocket, received := [], {};
    }

    /** The server has assigned the client its number. */
    method Assigned()
      modifies this
      ensures State() == old(State()).(ready := true) && oeSocket == old(oeSocket)
    {
      oeReady := true;
    }

    method SendOrder(side: Side, price: int, qty: int)
      modifies this
      ensures var out := Send(old(State()), side, price, qty);
              State() == out.client && oeSocket == old(oeSocket) + out.sent
    {
      var seqNo := nextSeq;
      nextSeq := nextSeq + 1;
      if latencyEnabled {
        inflight := inflight[seqNo := SendHistory(side, price)];
      }
      oeSocket := oeSocket + [OrderPacket(side, price, qty, seqNo)];
    }

    method Reconcile(side: Side, desired: int, orderQty: int)
      modifies this
      ensures var out := Reconciled(old(State()), side, desired, orderQty);
              State() == out.client && oeSocket == old(oeSocket) + out.sent
    {
      if !oeReady || desired <= 0 {
        return;
      }
      var s := if side == Buy then bid else ask;
      match s.state {
        case Idle =>
          SendOrder(side, desired, orderQty);
          Assign(side, SideState(WaitAccepted, desired, orderQty, 0));
        case Resting =>
          if s.price == desired {
            return;
          }
          SendOrder(side, s.price, 0);
          Assign(side, s.(state := WaitCanceled, pending := desired));
        case _ =>
          Assign(side, s.(pending := desired));
      }
    }

    /** Write through the reference that StateOf hands out. */
    method Assign(side: Side, s: SideState)
      modifies this
      ensures State() == old(State()).With(side, s) && oeSocket == old(oeSocket)
    {
      if side == Buy {
        bid := s;
      } else {
        ask := s;
      }
    }

    method TakeUpPending(side: Side, orderQty: int)
      modifies this
      ensures var out := PendingTaken(old(State()), side, orderQty);
              State() == out.client && oeSocket == old(oeSocket) + out.sent
    {
      var s := if side == Buy then bid else ask;
      if s.pending != 0 {
        Reconcile(side, s.pending, orderQty);
        var t := if side == Buy then bid else ask;
        Assign(side, t.(pending := 0));
      }
    }

    /** One turn of the result reader. */
    method OnResult(pack: ResultPacket, orderQty: int)
      modifies this
      ensures var out := Answered(old(State()), pack, orderQty);
              State() == out.client && oeSocket == old(oeSocket) + out.sent
    {
      received := received + {pack.seqNo};
      if latencyEnabled && pack.seqNo in inflight {
        var h := inflight[pack.seqNo];
        latencyLog := latencyLog + [LogLine(pack.seqNo, h.side, h.price)];
        inflight := inflight - {pack.seqNo};
      }
      var s := if pack.side == Buy then bid else ask;
      match pack.kind {
        case Accepted =>
          Assign(pack.side, s.(state := Resting));
          TakeUpPending(pack.side, orderQty);
        case Cancelled =>
          Assign(pack.side, s.(state := Idle));
          TakeUpPending(pack.side, orderQty);
        case Reject =>
        case Success =>
          var qty := s.qty - pack.qty;
          Assign(pack.side, s.(qty := qty, state := if qty <= 0 then Idle else s.state));
      }
    }
  }

  /** Before its number has arrived a client writes nothing and keeps no target. */
  lemma NotReadyIsSilent(c: ClientState, side: Side, desired: int, orderQty: int)
    requires !c.ready
    ensures Reconciled(c, side, desired, orderQty) == ClientOut(c, [])
  {
  }

  /**
   * What a report leaves alone: the other side always; for a fill all but the quantity, which it lowers,
   * and the phase, which it ends exactly on the last unit; for a refusal both sides; for a confirmation
   * that finds no target kept all but the phase.
   */
  lemma ReportTouches(c: ClientState, r: ResultPacket, orderQty: int)
    ensures var out, s := Answered(c, r, orderQty), c.Of(r.side);
            var s' := out.client.Of(r.side);
            && out.client.Of(Opposite(r.side)) == c.Of(Opposite(r.side))
            && (r.kind == Success ==>
                  && out.sent == [] && s'.price == s.price && s'.pending == s.pending && s'.qty == s.qty - r.qty
                  && s'.state == if s.qty <= r.qty then Idle else s.state)
            && (r.kind == Reject ==> out.sent == [] && s' == s)
            && (r.kind == Accepted && s.pending == 0 ==> out.sent == [] && s' == s.(state := Resting))
            && (r.kind == Cancelled && s.pending == 0 ==> out.sent == [] && s' == s.(state := Idle))
  {
  }

  // ---- What becomes of a target that arrives while an order is at work ----

  /** What happens to a side: it is given a target, or a report about it is read. */
  datatype SideEvent = Aim(desired: int, orderQty: int) | Told(report: ResultPacket, orderQty: int)

  function React(c: ClientState, side: Side, e: SideEvent): ClientOut {
    match e
    case Aim(desired, orderQty) => Reconciled(c, side, desired, orderQty)
    case Told(report, orderQty) => Answered(c, report.(side := side), orderQty)
  }

  function ReactAll(c: ClientState, side: Side, events: seq<SideEvent>): ClientState {
    if events == [] then c
    else React(ReactAll(c, side, events[..|events| - 1]), side, events[|events| - 1]).client
  }

  /** What a side keeps of a usable target: nothing if it is idle, for then it orders at once. */
  function Kept(s: SideState, desired: int, t: int): int {
    if desired <= 0 then t else if s.state == Idle then 0 else desired
  }

  /** The last usable target kept since an order was sent or a confirmation read, or zero. */
  function TargetSince(c: ClientState, side: Side, events: seq<SideEvent>): int {
    if events == [] then 0
    else
      var front, last := events[..|events| - 1], events[|events| - 1];
      var t := TargetSince(c, side, front);
      match last
      case Aim(desired, _) => Kept(ReactAll(c, side, front).Of(side), desired, t)
      case Told(report, _) => if report.kind == Accepted || report.kind == Cancelled then 0 else t
  }

  /** A side that waits for a confirmation holds target t, and no other. */
  predicate Notes(s: SideState, t: int) {
    s.state == WaitAccepted || s.state == WaitCanceled ==> s.pending == t
  }

  lemma ReconcileNotes(c: ClientState, side: Side, desired: int, orderQty: int, about: Side, t: int)
    requires c.ready && Notes(c.Of(about), t)
    ensures var c' := Reconciled(c, side, desired, orderQty).client;
            c'.ready && Notes(c'.Of(about), if about == side then Kept(c.Of(side), desired, t) else t)
  {
  }

  /** A target taken up on a confirmation is forgotten, whatever came of it. */
  lemma PendingNotes(c: ClientState, side: Side, orderQty: int)
    requires c.ready
    ensures var c' := PendingTaken(c, side, orderQty).client;
            && c'.ready && c'.Of(Opposite(side)) == c.Of(Opposite(side))
            && c'.Of(side).pending == 0
  {
  }

  lemma AnswerNotes(c: ClientState, r: ResultPacket, orderQty: int, about: Side, t: int)
    requires c.ready && Notes(c.Of(about), t)
    ensures var c' := Answered(c, r, orderQty).client;
            && c'.ready
            && Notes(c'.Of(about), if about == r.side && (r.kind == Accepted || r.kind == Cancelled) then 0 else t)
  {
    hide PendingTaken;
    var m := Measured(c, r.seqNo);
    var s := m.Of(r.side);
    assert m.ready && m.Of(about) == c.Of(about);
    match r.kind
    case Accepted => PendingNotes(m.With(r.side, s.(state := Resting)), r.side, orderQty);
    case Cancelled => PendingNotes(m.With(r.side, s.(state := Idle)), r.side, orderQty);
    case _ =>
  }

  lemma {:induction false} NotesTargetSince(c: ClientState, side: Side, events: seq<SideEvent>)
    requires c.ready && Notes(c.Of(side), 0)
    ensures var w := ReactAll(c, side, events); w.ready && Notes(w.Of(side), TargetSince(c, side, events))
  {
    hide Reconciled, Answered, Notes;
    if events != [] {
      var front, last := events[..|events| - 1], events[|events| - 1];
      NotesTargetSince(c, side, front);
      var w, t := ReactAll(c, side, front), TargetSince(c, side, front);
      match last
      case Aim(desired, orderQty) => ReconcileNotes(w, side, desired, orderQty, side, t);
      case Told(report, orderQty) => AnswerNotes(w, report.(side := side), orderQty, side, t);
    }
  }

  /** Of targets set while a cancel is under way the last usable one is kept, and nothing else changes. */
  lemma {:induction false} WaitingRemembersLast(c: ClientState, side: Side, targets: seq<SideEvent>)
    requires c.ready && c.Of(side).state == WaitCanceled
    requires forall e <- targets :: e.Aim?
    ensures var t := TargetSince(c, side, targets);
            ReactAll(c, side, targets) == c.With(side, c.Of(side).(pending := if t > 0 then t else c.Of(side).pending))
  {
    if targets != [] {
      WaitingRemembersLast(c, side, targets[..|targets| - 1]);
    }
  }

  /** Something other than a cancel was sent. */
  predicate OrdersAfresh(out: ClientOut) {
    out.sent != [] && out.sent[0].qty != 0
  }

  predicate Cancels(out: ClientOut) {
    out.sent != [] && out.sent[0].qty == 0
  }

  /**
   * What reading a report makes a side write: an order exactly if a cancel is confirmed and the side
   * notes a target, and then at that target; a cancel exactly if an order is registered and the side notes
   * a target other than its price. Confirmations come in their phase (EveryReportIsExpected).
   */
  lemma ReportWritesIff(c: ClientState, r: ResultPacket, orderQty: int, t: int)
    requires c.ready && orderQty > 0 && Notes(c.Of(r.side), t)
    requires r.kind == Cancelled ==> c.Of(r.side).state == WaitCanceled
    ensures var out, price := Answered(c, r, orderQty), c.Of(r.side).price;
            && (OrdersAfresh(out) <==> r.kind == Cancelled && t > 0)
            && (OrdersAfresh(out) ==>
                  && out.sent == [OrderPacket(r.side, t, orderQty, c.nextSeq)]
                  && out.client.Of(r.side).state == WaitAccepted)
            && (r.kind != Accepted || c.Of(r.side).state == WaitAccepted ==>
                  (Cancels(out) <==> r.kind == Accepted && t > 0 && t != price))
            && (Cancels(out) ==> out.sent == [OrderPacket(r.side, price, 0, c.nextSeq)])
  {
  }

  /**
   * A side is waiting for its order to be registered and has a new target. The registration makes it
   * cancel, but the target itself is forgotten. After any further targets and reports, fills and
   * refusals included, a report makes it order afresh exactly if it confirms the cancel and a usable
   * target was kept since, and then at the last of those.
   */
  lemma TargetDuringRegistration(c: ClientState, side: Side, accepted: ResultPacket, events: seq<SideEvent>,
                                 r: ResultPacket, orderQty: int)
    requires c.ready && c.Of(side).state == WaitAccepted && orderQty > 0
    requires c.Of(side).pending > 0 && c.Of(side).pending != c.Of(side).price
    requires accepted.kind == Accepted && accepted.side == side && r.side == side
    requires var w := ReactAll(Answered(c, accepted, orderQty).client, side, events);
             r.kind == Cancelled ==> w.Of(side).state == WaitCanceled
    ensures var first := Answered(c, accepted, orderQty);
            var w, t := ReactAll(first.client, side, events), TargetSince(first.client, side, events);
            var last := Answered(w, r, orderQty);
            && first.sent == [OrderPacket(side, c.Of(side).price, 0, c.nextSeq)]
            && first.client.Of(side).state == WaitCanceled && first.client.Of(side).pending == 0
            && (OrdersAfresh(last) <==> r.kind == Cancelled && t > 0)
            && (OrdersAfresh(last) ==> last.sent == [OrderPacket(side, t, orderQty, w.nextSeq)])
  {
    var first := Answered(c, accepted, orderQty).client;
    NotesTargetSince(first, side, events);
    hide Answered, ReactAll, TargetSince;
    ReportWritesIff(ReactAll(first, side, events), r, orderQty, TargetSince(first, side, events));
  }
}
