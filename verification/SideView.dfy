/**
 * One side of one client, seen together with the messages on their way to it. The invariant of the
 * protocol is that reading everything in flight would leave the side in agreement with the engine.
 */
module SideView {
  import opened Protocol
  import opened FlatBook
  import opened BaseClients

  /**
   * What a side knows: its phase, the quantity it believes it has working, and whether a cancel it
   * once sent still waits for a refusal.
   */
  datatype View = View(state: OeState, qty: int, stale: bool)

  /** Reading one report. None stands for a report that must not come now. */
  function Read(v: View, r: ResultPacket): Option<View> {
    match r.kind
    case Accepted =>
      if v.state == WaitAccepted && !v.stale then Some(v.(state := Resting)) else None
    case Cancelled =>
      if v.state == WaitCanceled && v.qty > 0 then Some(v.(state := Idle)) else None
    case Reject =>
      if v.stale && (v.state == Idle || v.state == WaitAccepted) then Some(v.(stale := false)) else None
    case Success =>
      if v.stale || v.state == Idle || !(0 < r.qty <= v.qty) then None
      else if r.qty < v.qty then Some(v.(qty := v.qty - r.qty))
      else Some(View(Idle, 0, v.state == WaitCanceled))
  }

  function ReadAll(v: View, reports: seq<ResultPacket>): Option<View>
    decreases |reports|
  {
    if reports == [] then Some(v)
    else
      match Read(v, reports[0])
      case None => None
      case Some(w) => ReadAll(w, reports[1..])
  }

  lemma {:induction false} ReadAllAppend(v: View, a: seq<ResultPacket>, b: seq<ResultPacket>)
    ensures ReadAll(v, a + b) ==
            match ReadAll(v, a) case None => None case Some(w) => ReadAll(w, b)
    decreases |a|
  {
    if a == [] {
      assert a + b == b;
    } else {
      AppendTail(a, b);
      if Read(v, a[0]).Some? {
        ReadAllAppend(Read(v, a[0]).value, a[1..], b);
      }
    }
  }

  lemma ReadOne(v: View, r: ResultPacket)
    ensures ReadAll(v, [r]) == Read(v, r)
  {
    assert [r][1..] == [];
  }

  /** A cancel request. */
  predicate IsCancel(o: OrderPacket) { o.qty == 0 }

  /** The one entry the client has working on this side. */
  predicate Works(live: seq<Entry>, price: int, qty: int) {
    |live| == 1 && live[0].price == price && live[0].qty == qty && qty > 0
  }

  /**
   * With nothing left to read, a view agrees with what the engine has yet to receive (`up`) and with
   * what it has resting (`live`).
   */
  predicate Settled(v: View, price: int, up: seq<OrderPacket>, live: seq<Entry>) {
    match v.state
    case Idle =>
      live == [] && if v.stale then |up| == 1 && IsCancel(up[0]) else up == []
    case WaitAccepted =>
      && live == [] && price > 0 && v.qty > 0
      && |up| == (if v.stale then 2 else 1)
      && (v.stale ==> IsCancel(up[0]))
      && up[|up| - 1].price == price && up[|up| - 1].qty == v.qty
    case Resting =>
      !v.stale && up == [] && Works(live, price, v.qty)
    case WaitCanceled =>
      !v.stale && |up| == 1 && IsCancel(up[0]) && up[0].price == price && Works(live, price, v.qty)
  }

  predicate AgreesAs(s: SideState, stale: bool, up: seq<OrderPacket>, live: seq<Entry>, down: seq<ResultPacket>) {
    match ReadAll(View(s.state, s.qty, stale), down)
    case None => false
    case Some(v) => Settled(v, s.price, up, live)
  }

  /** The invariant of one side: its state, orders under way, entries in the book, reports under way. */
  predicate Agrees(s: SideState, up: seq<OrderPacket>, live: seq<Entry>, down: seq<ResultPacket>) {
    AgreesAs(s, false, up, live, down) || AgreesAs(s, true, up, live, down)
  }

  // ---- What the client does ----

  lemma NothingToReadInIdle(qty: int, down: seq<ResultPacket>)
    ensures down != [] ==> ReadAll(View(Idle, qty, false), down) == None
  {
  }

  /** An idle side has at most one report under way, the refusal of its stale cancel. */
  lemma IdleReads(qty: int, stale: bool, down: seq<ResultPacket>)
    requires ReadAll(View(Idle, qty, stale), down).Some?
    ensures down == [] || (stale && |down| == 1 && down[0].kind == Reject)
    ensures ReadAll(View(Idle, qty, stale), down) == Some(View(Idle, qty, stale && down == []))
  {
    if down != [] {
      assert Read(View(Idle, qty, stale), down[0]) == Some(View(Idle, qty, false));
      NothingToReadInIdle(qty, down[1..]);
    }
  }

  lemma StartOrder(s: SideState, up: seq<OrderPacket>, live: seq<Entry>, down: seq<ResultPacket>,
                   desired: int, o: OrderPacket)
    requires Agrees(s, up, live, down) && s.state == Idle
    requires desired > 0 && o.qty > 0 && o.price == desired
    ensures Agrees(SideState(WaitAccepted, desired, o.qty, 0), up + [o], live, down)
  {
    var stale := !AgreesAs(s, false, up, live, down);
    IdleReads(s.qty, stale, down);
    var v := View(WaitAccepted, o.qty, stale);
    if down != [] {
      assert ReadAll(v, down) == Some(v.(stale := false)) by { assert down == [down[0]]; ReadOne(v, down[0]); }
    }
    assert AgreesAs(SideState(WaitAccepted, desired, o.qty, 0), stale, up + [o], live, down);
  }

  /** Reports read the same by a resting side that has meanwhile asked for a cancel. */
  lemma {:induction false} CancelCommutes(qty: int, down: seq<ResultPacket>)
    requires ReadAll(View(Resting, qty, false), down).Some?
    ensures var v := ReadAll(View(Resting, qty, false), down).value;
            && !v.stale && (v.state == Resting || v.state == Idle)
            && ReadAll(View(WaitCanceled, qty, false), down)
               == Some(if v.state == Resting then v.(state := WaitCanceled) else v.(stale := true))
  {
    if down != [] {
      var w := Read(View(Resting, qty, false), down[0]).value;
      if w.state == Idle {
        IdleReads(w.qty, false, down[1..]);
      } else {
        CancelCommutes(w.qty, down[1..]);
      }
    }
  }

  lemma StartCancel(s: SideState, up: seq<OrderPacket>, live: seq<Entry>, down: seq<ResultPacket>,
                    pending: int, o: OrderPacket)
    requires Agrees(s, up, live, down) && s.state == Resting
    requires IsCancel(o) && o.price == s.price
    ensures Agrees(s.(state := WaitCanceled, pending := pending), up + [o], live, down)
  {
    RestingIsNotStale(s.qty, down);
    CancelCommutes(s.qty, down);
    assert AgreesAs(s.(state := WaitCanceled, pending := pending), false, up + [o], live, down);
  }

  /** A stale cancel is answered before the order that follows it is registered. */
  lemma {:induction false} RestingIsNotStale(qty: int, down: seq<ResultPacket>)
    ensures match ReadAll(View(Resting, qty, true), down)
            case None => true
            case Some(v) => v == View(Resting, qty, true)
  {
    if down != [] {
      assert Read(View(Resting, qty, true), down[0]) == None;
    }
  }

  /** A side's state after a report, before it acts on any pending target. */
  function ReadState(s: SideState, r: ResultPacket): SideState {
    match r.kind
    case Accepted => s.(state := Resting)
    case Cancelled => s.(state := Idle)
    case Reject => s
    case Success => s.(qty := s.qty - r.qty, state := if s.qty - r.qty <= 0 then Idle else s.state)
  }

  lemma HeadRead(s: SideState, up: seq<OrderPacket>, live: seq<Entry>, down: seq<ResultPacket>)
    requires Agrees(s, up, live, down) && down != []
    ensures Agrees(ReadState(s, down[0]), up, live, down[1..])
  {
    var stale := !AgreesAs(s, false, up, live, down);
    var v := Read(View(s.state, s.qty, stale), down[0]).value;
    assert AgreesAs(ReadState(s, down[0]), v.stale, up, live, down[1..]);
  }

  // ---- What the engine does ----

  /** A further report is appended. */
  lemma Report(s: SideState, stale: bool, up: seq<OrderPacket>, live: seq<Entry>, down: seq<ResultPacket>,
               more: seq<ResultPacket>, up': seq<OrderPacket>, live': seq<Entry>)
    requires AgreesAs(s, stale, up, live, down)
    requires var v := ReadAll(View(s.state, s.qty, stale), down).value;
             var w := ReadAll(v, more);
             w.Some? && Settled(w.value, s.price, up', live')
    ensures AgreesAs(s, stale, up', live', down + more)
  {
    ReadAllAppend(View(s.state, s.qty, stale), down, more);
  }

  /** The engine reaches a cancel: it removes the working entry if there is one, and else refuses. */
  lemma CancelProcessed(s: SideState, up: seq<OrderPacket>, live: seq<Entry>, down: seq<ResultPacket>,
                        r: ResultPacket)
    requires Agrees(s, up, live, down) && up != [] && IsCancel(up[0])
    requires r.kind == (if live == [] then Reject else Cancelled)
    ensures live != [] ==> |live| == 1 && live[0].price == up[0].price == s.price
    ensures Agrees(s, up[1..], [], down + [r])
  {
    var stale := !AgreesAs(s, false, up, live, down);
    var v := ReadAll(View(s.state, s.qty, stale), down).value;
    ReadOne(v, r);
    Report(s, stale, up, live, down, [r], up[1..], []);
  }

  /** The engine trades part or all of the working entry of this side as a maker. */
  lemma MakerFilled(s: SideState, up: seq<OrderPacket>, live: seq<Entry>, down: seq<ResultPacket>,
                    r: ResultPacket, live': seq<Entry>)
    requires Agrees(s, up, live, down) && |live| == 1
    requires r.kind == Success && 0 < r.qty <= live[0].qty
    requires live' == if r.qty == live[0].qty then [] else [live[0].(qty := live[0].qty - r.qty)]
    ensures Agrees(s, up, live', down + [r])
  {
    var stale := !AgreesAs(s, false, up, live, down);
    var v := ReadAll(View(s.state, s.qty, stale), down).value;
    ReadOne(v, r);
    Report(s, stale, up, live, down, [r], up, live');
  }

  /** The reports of a sequence of executions, as one side sees them. */
  predicate AreFills(reports: seq<ResultPacket>) {
    forall i :: 0 <= i < |reports| ==> reports[i].kind == Success && reports[i].qty > 0
  }

  function FillTotal(reports: seq<ResultPacket>): int {
    if reports == [] then 0
    else (if reports[0].kind == Success then reports[0].qty else 0) + FillTotal(reports[1..])
  }

  lemma {:induction false} FillTotalNonNegative(reports: seq<ResultPacket>)
    requires AreFills(reports)
    ensures FillTotal(reports) >= 0
  {
    if reports != [] {
      FillTotalNonNegative(reports[1..]);
    }
  }

  lemma {:induction false} TakerReads(qty: int, fills: seq<ResultPacket>)
    requires AreFills(fills) && FillTotal(fills) <= qty && qty > 0
    ensures ReadAll(View(WaitAccepted, qty, false), fills)
         == Some(if FillTotal(fills) == qty then View(Idle, 0, false)
                 else View(WaitAccepted, qty - FillTotal(fills), false))
  {
    if fills != [] {
      FillTotalNonNegative(fills[1..]);
      if fills[0].qty < qty {
        TakerReads(qty - fills[0].qty, fills[1..]);
      } else if fills[1..] != [] {
        FillTotalNonNegative(fills[1..][1..]);
      }
    }
  }

  /** The engine reaches a new order: it trades what crosses and rests what is left. */
  lemma OrderProcessed(s: SideState, up: seq<OrderPacket>, live: seq<Entry>, down: seq<ResultPacket>,
                       fills: seq<ResultPacket>, left: int, rest: seq<ResultPacket>, live': seq<Entry>)
    requires Agrees(s, up, live, down) && up != [] && !IsCancel(up[0])
    requires AreFills(fills) && left >= 0 && FillTotal(fills) + left == up[0].qty
    requires if left > 0 then |rest| == 1 && rest[0].kind == Accepted && Works(live', up[0].price, left)
             else rest == [] && live' == []
    ensures live == []
    ensures Agrees(s, up[1..], live', down + (fills + rest))
  {
    var stale := !AgreesAs(s, false, up, live, down);
    var v := ReadAll(View(s.state, s.qty, stale), down).value;
    assert v.state == WaitAccepted && !v.stale && up[0].qty == v.qty;
    TakerReads(v.qty, fills);
    ReadAllAppend(v, fills, rest);
    if left > 0 {
      ReadOne(View(WaitAccepted, left, false), rest[0]);
      assert rest == [rest[0]];
    }
    Report(s, stale, up, live, down, fills + rest, up[1..], live');
  }

  // ---- What follows from agreement ----

  /** The quantity not yet handed to the engine plus the quantity working there. */
  function Outstanding(up: seq<OrderPacket>, live: seq<Entry>): int {
    (if up == [] then 0 else up[|up| - 1].qty) + (if live == [] then 0 else live[0].qty)
  }

  ghost predicate Announces(reports: seq<ResultPacket>, kind: ResultType) {
    exists i :: 0 <= i < |reports| && reports[i].kind == kind
  }

  /** Reading never creates or loses quantity. */
  lemma {:induction false} ReadConserves(v: View, down: seq<ResultPacket>)
    requires ReadAll(v, down).Some?
    ensures v.qty == ReadAll(v, down).value.qty + FillTotal(down)
    decreases |down|
  {
    if down != [] {
      ReadConserves(Read(v, down[0]).value, down[1..]);
    }
  }

  /** From a phase with a working order to Idle only by a full execution or a confirmed cancel. */
  lemma {:induction false} EndsByFillOrCancel(v: View, down: seq<ResultPacket>)
    requires ReadAll(v, down).Some? && v.state != Idle
    requires ReadAll(v, down).value.state == Idle
    ensures Announces(down, Cancelled) || ReadAll(v, down).value.qty == 0
    ensures v.qty > 0
    ensures Announces(down, Cancelled) ==> v.state != WaitAccepted || Announces(down, Accepted)
    decreases |down|
  {
    var w := Read(v, down[0]).value;
    assert ReadAll(w, down[1..]) == ReadAll(v, down);
    if w.state == Idle {
      IdleReads(w.qty, w.stale, down[1..]);
      if Announces(down, Cancelled) {
        assert down[0].kind == Cancelled;
      }
    } else {
      EndsByFillOrCancel(w, down[1..]);
      AnnouncesFirst(down, Cancelled);
      AnnouncesFirst(down, Accepted);
    }
  }

  lemma AnnouncesFirst(reports: seq<ResultPacket>, kind: ResultType)
    requires reports != []
    ensures Announces(reports, kind) <==> reports[0].kind == kind || Announces(reports[1..], kind)
  {
    if Announces(reports, kind) && reports[0].kind != kind {
      var i :| 0 <= i < |reports| && reports[i].kind == kind;
      assert reports[1..][i - 1].kind == kind;
    }
    if Announces(reports[1..], kind) {
      var i :| 0 <= i < |reports[1..]| && reports[1..][i].kind == kind;
      assert reports[i + 1].kind == kind;
    }
  }

  /** Orders proper among those under way. */
  function NewOrders(up: seq<OrderPacket>): nat {
    if up == [] then 0 else (if IsCancel(up[0]) then 0 else 1) + NewOrders(up[1..])
  }

  /** Counting up to two orders. */
  lemma CountOrders(up: seq<OrderPacket>)
    ensures up == [] ==> NewOrders(up) == 0
    ensures |up| == 1 ==> NewOrders(up) == if IsCancel(up[0]) then 0 else 1
    ensures |up| == 2 ==> NewOrders(up) == (if IsCancel(up[0]) then 0 else 1) + if IsCancel(up[1]) then 0 else 1
  {
    if |up| == 1 {
      assert NewOrders(up[1..]) == 0;
    } else if |up| == 2 {
      var last := up[1..];
      assert last[0] == up[1] && NewOrders(last[1..]) == 0;
      assert NewOrders(last) == if IsCancel(up[1]) then 0 else 1;
    }
  }

  lemma CountSettled(v: View, price: int, up: seq<OrderPacket>, live: seq<Entry>)
    requires Settled(v, price, up, live)
    ensures |up| <= 2 && |live| + NewOrders(up) <= 1
    ensures v.state == Idle ==> live == [] && NewOrders(up) == 0
    ensures v.state == WaitAccepted ==> NewOrders(up) == 1
    ensures NewOrders(up) == 1 ==> up[|up| - 1].price == price
  {
    CountOrders(up);
  }

  /** At most one live order a side, at the price the client has on record; none when the side is idle. */
  lemma OneLiveOrder(s: SideState, up: seq<OrderPacket>, live: seq<Entry>, down: seq<ResultPacket>)
    requires Agrees(s, up, live, down)
    ensures |up| <= 2 && |live| + NewOrders(up) <= 1
    ensures s.state == Idle ==> live == [] && NewOrders(up) == 0
    ensures live != [] ==> live[0].price == s.price && live[0].qty > 0
    ensures NewOrders(up) == 1 ==> up[|up| - 1].price == s.price
  {
    var stale := !AgreesAs(s, false, up, live, down);
    var v := ReadAll(View(s.state, s.qty, stale), down).value;
    CountSettled(v, s.price, up, live);
    if s.state == Idle {
      IdleReads(s.qty, stale, down);
    }
  }

  /** A cancel that finds an entry was sent for it: the side is waiting for exactly that confirmation. */
  lemma {:induction false} WaitsForCancel(v: View, down: seq<ResultPacket>)
    requires ReadAll(v, down).Some? && ReadAll(v, down).value.state == WaitCanceled
    ensures v.state == WaitCanceled
    decreases |down|
  {
    if down != [] {
      WaitsForCancel(Read(v, down[0]).value, down[1..]);
    }
  }

  lemma CancelFindsItsOrder(s: SideState, up: seq<OrderPacket>, live: seq<Entry>, down: seq<ResultPacket>)
    requires Agrees(s, up, live, down) && up != [] && IsCancel(up[0])
    ensures live != [] ==> s.state == WaitCanceled && up[0].price == s.price == live[0].price && |live| == 1
  {
    var stale := !AgreesAs(s, false, up, live, down);
    if live != [] {
      WaitsForCancel(View(s.state, s.qty, stale), down);
    }
  }

  /** Every report comes in a phase that has a use for it, and no execution exceeds what is working. */
  lemma ReportIsExpected(s: SideState, up: seq<OrderPacket>, live: seq<Entry>, down: seq<ResultPacket>)
    requires Agrees(s, up, live, down) && down != []
    ensures match down[0].kind
            case Accepted => s.state == WaitAccepted
            case Cancelled => s.state == WaitCanceled
            case Reject => s.state == Idle || s.state == WaitAccepted
            case Success => s.state != Idle && 0 < down[0].qty <= s.qty
  {
  }

  /** From WaitAccepted one gets to Resting or WaitCanceled only by a registration. */
  lemma {:induction false} RegisteredByReport(v: View, down: seq<ResultPacket>)
    requires ReadAll(v, down).Some? && v.state == WaitAccepted
    ensures var w := ReadAll(v, down).value;
            w.state == Resting || w.state == WaitCanceled ==> Announces(down, Accepted)
    decreases |down|
  {
    if down != [] {
      var w := Read(v, down[0]).value;
      AnnouncesFirst(down, Accepted);
      if w.state == WaitAccepted {
        RegisteredByReport(w, down[1..]);
      } else if w.state == Idle {
        IdleReads(w.qty, w.stale, down[1..]);
      }
    }
  }

  /** No side waits for something that is not on its way. */
  lemma NeverStuck(s: SideState, up: seq<OrderPacket>, live: seq<Entry>, down: seq<ResultPacket>)
    requires Agrees(s, up, live, down)
    ensures s.state == WaitAccepted ==>
              NewOrders(up) == 1 || Announces(down, Accepted) || FillTotal(down) == s.qty
    ensures s.state == WaitCanceled ==>
              (|up| == 1 && IsCancel(up[0])) || Announces(down, Cancelled) || FillTotal(down) == s.qty
  {
    var stale := !AgreesAs(s, false, up, live, down);
    var v := View(s.state, s.qty, stale);
    var w := ReadAll(v, down).value;
    CountSettled(w, s.price, up, live);
    ReadConserves(v, down);
    if s.state == WaitAccepted || s.state == WaitCanceled {
      if w.state == Idle {
        EndsByFillOrCancel(v, down);
      } else if s.state == WaitAccepted {
        RegisteredByReport(v, down);
      } else {
        CancelEndsWaiting(v, down);
      }
    }
  }

  lemma {:induction false} CancelEndsWaiting(v: View, down: seq<ResultPacket>)
    requires ReadAll(v, down).Some? && v.state == WaitCanceled
    ensures var w := ReadAll(v, down).value; w.state == WaitCanceled || w.state == Idle
    decreases |down|
  {
    if down != [] {
      var w := Read(v, down[0]).value;
      if w.state == WaitCanceled {
        CancelEndsWaiting(w, down[1..]);
      } else {
        IdleReads(w.qty, w.stale, down[1..]);
      }
    }
  }

  /**
   * Client and engine agree on quantity: until a cancel of it is confirmed, what the client believes
   * it has working is what is still to be delivered or rests, plus the executions under way to it.
   */
  lemma QuantitiesAgree(s: SideState, up: seq<OrderPacket>, live: seq<Entry>, down: seq<ResultPacket>)
    requires Agrees(s, up, live, down) && s.state != Idle
    ensures s.qty > 0
    ensures !Announces(down, Cancelled) ==> s.qty == Outstanding(up, live) + FillTotal(down)
  {
    var stale := !AgreesAs(s, false, up, live, down);
    var v := View(s.state, s.qty, stale);
    var w := ReadAll(v, down).value;
    ReadConserves(v, down);
    if w.state == Idle {
      EndsByFillOrCancel(v, down);
    } else {
      WorkingIsPositive(v, down);
    }
  }

  lemma {:induction false} WorkingIsPositive(v: View, down: seq<ResultPacket>)
    requires ReadAll(v, down).Some? && ReadAll(v, down).value.state != Idle && ReadAll(v, down).value.qty > 0
    ensures v.qty > 0
    decreases |down|
  {
    if down != [] {
      WorkingIsPositive(Read(v, down[0]).value, down[1..]);
    }
  }

  /** With nothing in flight the two are simply in agreement. */
  lemma QuietSide(s: SideState, live: seq<Entry>)
    requires Agrees(s, [], live, [])
    ensures if live == [] then s.state == Idle
            else s.state == Resting && Works(live, s.price, s.qty)
  {
  }
}
