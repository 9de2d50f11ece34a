/**
 * Time priority over whole runs. The engine never looks at serial numbers, so any run can be
 * re-numbered by arrival without changing what it does; in the re-numbered run, arrival order is
 * visible in the book.
 */
module TimePriority {
  import opened Protocol
  import opened FlatBook
  import opened PriceTime

  type Renaming = int -> int

  // ---- Serial numbers are carried along and never inspected ----

  function Rename(g: Renaming, e: Entry): Entry { e.(seqNo := g(e.seqNo)) }

  function RenameAll(g: Renaming, entries: seq<Entry>): seq<Entry> {
    if entries == [] then [] else [Rename(g, entries[0])] + RenameAll(g, entries[1..])
  }

  function RenameBook(g: Renaming, b: Book): Book {
    Book(RenameAll(g, b.bids), RenameAll(g, b.asks))
  }

  function RenameFills(g: Renaming, fills: seq<Fill>): seq<Fill> {
    if fills == [] then []
    else [Fill(Rename(g, fills[0].maker), fills[0].qty)] + RenameFills(g, fills[1..])
  }

  function RenameResults(g: Renaming, results: seq<OrderResult>): seq<OrderResult> {
    if results == [] then []
    else [results[0].(seqNo := g(results[0].seqNo))] + RenameResults(g, results[1..])
  }

  function RenameOrder(g: Renaming, o: OrderPacket): OrderPacket { o.(seqNo := g(o.seqNo)) }

  function RenameInputs(g: Renaming, ins: seq<Input>): seq<Input> {
    seq(|ins|, i requires 0 <= i < |ins| => ins[i].(order := RenameOrder(g, ins[i].order)))
  }

  lemma {:induction false} RenameResultsAppend(g: Renaming, a: seq<OrderResult>, b: seq<OrderResult>)
    ensures RenameResults(g, a + b) == RenameResults(g, a) + RenameResults(g, b)
  {
    if a == [] {
      assert a + b == b;
    } else {
      AppendTail(a, b);
      RenameResultsAppend(g, a[1..], b);
    }
  }

  lemma {:induction false} RenameMatch(g: Renaming, entries: seq<Entry>, side: Side, limit: int, qty: int)
    ensures var r := Match(entries, side, limit, qty);
            Match(RenameAll(g, entries), side, limit, qty)
            == MatchOut(RenameAll(g, r.rest), RenameFills(g, r.fills), r.left)
  {
    if qty > 0 && entries != [] && Crosses(side, limit, entries[0].price) {
      var renamed := RenameAll(g, entries);
      assert renamed[1..] == RenameAll(g, entries[1..]);
      var r := Match(entries, side, limit, qty);
      if qty < entries[0].qty {
        assert r.rest[1..] == entries[1..] && r.fills[1..] == [];
      } else {
        RenameMatch(g, entries[1..], side, limit, qty - entries[0].qty);
        assert r.fills[1..] == Match(entries[1..], side, limit, qty - entries[0].qty).fills;
      }
    }
  }

  lemma {:induction false} RenameFillResults(g: Renaming, clientId: int, seqNo: int, side: Side, fills: seq<Fill>)
    ensures FillResults(clientId, g(seqNo), side, RenameFills(g, fills))
         == RenameResults(g, FillResults(clientId, seqNo, side, fills))
  {
    if fills != [] {
      RenameFillResults(g, clientId, seqNo, side, fills[1..]);
      assert RenameFills(g, fills)[1..] == RenameFills(g, fills[1..]);
      var both := FillResults(clientId, seqNo, side, fills)[..2];
      var rest := FillResults(clientId, seqNo, side, fills[1..]);
      assert FillResults(clientId, seqNo, side, fills) == both + rest;
      RenameResultsAppend(g, both, rest);
      assert both[1..][1..] == [];
      assert RenameResults(g, both) ==
             [both[0].(seqNo := g(seqNo))] + RenameResults(g, both[1..]);
    }
  }

  lemma {:induction false} RenameInsert(g: Renaming, entries: seq<Entry>, side: Side, e: Entry)
    ensures Insert(RenameAll(g, entries), side, Rename(g, e)) == RenameAll(g, Insert(entries, side, e))
  {
    var after := Insert(entries, side, e);
    if entries == [] || Better(side, e.price, entries[0].price) {
      assert after[1..] == entries;
    } else {
      assert after[1..] == Insert(entries[1..], side, e);
      assert RenameAll(g, entries)[1..] == RenameAll(g, entries[1..]);
      RenameInsert(g, entries[1..], side, e);
    }
  }

  lemma {:induction false} RenameRemove(g: Renaming, entries: seq<Entry>, price: int, clientId: int)
    ensures Remove(RenameAll(g, entries), price, clientId) == RenameAll(g, Remove(entries, price, clientId))
    ensures Has(RenameAll(g, entries), price, clientId) == Has(entries, price, clientId)
  {
    if entries != [] {
      var renamed := RenameAll(g, entries);
      assert renamed[1..] == RenameAll(g, entries[1..]);
      RenameRemove(g, entries[1..], price, clientId);
      HasFirst(renamed, price, clientId);
      HasFirst(entries, price, clientId);
      if !IsAt(entries[0], price, clientId) {
        assert Remove(entries, price, clientId)[1..] == Remove(entries[1..], price, clientId);
      }
    }
  }

  lemma RenamePush(g: Renaming, b: Book, clientId: int, o: OrderPacket)
    ensures var out := Push(b, clientId, o);
            Push(RenameBook(g, b), clientId, RenameOrder(g, o))
            == PushOut(RenameBook(g, out.book), RenameResults(g, out.results), out.dirty)
  {
    var own, opp := b.On(o.side), b.On(Opposite(o.side));
    if o.qty == 0 {
      RenameRemove(g, own, o.price, clientId);
    } else if Tradable(o) {
      var m := MatchFor(b, o);
      RenameMatch(g, opp, o.side, o.price, o.qty);
      RenameFillResults(g, clientId, o.seqNo, o.side, m.fills);
      if m.left > 0 {
        RenameInsert(g, own, o.side, Entry(o.price, clientId, m.left, o.seqNo));
        RenameResultsAppend(g, FillResults(clientId, o.seqNo, o.side, m.fills),
                            [OrderResult(clientId, Accepted, o.side, o.price, m.left, o.seqNo)]);
      }
    }
  }

  /** Re-numbering the inputs of a run re-numbers its book and its reports, and changes nothing else. */
  lemma {:induction false} RenameReplay(g: Renaming, ins: seq<Input>)
    ensures Replay(EMPTY_BOOK, RenameInputs(g, ins)) == RenameBook(g, Replay(EMPTY_BOOK, ins))
    ensures ReplayResults(EMPTY_BOOK, RenameInputs(g, ins)) == RenameResults(g, ReplayResults(EMPTY_BOOK, ins))
  {
    if ins != [] {
      var n := |ins| - 1;
      RenameReplay(g, ins[..n]);
      assert RenameInputs(g, ins)[..n] == RenameInputs(g, ins[..n]);
      var before := Replay(EMPTY_BOOK, ins[..n]);
      RenamePush(g, before, ins[n].clientId, ins[n].order);
      RenameResultsAppend(g, ReplayResults(EMPTY_BOOK, ins[..n]),
                          Push(before, ins[n].clientId, ins[n].order).results);
    }
  }

  // ---- Numbering a run by arrival ----

  function Stamped(ins: seq<Input>): seq<Input> {
    seq(|ins|, i requires 0 <= i < |ins| => Input(ins[i].clientId, ins[i].order.(seqNo := i)))
  }

  function Original(ins: seq<Input>): Renaming {
    k => if 0 <= k < |ins| then ins[k].order.seqNo else k
  }

  /** Every run is its arrival-numbered run with the senders' serial numbers put back. */
  lemma StampingIsFaithful(ins: seq<Input>)
    ensures Replay(EMPTY_BOOK, ins) == RenameBook(Original(ins), Replay(EMPTY_BOOK, Stamped(ins)))
    ensures ReplayResults(EMPTY_BOOK, ins)
         == RenameResults(Original(ins), ReplayResults(EMPTY_BOOK, Stamped(ins)))
  {
    assert RenameInputs(Original(ins), Stamped(ins)) == ins;
    RenameReplay(Original(ins), Stamped(ins));
  }

  /** a is served before b: a better price, or the same price and an earlier arrival. */
  predicate Precedes(side: Side, a: Entry, b: Entry) {
    Better(side, a.price, b.price) || (a.price == b.price && a.seqNo < b.seqNo)
  }

  ghost predicate Queued(side: Side, entries: seq<Entry>) {
    forall i, j :: 0 <= i < j < |entries| ==> Precedes(side, entries[i], entries[j])
  }

  ghost predicate ArrivedBefore(entries: seq<Entry>, n: nat) {
    forall i :: 0 <= i < |entries| ==> entries[i].seqNo < n
  }

  ghost predicate InArrivalOrder(b: Book, n: nat) {
    && Queued(Buy, b.bids) && Queued(Sell, b.asks)
    && ArrivedBefore(b.bids, n) && ArrivedBefore(b.asks, n)
  }

  lemma InsertKeepsQueue(side: Side, own: seq<Entry>, e: Entry)
    requires e.seqNo >= 0 && Queued(side, own) && ArrivedBefore(own, e.seqNo)
    ensures Queued(side, Insert(own, side, e)) && ArrivedBefore(Insert(own, side, e), e.seqNo + 1)
  {
    hide Insert;
    var i := InsertPosition(own, side, e);
    var after := Insert(own, side, e);
    forall k: nat | k < |after| ensures after[k].seqNo < e.seqNo + 1 {
      assert after[k] == if k < i then own[k] else if k == i then e else own[k - 1];
    }
    forall k: nat, l: nat | k < l < |after| ensures Precedes(side, after[k], after[l]) {
      assert after[k] == if k < i then own[k] else if k == i then e else own[k - 1];
      assert after[l] == if l < i then own[l] else if l == i then e else own[l - 1];
    }
  }

  lemma RemoveKeepsQueue(side: Side, own: seq<Entry>, price: int, clientId: int, n: nat)
    requires Queued(side, own) && ArrivedBefore(own, n) && Has(own, price, clientId)
    ensures var after := Remove(own, price, clientId); Queued(side, after) && ArrivedBefore(after, n)
  {
    var i := RemovePosition(own, price, clientId);
    var after := Remove(own, price, clientId);
    assert forall k :: 0 <= k < |after| ==> after[k] == own[if k < i then k else k + 1];
  }

  lemma MatchKeepsQueue(entries: seq<Entry>, side: Side, limit: int, qty: int, n: nat)
    requires Queued(Opposite(side), entries) && ArrivedBefore(entries, n)
    ensures var rest := Match(entries, side, limit, qty).rest;
            Queued(Opposite(side), rest) && ArrivedBefore(rest, n + 1)
  {
    hide Match;
    MatchSuffix(entries, side, limit, qty);
  }

  lemma PushKeepsArrivalOrder(b: Book, clientId: int, o: OrderPacket)
    requires o.seqNo >= 0 && InArrivalOrder(b, o.seqNo)
    ensures InArrivalOrder(Push(b, clientId, o).book, o.seqNo + 1)
  {
    hide Match, Insert, Remove, FillResults, Precedes;
    var own, opp := b.On(o.side), b.On(Opposite(o.side));
    if o.qty == 0 {
      if Has(own, o.price, clientId) {
        RemoveKeepsQueue(o.side, own, o.price, clientId, o.seqNo);
      }
    } else if Tradable(o) {
      var m := MatchFor(b, o);
      MatchKeepsQueue(opp, o.side, o.price, o.qty, o.seqNo);
      if m.left > 0 {
        InsertKeepsQueue(o.side, own, Entry(o.price, clientId, m.left, o.seqNo));
      }
    }
  }

  /** In every run each side stays strictly ordered by price and then by arrival. */
  lemma {:induction false} RunKeepsArrivalOrder(ins: seq<Input>)
    ensures InArrivalOrder(Replay(EMPTY_BOOK, Stamped(ins)), |ins|)
  {
    if ins != [] {
      var n := |ins| - 1;
      RunKeepsArrivalOrder(ins[..n]);
      assert Stamped(ins)[..n] == Stamped(ins[..n]);
      var last := Stamped(ins)[n];
      PushKeepsArrivalOrder(Replay(EMPTY_BOOK, Stamped(ins[..n])), last.clientId, last.order);
    }
  }

  /** Nothing in the list that should be served before a maker is passed over. */
  ghost predicate NoneOvertaken(side: Side, entries: seq<Entry>, fills: seq<Fill>) {
    forall k, x | 0 <= k < |fills| && x in entries && Precedes(side, x, fills[k].maker) ::
      exists j :: 0 <= j < k && fills[j] == Fill(x, x.qty)
  }

  /** Maker k is entry k, and the entries before it are used up. */
  lemma {:induction false} MakersInOrder(entries: seq<Entry>, side: Side, limit: int, qty: int, k: nat)
    requires k < |Match(entries, side, limit, qty).fills|
    ensures var fills := Match(entries, side, limit, qty).fills;
            && |fills| <= |entries| && fills[k].maker == entries[k]
            && forall j :: 0 <= j < k ==> fills[j] == Fill(entries[j], entries[j].qty)
  {
    MatchFillCount(entries, side, limit, qty);
    if k > 0 {
      MakersInOrder(entries[1..], side, limit, qty - entries[0].qty, k - 1);
    }
  }

  lemma {:induction false} MatchFillCount(entries: seq<Entry>, side: Side, limit: int, qty: int)
    ensures |Match(entries, side, limit, qty).fills| <= |entries|
  {
    if qty > 0 && entries != [] && Crosses(side, limit, entries[0].price) && qty >= entries[0].qty {
      MatchFillCount(entries[1..], side, limit, qty - entries[0].qty);
    }
  }

  lemma MatchOvertakesNone(entries: seq<Entry>, side: Side, limit: int, qty: int)
    requires Queued(Opposite(side), entries)
    ensures NoneOvertaken(Opposite(side), entries, Match(entries, side, limit, qty).fills)
  {
    var fills := Match(entries, side, limit, qty).fills;
    forall k, x | 0 <= k < |fills| && x in entries && Precedes(Opposite(side), x, fills[k].maker)
      ensures exists j :: 0 <= j < k && fills[j] == Fill(x, x.qty)
    {
      var j :| 0 <= j < |entries| && entries[j] == x;
      EarlierUsedUp(entries, side, limit, qty, k, j);
    }
  }

  lemma EarlierUsedUp(entries: seq<Entry>, side: Side, limit: int, qty: int, k: nat, j: nat)
    requires Queued(Opposite(side), entries)
    requires k < |Match(entries, side, limit, qty).fills| && j < |entries|
    requires Precedes(Opposite(side), entries[j], Match(entries, side, limit, qty).fills[k].maker)
    ensures j < k && Match(entries, side, limit, qty).fills[j] == Fill(entries[j], entries[j].qty)
  {
    MakersInOrder(entries, side, limit, qty, k);
  }

  /**
   * In no run is an order executed while one that precedes it still rests: by the time a maker of
   * input n trades, every entry at a better price, or at its price and earlier, has been used up.
   */
  lemma NoOvertaking(ins: seq<Input>, n: nat)
    requires n < |ins|
    ensures var before := Replay(EMPTY_BOOK, Stamped(ins)[..n]);
            var o := Stamped(ins)[n].order;
            NoneOvertaken(Opposite(o.side), before.On(Opposite(o.side)), MatchFor(before, o).fills)
  {
    assert Stamped(ins)[..n] == Stamped(ins[..n]);
    RunKeepsArrivalOrder(ins[..n]);
    var before := Replay(EMPTY_BOOK, Stamped(ins[..n]));
    var o := Stamped(ins)[n].order;
    MatchOvertakesNone(before.On(Opposite(o.side)), o.side, o.price, o.qty);
  }
}
