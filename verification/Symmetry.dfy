/** Two laws of the engine: buyers and sellers are treated alike, and splitting an order gains nothing. */
module Symmetry {
  import opened Protocol
  import opened FlatBook

  // ---- Mirror: swap the sides and reflect every price about a constant ----

  function Reflect(k: int, e: Entry): Entry { e.(price := k - e.price) }

  function ReflectAll(k: int, entries: seq<Entry>): seq<Entry> {
    if entries == [] then [] else [Reflect(k, entries[0])] + ReflectAll(k, entries[1..])
  }

  function MirrorBook(k: int, b: Book): Book {
    Book(ReflectAll(k, b.asks), ReflectAll(k, b.bids))
  }

  function MirrorOrder(k: int, o: OrderPacket): OrderPacket {
    o.(side := Opposite(o.side), price := k - o.price)
  }

  function MirrorFills(k: int, fills: seq<Fill>): seq<Fill> {
    if fills == [] then []
    else [Fill(Reflect(k, fills[0].maker), fills[0].qty)] + MirrorFills(k, fills[1..])
  }

  function MirrorResults(k: int, results: seq<OrderResult>): seq<OrderResult> {
    if results == [] then []
    else
      [results[0].(side := Opposite(results[0].side), price := k - results[0].price)]
      + MirrorResults(k, results[1..])
  }

  lemma {:induction false} MirrorResultsAppend(k: int, a: seq<OrderResult>, b: seq<OrderResult>)
    ensures MirrorResults(k, a + b) == MirrorResults(k, a) + MirrorResults(k, b)
  {
    if a == [] {
      assert a + b == b;
    } else {
      AppendTail(a, b);
      MirrorResultsAppend(k, a[1..], b);
    }
  }

  lemma MirrorOne(k: int, r: OrderResult)
    ensures MirrorResults(k, [r]) == [r.(side := Opposite(r.side), price := k - r.price)]
  {
    assert [r][1..] == [];
  }

  lemma {:induction false} MirrorMatch(k: int, entries: seq<Entry>, side: Side, limit: int, qty: int)
    ensures var r := Match(entries, side, limit, qty);
            Match(ReflectAll(k, entries), Opposite(side), k - limit, qty)
            == MatchOut(ReflectAll(k, r.rest), MirrorFills(k, r.fills), r.left)
  {
    if qty > 0 && entries != [] && Crosses(side, limit, entries[0].price) {
      assert ReflectAll(k, entries)[1..] == ReflectAll(k, entries[1..]);
      var r := Match(entries, side, limit, qty);
      if qty < entries[0].qty {
        assert r.rest[1..] == entries[1..] && r.fills[1..] == [];
      } else {
        MirrorMatch(k, entries[1..], side, limit, qty - entries[0].qty);
        assert r.fills[1..] == Match(entries[1..], side, limit, qty - entries[0].qty).fills;
      }
    }
  }

  lemma {:induction false} MirrorFillResults(k: int, clientId: int, seqNo: int, side: Side, fills: seq<Fill>)
    ensures FillResults(clientId, seqNo, Opposite(side), MirrorFills(k, fills))
         == MirrorResults(k, FillResults(clientId, seqNo, side, fills))
  {
    if fills != [] {
      MirrorFillResults(k, clientId, seqNo, side, fills[1..]);
      assert MirrorFills(k, fills)[1..] == MirrorFills(k, fills[1..]);
      var both := FillResults(clientId, seqNo, side, fills)[..2];
      var rest := FillResults(clientId, seqNo, side, fills[1..]);
      assert FillResults(clientId, seqNo, side, fills) == both + rest;
      MirrorResultsAppend(k, both, rest);
      assert both[1..][1..] == [];
      assert MirrorResults(k, both) ==
             [both[0].(side := Opposite(side), price := k - both[0].price)] + MirrorResults(k, both[1..]);
    }
  }

  lemma {:induction false} MirrorInsert(k: int, entries: seq<Entry>, side: Side, e: Entry)
    ensures Insert(ReflectAll(k, entries), Opposite(side), Reflect(k, e)) == ReflectAll(k, Insert(entries, side, e))
  {
    var after := Insert(entries, side, e);
    if entries == [] || Better(side, e.price, entries[0].price) {
      assert after[1..] == entries;
    } else {
      assert after[1..] == Insert(entries[1..], side, e);
      assert ReflectAll(k, entries)[1..] == ReflectAll(k, entries[1..]);
      MirrorInsert(k, entries[1..], side, e);
    }
  }

  lemma {:induction false} MirrorRemove(k: int, entries: seq<Entry>, price: int, clientId: int)
    ensures Remove(ReflectAll(k, entries), k - price, clientId) == ReflectAll(k, Remove(entries, price, clientId))
    ensures Has(ReflectAll(k, entries), k - price, clientId) == Has(entries, price, clientId)
  {
    if entries != [] {
      var mirrored := ReflectAll(k, entries);
      assert mirrored[1..] == ReflectAll(k, entries[1..]);
      MirrorRemove(k, entries[1..], price, clientId);
      HasFirst(mirrored, k - price, clientId);
      HasFirst(entries, price, clientId);
      if !IsAt(entries[0], price, clientId) {
        assert Remove(entries, price, clientId)[1..] == Remove(entries[1..], price, clientId);
      }
    }
  }

  ghost predicate Commutes(k: int, b: Book, clientId: int, o: OrderPacket) {
    var out := Push(b, clientId, o);
    Push(MirrorBook(k, b), clientId, MirrorOrder(k, o))
    == PushOut(MirrorBook(k, out.book), MirrorResults(k, out.results), out.dirty)
  }

  lemma MirrorTrade(k: int, b: Book, clientId: int, o: OrderPacket)
    requires Tradable(o) && k - o.price > 0
    ensures Commutes(k, b, clientId, o)
  {
    hide Match, Insert, FillResults, ReflectAll, MirrorResults;
    var m := MatchFor(b, o);
    MirrorMatch(k, b.On(Opposite(o.side)), o.side, o.price, o.qty);
    MirrorFillResults(k, clientId, o.seqNo, o.side, m.fills);
    if m.left > 0 {
      MirrorInsert(k, b.On(o.side), o.side, Entry(o.price, clientId, m.left, o.seqNo));
      MirrorResultsAppend(k, FillResults(clientId, o.seqNo, o.side, m.fills),
                          [OrderResult(clientId, Accepted, o.side, o.price, m.left, o.seqNo)]);
      MirrorOne(k, OrderResult(clientId, Accepted, o.side, o.price, m.left, o.seqNo));
    }
  }

  /** An order that trades or rests is never answered with a rejection. */
  lemma TradeIsNotRejected(b: Book, clientId: int, o: OrderPacket)
    requires Tradable(o)
    ensures var results := Push(b, clientId, o).results; results != [] && results[0].kind != Reject
  {
  }

  lemma MirrorCancel(k: int, b: Book, clientId: int, o: OrderPacket)
    requires o.qty == 0
    ensures Commutes(k, b, clientId, o)
  {
    hide Match, Insert, Remove, FillResults, ReflectAll, MirrorFills, MirrorResults;
    var own := b.On(o.side);
    var removed := Remove(own, o.price, clientId);
    var mb, mo := MirrorBook(k, b), MirrorOrder(k, o);
    MirrorRemove(k, own, o.price, clientId);
    MirrorWith(k, b, o.side, removed);
    var found := Has(own, o.price, clientId);
    assert Has(mb.On(mo.side), mo.price, clientId) == found;
    var r := OrderResult(clientId, if found then Cancelled else Reject, o.side, o.price, 0, o.seqNo);
    MirrorOne(k, r);
    assert Push(b, clientId, o) == PushOut(if found then b.With(o.side, removed) else b, [r], found);
  }

  lemma MirrorWith(k: int, b: Book, side: Side, entries: seq<Entry>)
    ensures MirrorBook(k, b).On(Opposite(side)) == ReflectAll(k, b.On(side))
    ensures MirrorBook(k, b.With(side, entries)) == MirrorBook(k, b).With(Opposite(side), ReflectAll(k, entries))
  {
  }

  lemma MirrorRefused(k: int, b: Book, clientId: int, o: OrderPacket)
    requires o.qty != 0 && !Tradable(o) && !Tradable(MirrorOrder(k, o))
    ensures Commutes(k, b, clientId, o)
  {
    MirrorOne(k, Push(b, clientId, o).results[0]);
  }

  lemma MirrorDiffers(k: int, b: Book, clientId: int, o: OrderPacket)
    requires o.qty != 0 && (Tradable(o) <==> !Tradable(MirrorOrder(k, o)))
    ensures !Commutes(k, b, clientId, o)
  {
    var out, mirrored := Push(b, clientId, o), Push(MirrorBook(k, b), clientId, MirrorOrder(k, o));
    if Tradable(o) {
      TradeIsNotRejected(b, clientId, o);
    } else {
      TradeIsNotRejected(MirrorBook(k, b), clientId, MirrorOrder(k, o));
    }
    assert MirrorResults(k, out.results)[0].kind == out.results[0].kind;
  }

  /**
   * Mirroring commutes with the engine, on every book: always for cancels and malformed
   * quantities, and for an order proper exactly when its price and its mirrored price are
   * accepted or refused together.
   */
  lemma MirrorSymmetry(k: int, b: Book, clientId: int, o: OrderPacket)
    ensures Commutes(k, b, clientId, o) <==> o.qty <= 0 || (o.price > 0 <==> k - o.price > 0)
  {
    if o.qty == 0 {
      MirrorCancel(k, b, clientId, o);
    } else if Tradable(o) && Tradable(MirrorOrder(k, o)) {
      MirrorTrade(k, b, clientId, o);
    } else if Tradable(o) || Tradable(MirrorOrder(k, o)) {
      MirrorDiffers(k, b, clientId, o);
    } else {
      MirrorRefused(k, b, clientId, o);
    }
  }

  // ---- Split: a + c at once, or a and then c ----

  /** Two runs of fills where the second goes on where the first stopped inside a maker. */
  function JoinFills(f: seq<Fill>, g: seq<Fill>): seq<Fill> {
    var n := |f|;
    if n > 0 && g != [] && f[n - 1].qty < f[n - 1].maker.qty then
      f[..n - 1] + [Fill(f[n - 1].maker, f[n - 1].qty + g[0].qty)] + g[1..]
    else f + g
  }

  lemma JoinFillsCons(x: Fill, f: seq<Fill>, g: seq<Fill>)
    requires x.qty == x.maker.qty
    ensures JoinFills([x] + f, g) == [x] + JoinFills(f, g)
  {
    var n := |f|;
    var xf := [x] + f;
    if n == 0 {
      assert xf == [x] && [x] + g == [x] + (f + g);
    } else {
      assert xf[n] == f[n - 1] && xf[..n] == [x] + f[..n - 1];
      if g == [] || f[n - 1].qty >= f[n - 1].maker.qty {
        assert xf + g == [x] + (f + g);
      } else {
        var merged := [Fill(f[n - 1].maker, f[n - 1].qty + g[0].qty)] + g[1..];
        assert JoinFills(f, g) == f[..n - 1] + merged;
        assert JoinFills(xf, g) == xf[..n] + merged;
      }
    }
  }

  /** Matching a and then c on what is left is matching a + c. */
  ghost predicate Splits(entries: seq<Entry>, side: Side, limit: int, a: int, c: int) {
    var first := Match(entries, side, limit, a);
    var second := Match(first.rest, side, limit, c);
    && first.left >= 0
    && Match(entries, side, limit, a + c)
       == MatchOut(second.rest, JoinFills(first.fills, second.fills), first.left + second.left)
    && (first.left > 0 ==> second == MatchOut(first.rest, [], c))
  }

  lemma {:induction false} SplitMatch(entries: seq<Entry>, side: Side, limit: int, a: int, c: int)
    requires a >= 0 && c > 0
    ensures Splits(entries, side, limit, a, c)
  {
    if a > 0 && entries != [] && Crosses(side, limit, entries[0].price) {
      if a < entries[0].qty {
        SplitInsideHead(entries, side, limit, a, c);
      } else {
        SplitMatch(entries[1..], side, limit, a - entries[0].qty, c);
        SplitPastHead(entries, side, limit, a, c);
      }
    } else {
      SplitBeforeHead(entries, side, limit, a, c);
    }
  }

  /** The first part takes nothing. */
  lemma SplitBeforeHead(entries: seq<Entry>, side: Side, limit: int, a: int, c: int)
    requires a >= 0 && c > 0
    requires a == 0 || entries == [] || !Crosses(side, limit, entries[0].price)
    ensures Splits(entries, side, limit, a, c)
  {
    assert Match(entries, side, limit, a) == MatchOut(entries, [], a);
  }

  /** The first part takes the head whole. */
  lemma SplitPastHead(entries: seq<Entry>, side: Side, limit: int, a: int, c: int)
    requires a > 0 && c > 0 && entries != []
    requires Crosses(side, limit, entries[0].price) && a >= entries[0].qty
    requires Splits(entries[1..], side, limit, a - entries[0].qty, c)
    ensures Splits(entries, side, limit, a, c)
  {
    hide JoinFills;
    var head := entries[0];
    var first := Match(entries[1..], side, limit, a - head.qty);
    var second := Match(first.rest, side, limit, c);
    JoinFillsCons(Fill(head, head.qty), first.fills, second.fills);
    MatchPastHead(entries, side, limit, a);
    MatchPastHead(entries, side, limit, a + c);
    hide Match;
    assert a + c - head.qty == a - head.qty + c;
  }

  lemma MatchPastHead(entries: seq<Entry>, side: Side, limit: int, qty: int)
    requires qty > 0 && entries != [] && Crosses(side, limit, entries[0].price) && qty >= entries[0].qty
    ensures Match(entries, side, limit, qty)
         == After(entries[0], entries[0].qty, Match(entries[1..], side, limit, qty - entries[0].qty))
  {
  }

  /** The first part stops inside the head. */
  lemma SplitInsideHead(entries: seq<Entry>, side: Side, limit: int, a: int, c: int)
    requires a > 0 && c > 0 && entries != []
    requires Crosses(side, limit, entries[0].price) && a < entries[0].qty
    ensures Splits(entries, side, limit, a, c)
  {
    var head := entries[0];
    var cut := head.(qty := head.qty - a);
    var first := Match(entries, side, limit, a);
    assert first == MatchOut([cut] + entries[1..], [Fill(head, a)], 0);
    assert first.rest[1..] == entries[1..];
    if a + c < head.qty {
      assert Match(first.rest, side, limit, c).fills == [Fill(cut, c)];
      JoinInside(head, a, Fill(cut, c), []);
    } else {
      MatchPastHead(first.rest, side, limit, c);
      MatchPastHead(entries, side, limit, a + c);
      JoinInside(head, a, Fill(cut, cut.qty), Match(entries[1..], side, limit, c - cut.qty).fills);
    }
  }

  lemma JoinInside(head: Entry, a: int, x: Fill, tail: seq<Fill>)
    requires a < head.qty
    ensures JoinFills([Fill(head, a)], [x] + tail) == [Fill(head, a + x.qty)] + tail
  {
    assert [Fill(head, a)][..0] == [] && ([x] + tail)[1..] == tail;
  }

  /** Where the joint list has e, the split list has e's quantity in two entries, each with its own number. */
  ghost predicate SplitAt(split: seq<Entry>, joint: seq<Entry>, i: nat, e: Entry, e1: Entry, e2: Entry) {
    && i < |joint| && joint[i] == e && split == joint[..i] + [e1, e2] + joint[i + 1..]
  }

  /** e is queued alone, or in two parts one after the other. */
  predicate PartsOf(e: Entry, e1: Entry, e2: Entry) {
    && e1 == e.(qty := e1.qty, seqNo := e1.seqNo) && e2 == e.(qty := e2.qty, seqNo := e2.seqNo)
    && e.qty == e1.qty + e2.qty
  }

  lemma {:induction false} SplitInsert(own: seq<Entry>, side: Side, e: Entry, e1: Entry, e2: Entry) returns (i: nat)
    requires PartsOf(e, e1, e2)
    ensures SplitAt(Insert(Insert(own, side, e1), side, e2), Insert(own, side, e), i, e, e1, e2)
  {
    if own == [] || Better(side, e.price, own[0].price) {
      i := 0;
      SplitInsertFront(own, side, e, e1, e2);
    } else {
      var k := SplitInsert(own[1..], side, e, e1, e2);
      i := k + 1;
      var joint, split := Insert(own[1..], side, e), Insert(Insert(own[1..], side, e1), side, e2);
      assert Insert(own, side, e1)[1..] == Insert(own[1..], side, e1);
      SplitAtShift(own[0], split, joint, k, e, e1, e2);
    }
  }

  lemma SplitInsertFront(own: seq<Entry>, side: Side, e: Entry, e1: Entry, e2: Entry)
    requires own == [] || Better(side, e.price, own[0].price)
    requires PartsOf(e, e1, e2)
    ensures SplitAt(Insert(Insert(own, side, e1), side, e2), Insert(own, side, e), 0, e, e1, e2)
  {
    var one := Insert(own, side, e1);
    assert one == [e1] + own && one[1..] == own;
    assert Insert(own, side, e2) == [e2] + own;
    assert Insert(one, side, e2) == [e1] + ([e2] + own);
    assert ([e] + own)[1..] == own;
  }

  lemma SplitAtShift(head: Entry, split: seq<Entry>, joint: seq<Entry>, k: nat, e: Entry, e1: Entry, e2: Entry)
    requires SplitAt(split, joint, k, e, e1, e2)
    ensures SplitAt([head] + split, [head] + joint, k + 1, e, e1, e2)
  {
    assert ([head] + joint)[..k + 1] == [head] + joint[..k];
    assert ([head] + joint)[k + 2..] == joint[k + 1..];
  }

  /** The same list but for the serial number of the entry at i. */
  ghost predicate Renumbered(after: seq<Entry>, joint: seq<Entry>, i: nat, e: Entry, e2: Entry) {
    i < |joint| && joint[i] == e && after == joint[i := e2]
  }

  /** Where an entry queues does not depend on its serial number. */
  lemma {:induction false} InsertRenumbered(own: seq<Entry>, side: Side, e: Entry, e2: Entry) returns (i: nat)
    requires e2 == e.(seqNo := e2.seqNo)
    ensures Renumbered(Insert(own, side, e2), Insert(own, side, e), i, e, e2)
  {
    if own == [] || Better(side, e.price, own[0].price) {
      i := 0;
    } else {
      var k := InsertRenumbered(own[1..], side, e, e2);
      i := k + 1;
    }
  }

  /**
   * What the own side of the split run looks like: x of the first order and y of the second were left
   * to rest, and x + y of the joint order.
   */
  ghost predicate OwnSidesMatch(split: seq<Entry>, joint: seq<Entry>, e: Entry, x: int, y: int, seq1: int, seq2: int) {
    if x > 0 then exists i: nat :: SplitAt(split, joint, i, e, e.(qty := x, seqNo := seq1), e.(qty := y, seqNo := seq2))
    else if y > 0 then exists i: nat :: Renumbered(split, joint, i, e, e.(seqNo := seq2))
    else split == joint
  }

  /** The own sides, given what the three matches leave to rest. */
  lemma SplitOwnSide(own: seq<Entry>, side: Side, e: Entry, x: int, y: int, seq1: int, seq2: int)
    requires x >= 0 && y >= 0 && e.qty == x + y && (x > 0 ==> y > 0)
    ensures var first := if x > 0 then Insert(own, side, e.(qty := x, seqNo := seq1)) else own;
            var split := if y > 0 then Insert(first, side, e.(qty := y, seqNo := seq2)) else first;
            var joint := if x + y > 0 then Insert(own, side, e) else own;
            OwnSidesMatch(split, joint, e, x, y, seq1, seq2)
  {
    if x > 0 {
      var i := SplitInsert(own, side, e, e.(qty := x, seqNo := seq1), e.(qty := y, seqNo := seq2));
    } else if y > 0 {
      assert e.(qty := y, seqNo := seq2) == e.(seqNo := seq2);
      var i := InsertRenumbered(own, side, e, e.(seqNo := seq2));
    }
  }

  /**
   * Sending a + c, or a and then c at the same side and price, each order with its own serial number:
   * the same opposite book, the same fills maker by maker, and the same own side up to serial numbers,
   * where at most two adjacent entries of the sender stand for the one the joint order would have left.
   */
  lemma SplitEquivalence(b: Book, clientId: int, o: OrderPacket, a: int, c: int, seq1: int, seq2: int)
    requires a > 0 && c > 0 && o.qty == a + c && o.price > 0
    ensures var o1, o2 := o.(qty := a, seqNo := seq1), o.(qty := c, seqNo := seq2);
            var first := Push(b, clientId, o1).book;
            var split := Push(first, clientId, o2).book;
            var joint := Push(b, clientId, o).book;
            var x, y := MatchFor(b, o1).left, MatchFor(first, o2).left;
            && split.On(Opposite(o.side)) == joint.On(Opposite(o.side))
            && MatchFor(b, o).fills == JoinFills(MatchFor(b, o1).fills, MatchFor(first, o2).fills)
            && MatchFor(b, o).left == x + y
            && OwnSidesMatch(split.On(o.side), joint.On(o.side), Entry(o.price, clientId, x + y, o.seqNo), x, y,
                             seq1, seq2)
  {
    hide Push, Match, Insert, JoinFills, OwnSidesMatch;
    var o1, o2 := o.(qty := a, seqNo := seq1), o.(qty := c, seqNo := seq2);
    var first := Push(b, clientId, o1).book;
    TradeBook(b, clientId, o1);
    TradeBook(first, clientId, o2);
    TradeBook(b, clientId, o);
    SplitMatch(b.On(Opposite(o.side)), o.side, o.price, a, c);
    var x, y := MatchFor(b, o1).left, MatchFor(first, o2).left;
    MatchLeftNonNegative(b.On(Opposite(o.side)), o.side, o.price, a);
    MatchLeftNonNegative(first.On(Opposite(o.side)), o.side, o.price, c);
    SplitOwnSide(b.On(o.side), o.side, Entry(o.price, clientId, x + y, o.seqNo), x, y, seq1, seq2);
  }
}
