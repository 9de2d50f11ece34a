/** Price-time priority stated without the matching loop, and the shape every reachable book keeps. */
module PriceTime {
  import opened Protocol
  import opened FlatBook

  ghost predicate Positive(entries: seq<Entry>) {
    forall i :: 0 <= i < |entries| ==> entries[i].qty > 0 && entries[i].price > 0
  }

  ghost predicate Sorted(side: Side, entries: seq<Entry>) {
    forall i, j :: 0 <= i < j < |entries| ==> !Better(side, entries[j].price, entries[i].price)
  }

  function Volume(entries: seq<Entry>): int {
    if entries == [] then 0 else entries[0].qty + Volume(entries[1..])
  }

  lemma VolumeShift(entries: seq<Entry>, k: nat)
    requires 0 < k <= |entries|
    ensures Volume(entries[..k]) == entries[0].qty + Volume(entries[1..][..k - 1])
  {
    assert entries[..k][1..] == entries[1..][..k - 1];
  }

  // ---- What one order executes, in closed form ----

  /** Maker k is reached: it crosses, and the makers before it hold less than the order wants. */
  predicate Reached(entries: seq<Entry>, side: Side, limit: int, qty: int, k: nat)
    requires k < |entries|
  {
    Crosses(side, limit, entries[k].price) && Volume(entries[..k]) < qty
  }

  /** What the executed makers leave in the list: possibly one partial entry, then all not reached. */
  function Leftover(entries: seq<Entry>, fills: seq<Fill>): seq<Entry>
    requires |fills| <= |entries|
  {
    var n := |fills|;
    if n > 0 && fills[n - 1].qty < entries[n - 1].qty then
      [entries[n - 1].(qty := entries[n - 1].qty - fills[n - 1].qty)] + entries[n..]
    else entries[n..]
  }

  /** The longest reached prefix trades, each maker for all it has or all that is still wanted. */
  ghost predicate IsPriceTimeMatch(entries: seq<Entry>, side: Side, limit: int, qty: int, r: MatchOut) {
    && |r.fills| <= |entries|
    && (forall k :: 0 <= k < |r.fills| ==>
          && Reached(entries, side, limit, qty, k)
          && r.fills[k] == Fill(entries[k], Min(entries[k].qty, qty - Volume(entries[..k]))))
    && (|r.fills| < |entries| ==> !Reached(entries, side, limit, qty, |r.fills|))
    && r.rest == Leftover(entries, r.fills)
    && r.left == qty - Min(qty, Volume(entries[..|r.fills|]))
  }

  lemma {:induction false} MatchIsPriceTime(entries: seq<Entry>, side: Side, limit: int, qty: int)
    requires Positive(entries) && qty > 0
    ensures IsPriceTimeMatch(entries, side, limit, qty, Match(entries, side, limit, qty))
    decreases |entries|, 1
  {
    var r := Match(entries, side, limit, qty);
    assert entries != [] ==> entries[..0] == [];
    if entries != [] && Crosses(side, limit, entries[0].price) {
      if qty < entries[0].qty {
        assert entries[..1] == [entries[0]];
        assert Volume(entries[..1]) == entries[0].qty;
      } else if qty == entries[0].qty {
        assert r == MatchOut(entries[1..], [Fill(entries[0], qty)], 0);
        assert Volume(entries[..1]) == entries[0].qty by { VolumeShift(entries, 1); }
      } else {
        MatchRestIsPriceTime(entries, side, limit, qty);
      }
    }
  }

  lemma {:induction false} MatchRestIsPriceTime(entries: seq<Entry>, side: Side, limit: int, qty: int)
    requires Positive(entries) && entries != []
    requires Crosses(side, limit, entries[0].price) && qty > entries[0].qty
    ensures IsPriceTimeMatch(entries, side, limit, qty, Match(entries, side, limit, qty))
    decreases |entries|, 0
  {
    var rest := entries[1..];
    var t := Match(rest, side, limit, qty - entries[0].qty);
    MatchIsPriceTime(rest, side, limit, qty - entries[0].qty);
    FirstMakerWhole(entries, side, limit, qty, t);
  }

  lemma ReachedShift(entries: seq<Entry>, side: Side, limit: int, qty: int, k: nat)
    requires 0 < k < |entries|
    ensures Volume(entries[..k]) == entries[0].qty + Volume(entries[1..][..k - 1])
    ensures Reached(entries, side, limit, qty, k)
       <==> Reached(entries[1..], side, limit, qty - entries[0].qty, k - 1)
  {
    VolumeShift(entries, k);
  }

  /** A first maker taken whole leaves the same problem on the rest of the list. */
  lemma FirstMakerWhole(entries: seq<Entry>, side: Side, limit: int, qty: int, t: MatchOut)
    requires entries != [] && entries[0].qty > 0
    requires Crosses(side, limit, entries[0].price) && qty > entries[0].qty
    requires IsPriceTimeMatch(entries[1..], side, limit, qty - entries[0].qty, t)
    ensures IsPriceTimeMatch(entries, side, limit, qty, After(entries[0], entries[0].qty, t))
  {
    hide Match, Leftover;
    var r := After(entries[0], entries[0].qty, t);
    var n := |r.fills|;
    forall k: nat | k < n
      ensures Reached(entries, side, limit, qty, k)
      ensures r.fills[k] == Fill(entries[k], Min(entries[k].qty, qty - Volume(entries[..k])))
    {
      if k == 0 {
        assert entries[..0] == [];
      } else {
        ReachedShift(entries, side, limit, qty, k);
        assert r.fills[k] == t.fills[k - 1] && entries[k] == entries[1..][k - 1];
      }
    }
    VolumeShift(entries, n);
    if n < |entries| {
      ReachedShift(entries, side, limit, qty, n);
    }
    LeftoverShift(entries, t.fills);
  }

  lemma LeftoverShift(entries: seq<Entry>, fills: seq<Fill>)
    requires entries != [] && |fills| < |entries|
    ensures Leftover(entries, [Fill(entries[0], entries[0].qty)] + fills) == Leftover(entries[1..], fills)
  {
    var n := |fills|;
    assert entries[1..][n..] == entries[n + 1..];
    if n > 0 {
      assert ([Fill(entries[0], entries[0].qty)] + fills)[n] == fills[n - 1];
      assert entries[1..][n - 1] == entries[n];
    }
  }

  /** The closed form pins the outcome down: it holds of what Match returns and of nothing else. */
  lemma MatchIffPriceTime(entries: seq<Entry>, side: Side, limit: int, qty: int, r: MatchOut)
    requires Positive(entries) && qty > 0
    ensures r == Match(entries, side, limit, qty) <==> IsPriceTimeMatch(entries, side, limit, qty, r)
  {
    var m := Match(entries, side, limit, qty);
    MatchIsPriceTime(entries, side, limit, qty);
    if IsPriceTimeMatch(entries, side, limit, qty, r) {
      assert |r.fills| == |m.fills|;
      assert r.fills == m.fills;
    }
  }

  function Executed(fills: seq<Fill>): int {
    if fills == [] then 0 else fills[0].qty + Executed(fills[1..])
  }

  /** All the quantity resting at prices the order accepts, wherever it stands in the list. */
  function CrossVolume(entries: seq<Entry>, side: Side, limit: int): int {
    if entries == [] then 0
    else
      (if Crosses(side, limit, entries[0].price) then entries[0].qty else 0)
      + CrossVolume(entries[1..], side, limit)
  }

  lemma {:induction false} NothingCrosses(entries: seq<Entry>, side: Side, limit: int)
    requires forall i :: 0 <= i < |entries| ==> !Crosses(side, limit, entries[i].price)
    ensures CrossVolume(entries, side, limit) == 0
  {
    if entries != [] {
      NothingCrosses(entries[1..], side, limit);
    }
  }

  lemma {:induction false} CrossVolumeNonNegative(entries: seq<Entry>, side: Side, limit: int)
    requires Positive(entries)
    ensures CrossVolume(entries, side, limit) >= 0
  {
    if entries != [] {
      CrossVolumeNonNegative(entries[1..], side, limit);
    }
  }

  /** An order executes the smaller of its quantity and all that crosses; only the last maker may survive. */
  lemma {:induction false} MatchFillsAllThatCrosses(entries: seq<Entry>, side: Side, limit: int, qty: int)
    requires Positive(entries) && Sorted(Opposite(side), entries) && qty > 0
    ensures var r := Match(entries, side, limit, qty);
            && Executed(r.fills) == Min(qty, CrossVolume(entries, side, limit))
            && r.left == qty - Executed(r.fills)
            && (forall k :: 0 <= k < |r.fills| ==> 0 < r.fills[k].qty <= r.fills[k].maker.qty)
            && (forall k :: 0 <= k < |r.fills| - 1 ==> r.fills[k].qty == r.fills[k].maker.qty)
  {
    if entries == [] {
    } else if !Crosses(side, limit, entries[0].price) {
      NothingCrosses(entries, side, limit);
    } else {
      CrossVolumeNonNegative(entries[1..], side, limit);
      var r := Match(entries, side, limit, qty);
      assert r.fills[1..] == (if qty < entries[0].qty then [] else
                                Match(entries[1..], side, limit, qty - entries[0].qty).fills);
      if qty > entries[0].qty {
        MatchFillsAllThatCrosses(entries[1..], side, limit, qty - entries[0].qty);
      }
    }
  }

  /** An order larger than a side that crosses throughout sweeps it. */
  lemma {:induction false} MatchSweeps(entries: seq<Entry>, side: Side, limit: int, qty: int)
    requires Positive(entries) && qty > Volume(entries)
    requires forall i :: 0 <= i < |entries| ==> Crosses(side, limit, entries[i].price)
    ensures var r := Match(entries, side, limit, qty); r.rest == [] && r.left == qty - Volume(entries)
  {
    if entries != [] {
      VolumePositive(entries[1..]);
      MatchSweeps(entries[1..], side, limit, qty - entries[0].qty);
    }
  }

  lemma {:induction false} VolumePositive(entries: seq<Entry>)
    requires Positive(entries)
    ensures Volume(entries) >= 0
  {
    if entries != [] {
      VolumePositive(entries[1..]);
    }
  }

  // ---- Insert and Remove, by position ----

  ghost predicate InsertedAt(before: seq<Entry>, after: seq<Entry>, side: Side, e: Entry, i: nat) {
    && i <= |before| && after == before[..i] + [e] + before[i..]
    && (forall j :: 0 <= j < i ==> !Better(side, e.price, before[j].price))
    && (forall j :: i <= j < |before| ==> Better(side, e.price, before[j].price))
  }

  /** A new entry stands after every entry at its price or a better one, and before every worse one. */
  lemma {:induction false} InsertPosition(entries: seq<Entry>, side: Side, e: Entry) returns (i: nat)
    requires Sorted(side, entries)
    ensures InsertedAt(entries, Insert(entries, side, e), side, e, i)
  {
    if entries == [] || Better(side, e.price, entries[0].price) {
      i := 0;
    } else {
      var k := InsertPosition(entries[1..], side, e);
      i := k + 1;
      assert entries[..i] == [entries[0]] + entries[1..][..k];
    }
  }

  ghost predicate RemovedAt(before: seq<Entry>, after: seq<Entry>, price: int, clientId: int, i: nat) {
    && i < |before| && after == before[..i] + before[i + 1..]
    && IsAt(before[i], price, clientId)
    && (forall j :: 0 <= j < i ==> !IsAt(before[j], price, clientId))
  }

  /** A cancel takes the first entry that carries the price and the client, and nothing else. */
  lemma {:induction false} RemovePosition(entries: seq<Entry>, price: int, clientId: int) returns (i: nat)
    requires Has(entries, price, clientId)
    ensures RemovedAt(entries, Remove(entries, price, clientId), price, clientId, i)
  {
    if IsAt(entries[0], price, clientId) {
      i := 0;
    } else {
      var k := RemovePosition(entries[1..], price, clientId);
      i := k + 1;
      assert entries[..i] == [entries[0]] + entries[1..][..k];
    }
  }

  lemma {:induction false} RemoveNothing(entries: seq<Entry>, price: int, clientId: int)
    requires !Has(entries, price, clientId)
    ensures Remove(entries, price, clientId) == entries
  {
    if entries != [] {
      RemoveNothing(entries[1..], price, clientId);
    }
  }

  // ---- The shape of every reachable book ----

  /** No order of `own` would trade with any of `opp`: every bid is below every ask. */
  ghost predicate Apart(side: Side, own: seq<Entry>, opp: seq<Entry>) {
    forall i, j :: 0 <= i < |own| && 0 <= j < |opp| ==> !Crosses(side, own[i].price, opp[j].price)
  }

  ghost predicate WellFormed(b: Book) {
    && Positive(b.bids) && Positive(b.asks)
    && Sorted(Buy, b.bids) && Sorted(Sell, b.asks)
    && Apart(Buy, b.bids, b.asks)
  }

  lemma ShapeFrom(b: Book, side: Side)
    ensures WellFormed(b) <==>
            && Positive(b.On(side)) && Positive(b.On(Opposite(side)))
            && Sorted(side, b.On(side)) && Sorted(Opposite(side), b.On(Opposite(side)))
            && Apart(side, b.On(side), b.On(Opposite(side)))
  {
  }

  /** after is the end of before, but perhaps for the quantity of its first entry. */
  ghost predicate TailOf(before: seq<Entry>, after: seq<Entry>) {
    && |after| <= |before|
    && (after != [] ==> var d := |before| - |after|; after == [before[d].(qty := after[0].qty)] + before[d + 1..])
  }

  lemma TailOfTail(before: seq<Entry>, after: seq<Entry>)
    requires before != [] && TailOf(before[1..], after)
    ensures TailOf(before, after)
  {
    if after != [] {
      var d := |before| - |after|;
      assert before[1..][d - 1] == before[d] && before[1..][d..] == before[d + 1..];
    }
  }

  lemma TailOfSelf(before: seq<Entry>)
    ensures TailOf(before, before)
  {
    if before != [] {
      assert before == [before[0]] + before[1..];
    }
  }

  /** Matching keeps a suffix of the list, of which only the first quantity may differ. */
  lemma {:induction false} MatchKeepsTail(entries: seq<Entry>, side: Side, limit: int, qty: int)
    ensures TailOf(entries, Match(entries, side, limit, qty).rest)
  {
    if qty > 0 && entries != [] && Crosses(side, limit, entries[0].price) {
      if qty >= entries[0].qty {
        MatchKeepsTail(entries[1..], side, limit, qty - entries[0].qty);
        TailOfTail(entries, Match(entries[1..], side, limit, qty - entries[0].qty).rest);
      }
    } else {
      TailOfSelf(entries);
    }
  }

  lemma MatchSuffix(entries: seq<Entry>, side: Side, limit: int, qty: int)
    ensures var rest := Match(entries, side, limit, qty).rest;
            && |rest| <= |entries|
            && (forall i :: 0 <= i < |rest| ==>
                  rest[i] == entries[|entries| - |rest| + i].(qty := rest[i].qty))
  {
    hide Match;
    MatchKeepsTail(entries, side, limit, qty);
  }

  lemma {:induction false} MatchKeepsPositive(entries: seq<Entry>, side: Side, limit: int, qty: int)
    requires Positive(entries)
    ensures Positive(Match(entries, side, limit, qty).rest)
  {
    if qty > 0 && entries != [] && Crosses(side, limit, entries[0].price) && qty >= entries[0].qty {
      MatchKeepsPositive(entries[1..], side, limit, qty - entries[0].qty);
    }
  }

  lemma {:induction false} NoneLeftToCross(entries: seq<Entry>, side: Side, limit: int, qty: int)
    ensures var r := Match(entries, side, limit, qty);
            r.left > 0 && r.rest != [] ==> !Crosses(side, limit, r.rest[0].price)
  {
    if qty > 0 && entries != [] && Crosses(side, limit, entries[0].price) && qty >= entries[0].qty {
      NoneLeftToCross(entries[1..], side, limit, qty - entries[0].qty);
    }
  }

  lemma RemoveKeeps(side: Side, own: seq<Entry>, opp: seq<Entry>, price: int, clientId: int)
    requires Positive(own) && Sorted(side, own) && Apart(side, own, opp)
    requires Has(own, price, clientId)
    ensures var after := Remove(own, price, clientId);
            Positive(after) && Sorted(side, after) && Apart(side, after, opp)
  {
    var i := RemovePosition(own, price, clientId);
    var after := Remove(own, price, clientId);
    assert forall k :: 0 <= k < |after| ==> after[k] == own[if k < i then k else k + 1];
  }

  lemma InsertKeepsSorted(side: Side, own: seq<Entry>, e: Entry)
    requires Sorted(side, own)
    ensures Sorted(side, Insert(own, side, e))
  {
    var i := InsertPosition(own, side, e);
    var after := Insert(own, side, e);
    forall k, l | 0 <= k < l < |after|
      ensures !Better(side, after[l].price, after[k].price)
    {
      var before := (x: int) => if x < i then x else x - 1;
      assert after[k] == if k == i then e else own[before(k)];
      assert after[l] == if l == i then e else own[before(l)];
    }
  }

  lemma {:induction false} InsertMembers(own: seq<Entry>, side: Side, e: Entry)
    ensures multiset(Insert(own, side, e)) == multiset(own) + multiset{e}
  {
    if own != [] && !Better(side, e.price, own[0].price) {
      InsertMembers(own[1..], side, e);
      assert own == [own[0]] + own[1..];
    }
  }

  lemma InsertKeeps(side: Side, own: seq<Entry>, opp: seq<Entry>, e: Entry)
    requires Positive(own) && Sorted(side, own) && Apart(side, own, opp)
    requires e.qty > 0 && e.price > 0
    requires forall j :: 0 <= j < |opp| ==> !Crosses(side, e.price, opp[j].price)
    ensures var after := Insert(own, side, e);
            Positive(after) && Sorted(side, after) && Apart(side, after, opp)
  {
    InsertKeepsSorted(side, own, e);
    InsertMembers(own, side, e);
    var after := Insert(own, side, e);
    forall k | 0 <= k < |after|
      ensures after[k] == e || after[k] in own
    {
      assert after[k] in multiset(after);
    }
  }

  lemma MatchKeeps(side: Side, own: seq<Entry>, opp: seq<Entry>, limit: int, qty: int)
    requires Positive(opp) && Sorted(Opposite(side), opp) && Apart(side, own, opp) && qty > 0
    ensures var r := Match(opp, side, limit, qty);
            && Positive(r.rest) && Sorted(Opposite(side), r.rest) && Apart(side, own, r.rest)
            && (r.left > 0 ==> forall j :: 0 <= j < |r.rest| ==> !Crosses(side, limit, r.rest[j].price))
  {
    MatchSuffix(opp, side, limit, qty);
    MatchKeepsPositive(opp, side, limit, qty);
    NoneLeftToCross(opp, side, limit, qty);
  }

  /** Matching, resting and cancelling all keep the book sorted, positive and uncrossed. */
  lemma PushKeepsShape(b: Book, clientId: int, o: OrderPacket)
    requires WellFormed(b)
    ensures WellFormed(Push(b, clientId, o).book)
  {
    var own, opp := b.On(o.side), b.On(Opposite(o.side));
    var after := Push(b, clientId, o).book;
    ShapeFrom(b, o.side);
    if o.qty == 0 {
      if Has(own, o.price, clientId) {
        RemoveKeeps(o.side, own, opp, o.price, clientId);
      }
    } else if Tradable(o) {
      var m := MatchFor(b, o);
      MatchKeeps(o.side, own, opp, o.price, o.qty);
      if m.left > 0 {
        InsertKeeps(o.side, own, m.rest, Entry(o.price, clientId, m.left, o.seqNo));
      }
    }
    ShapeFrom(after, o.side);
  }

  /** Whatever sequence of orders arrives, from whomever. */
  lemma {:induction false} ReplayKeepsShape(b: Book, ins: seq<Input>)
    requires WellFormed(b)
    ensures WellFormed(Replay(b, ins))
  {
    if ins != [] {
      var n := |ins| - 1;
      ReplayKeepsShape(b, ins[..n]);
      PushKeepsShape(Replay(b, ins[..n]), ins[n].clientId, ins[n].order);
    }
  }

  // ---- What one order is told ----

  /** Maker k's share of an order of size qty. */
  function Share(entries: seq<Entry>, qty: int, k: nat): int
    requires k < |entries|
  {
    Min(entries[k].qty, qty - Volume(entries[..k]))
  }

  lemma {:induction false} FillResultsAt(clientId: int, seqNo: int, side: Side, fills: seq<Fill>, k: nat)
    requires k < |fills|
    ensures var r := FillResults(clientId, seqNo, side, fills);
            var f := fills[k];
            && |r| == 2 * |fills|
            && r[2 * k] == OrderResult(clientId, Success, side, f.maker.price, f.qty, seqNo)
            && r[2 * k + 1] == OrderResult(f.maker.clientId, Success, Opposite(side), f.maker.price, f.qty,
                                           f.maker.seqNo)
  {
    FillResultsLength(clientId, seqNo, side, fills);
    if k > 0 {
      FillResultsAt(clientId, seqNo, side, fills[1..], k - 1);
      assert fills[1..][k - 1] == fills[k];
    }
  }

  lemma {:induction false} FillResultsLength(clientId: int, seqNo: int, side: Side, fills: seq<Fill>)
    ensures |FillResults(clientId, seqNo, side, fills)| == 2 * |fills|
  {
    if fills != [] {
      FillResultsLength(clientId, seqNo, side, fills[1..]);
    }
  }

  /**
   * All that an order proper causes to be reported, in order: for each maker reached, taken from the
   * head of the list, one report to the sender and one to the maker, both at the maker's price and for
   * its share; then, if the list gave less than was ordered, the registration of what is left.
   */
  lemma TradeIsReported(b: Book, clientId: int, o: OrderPacket)
    requires WellFormed(b) && Tradable(o)
    ensures var opp, m, r := b.On(Opposite(o.side)), MatchFor(b, o), Push(b, clientId, o).results;
            var n := |m.fills|;
            && n <= |opp|
            && |r| == 2 * n + (if m.left > 0 then 1 else 0)
            && (forall k: nat :: k < n ==>
                  && r[2 * k] == OrderResult(clientId, Success, o.side, opp[k].price, Share(opp, o.qty, k), o.seqNo)
                  && r[2 * k + 1] == OrderResult(opp[k].clientId, Success, Opposite(o.side), opp[k].price,
                                                 Share(opp, o.qty, k), opp[k].seqNo))
            && (m.left > 0 ==> r[2 * n] == OrderResult(clientId, Accepted, o.side, o.price, m.left, o.seqNo))
  {
    hide Match, FillResults;
    var opp, m := b.On(Opposite(o.side)), MatchFor(b, o);
    MatchIsPriceTime(opp, o.side, o.price, o.qty);
    FillResultsLength(clientId, o.seqNo, o.side, m.fills);
    forall k: nat | k < |m.fills|
      ensures var r := FillResults(clientId, o.seqNo, o.side, m.fills);
              && r[2 * k] == OrderResult(clientId, Success, o.side, opp[k].price, Share(opp, o.qty, k), o.seqNo)
              && r[2 * k + 1] == OrderResult(opp[k].clientId, Success, Opposite(o.side), opp[k].price,
                                             Share(opp, o.qty, k), opp[k].seqNo)
    {
      FillResultsAt(clientId, o.seqNo, o.side, m.fills, k);
    }
  }

  /**
   * All that a cancel does: found, exactly one entry goes and the sender hears so; not found, the sender
   * is refused and the book stays. The answer repeats what the cancel named.
   */
  lemma CancelIsReported(b: Book, clientId: int, o: OrderPacket)
    requires o.qty == 0
    ensures var own, out := b.On(o.side), Push(b, clientId, o);
            && |out.results| == 1 && out.results[0].clientId == clientId && out.results[0].seqNo == o.seqNo
            && out.results[0].side == o.side && out.results[0].price == o.price && out.results[0].qty == 0
            && out.book.On(Opposite(o.side)) == b.On(Opposite(o.side))
            && (out.results[0].kind == Cancelled ==>
                  exists i: nat :: RemovedAt(own, out.book.On(o.side), o.price, clientId, i))
            && (out.results[0].kind != Cancelled ==>
                  out.results[0].kind == Reject && out.book == b && forall e <- own :: !IsAt(e, o.price, clientId))
  {
    if Has(b.On(o.side), o.price, clientId) {
      var i := RemovePosition(b.On(o.side), o.price, clientId);
      assert RemovedAt(b.On(o.side), Push(b, clientId, o).book.On(o.side), o.price, clientId, i);
    }
  }

  /** All that a malformed order does: the sender is refused, with quantity zero, and the book stays. */
  lemma RefusalIsReported(b: Book, clientId: int, o: OrderPacket)
    requires o.qty < 0 || (o.qty > 0 && o.price <= 0)
    ensures var out := Push(b, clientId, o);
            && out.book == b && !out.dirty && |out.results| == 1
            && (var r := out.results[0];
                r.clientId == clientId && r.seqNo == o.seqNo && r.kind == Reject
                && r.side == o.side && r.price == o.price && r.qty == 0)
  {
  }

  // ---- dirty ----

  lemma {:induction false} InsertGrows(entries: seq<Entry>, side: Side, e: Entry)
    ensures |Insert(entries, side, e)| == |entries| + 1
  {
    if entries != [] && !Better(side, e.price, entries[0].price) {
      InsertGrows(entries[1..], side, e);
    }
  }

  /** The flag is raised by exactly those orders that change the book. */
  lemma DirtyIffChanged(b: Book, clientId: int, o: OrderPacket)
    requires WellFormed(b)
    ensures Push(b, clientId, o).dirty <==> Push(b, clientId, o).book != b
  {
    var own, opp := b.On(o.side), b.On(Opposite(o.side));
    if o.qty == 0 {
      if Has(own, o.price, clientId) {
        var i := RemovePosition(own, o.price, clientId);
        assert |Remove(own, o.price, clientId)| == |own| - 1;
      }
    } else if Tradable(o) {
      var m := MatchFor(b, o);
      MatchChangesIffFills(opp, o.side, o.price, o.qty);
      if m.left > 0 {
        InsertGrows(own, o.side, Entry(o.price, clientId, m.left, o.seqNo));
      }
    }
  }

  lemma MatchChangesIffFills(entries: seq<Entry>, side: Side, limit: int, qty: int)
    requires Positive(entries) && qty > 0
    ensures var r := Match(entries, side, limit, qty); r.fills != [] <==> r.rest != entries
    ensures var r := Match(entries, side, limit, qty); r.left <= 0 ==> r.fills != []
  {
    if entries != [] && Crosses(side, limit, entries[0].price) && qty >= entries[0].qty {
      MatchSuffix(entries[1..], side, limit, qty - entries[0].qty);
    }
  }
}
