/** What a client reads off the packet against what the engine would really do. */
module DepthWalk {
  import opened Protocol
  import opened FlatBook
  import opened Codec
  import opened Depth
  import opened PriceTime
  import opened Strategy

  const PRICE_LIMIT: int := 100000
  const QTY_LIMIT: int := 10000

  lemma FieldLimits()
    ensures Pow10(PRICE_LEN) == PRICE_LIMIT && Pow10(QTY_LEN) == QTY_LIMIT
  {
    assert Pow10(2) == 100 && Pow10(4) == 100 * Pow10(2);
    assert Pow10(5) == 10 * Pow10(4);
  }

  // ---- Levels of a side ----

  ghost predicate LevelsPositive(levels: seq<Level>) {
    forall i :: 0 <= i < |levels| ==> levels[i].qty > 0 && levels[i].price > 0
  }

  ghost predicate LevelsSorted(side: Side, levels: seq<Level>) {
    forall i, j :: 0 <= i < j < |levels| ==> Better(side, levels[i].price, levels[j].price)
  }

  ghost predicate PricesFrom(levels: seq<Level>, entries: seq<Entry>) {
    forall i :: 0 <= i < |levels| ==> exists j :: 0 <= j < |entries| && entries[j].price == levels[i].price
  }

  lemma {:induction false} AggregatePositive(entries: seq<Entry>)
    requires Positive(entries)
    ensures LevelsPositive(Aggregate(entries))
  {
    if entries != [] {
      AggregatePositive(entries[1..]);
    }
  }

  lemma {:induction false} AggregatePrices(entries: seq<Entry>)
    ensures PricesFrom(Aggregate(entries), entries)
  {
    if entries != [] {
      AggregatePrices(entries[1..]);
      var levels, tail := Aggregate(entries), Aggregate(entries[1..]);
      forall i | 0 <= i < |levels|
        ensures exists j :: 0 <= j < |entries| && entries[j].price == levels[i].price
      {
        if i == 0 {
          assert entries[0].price == levels[0].price;
        } else {
          var d := |levels| - |tail|;
          assert levels[i] == tail[i - d];
          var j :| 0 <= j < |entries[1..]| && entries[1..][j].price == tail[i - d].price;
          assert entries[j + 1].price == levels[i].price;
        }
      }
    }
  }

  /** One level per price, best first. */
  lemma {:induction false} AggregateSorted(side: Side, entries: seq<Entry>)
    requires Sorted(side, entries)
    ensures LevelsSorted(side, Aggregate(entries))
  {
    if entries != [] {
      var levels, tail := Aggregate(entries), Aggregate(entries[1..]);
      AggregateSorted(side, entries[1..]);
      AggregatePrices(entries[1..]);
      forall i | 0 < i < |levels|
        ensures Better(side, levels[0].price, levels[i].price)
      {
        var d := |levels| - |tail|;
        assert levels[i] == tail[i - d];
        var j :| 0 <= j < |entries[1..]| && entries[1..][j].price == tail[i - d].price;
        assert entries[1..][j] == entries[j + 1];
        if d == 0 {
          assert Better(side, tail[0].price, tail[i].price);
        } else {
          assert tail[0].price != levels[0].price;
          assert !Better(side, tail[0].price, levels[0].price) by {
            assert entries[1].price == tail[0].price;
          }
        }
      }
    }
  }

  function Qtys(levels: seq<Level>): seq<int> {
    seq(|levels|, i requires 0 <= i < |levels| => levels[i].qty)
  }

  // ---- Where an unlimited order of size q ends ----

  /** The price at which the levels, taken in order, add up to q. */
  function PriceReached(levels: seq<Level>, q: int): Option<int> {
    if levels == [] then None
    else if q <= levels[0].qty then Some(levels[0].price)
    else PriceReached(levels[1..], q - levels[0].qty)
  }

  ghost predicate Unlimited(entries: seq<Entry>, side: Side, limit: int) {
    forall i :: 0 <= i < |entries| ==> Crosses(side, limit, entries[i].price)
  }

  /** The price of the last fill of a complete execution. */
  function LastPrice(m: MatchOut): Option<int> {
    if m.left > 0 || m.fills == [] then None else Some(m.fills[|m.fills| - 1].maker.price)
  }

  lemma {:induction false} MatchReaches(entries: seq<Entry>, side: Side, limit: int, q: int)
    requires Positive(entries) && Unlimited(entries, side, limit) && q > 0
    ensures LastPrice(Match(entries, side, limit, q)) == PriceReached(Aggregate(entries), q)
  {
    if entries != [] {
      var head := entries[0];
      var levels, tail := Aggregate(entries), Aggregate(entries[1..]);
      var m := Match(entries, side, limit, q);
      if q > head.qty {
        var rest := Match(entries[1..], side, limit, q - head.qty);
        MatchReaches(entries[1..], side, limit, q - head.qty);
        assert m == After(head, head.qty, rest);
        LastPriceAfter(head, rest, entries[1..], side, limit, q - head.qty);
        if tail != [] && tail[0].price == head.price {
          assert levels[1..] == tail[1..];
        } else {
          assert levels[1..] == tail;
        }
      } else {
        AggregatePositive(entries[1..]);
        assert Match(entries[1..], side, limit, 0) == MatchOut(entries[1..], [], 0);
        assert m.fills == [Fill(head, q)] && m.left == 0;
      }
    }
  }

  lemma LastPriceAfter(head: Entry, rest: MatchOut, entries: seq<Entry>, side: Side, limit: int, q: int)
    requires q > 0 && rest == Match(entries, side, limit, q)
    ensures LastPrice(After(head, head.qty, rest)) == LastPrice(rest)
  {
    if rest.fills == [] {
      assert rest.left == q;
    }
  }

  lemma {:induction false} PriceReachedAt(levels: seq<Level>, q: int, i: nat)
    requires LevelsPositive(levels) && q > 0 && StopsAt(Qtys(levels), q, i)
    ensures PriceReached(levels, q) == Some(levels[i].price)
  {
    var s := Qtys(levels);
    if i == 0 {
      assert Total(s[..1]) == s[0] by { assert s[..1][..0] == []; }
    } else {
      TotalFront(s[..i]);
      TotalFront(s[..i + 1]);
      var t := Qtys(levels[1..]);
      assert s[..i][1..] == t[..i - 1] && s[..i + 1][1..] == t[..i];
      TotalPositive(t[..i - 1]);
      assert StopsAt(t, q - s[0], i - 1) by {
        assert forall j :: 0 <= j <= i - 1 ==> t[j] == s[j + 1];
      }
      PriceReachedAt(levels[1..], q - s[0], i - 1);
    }
  }

  lemma {:induction false} TotalFront(s: seq<int>)
    requires s != []
    ensures Total(s) == s[0] + Total(s[1..])
  {
    var n := |s| - 1;
    if n == 0 {
      assert s[..0] == [] && s[1..] == [];
    } else {
      TotalFront(s[..n]);
      assert s[..n][1..] == s[1..][..n - 1];
    }
  }

  lemma {:induction false} TotalPositive(s: seq<int>)
    requires forall i :: 0 <= i < |s| ==> s[i] >= 0
    ensures Total(s) >= 0
  {
    if s != [] {
      TotalPositive(s[..|s| - 1]);
    }
  }

  lemma {:induction false} TotalMonotone(s: seq<int>, i: nat, j: nat)
    requires i <= j <= |s| && forall k :: 0 <= k < |s| ==> s[k] >= 0
    ensures Total(s[..i]) <= Total(s[..j])
  {
    if i < j {
      TotalMonotone(s, i, j - 1);
      assert s[..j][..j - 1] == s[..j - 1];
    }
  }

  /** The walk stops somewhere exactly when the whole depth reaches q. */
  lemma {:induction false} StopExists(s: seq<int>, q: int, n: nat) returns (i: nat)
    requires n <= |s| && forall k :: 0 <= k < |s| ==> s[k] > 0
    requires 0 < q <= Total(s[..n])
    ensures i < n && StopsAt(s, q, i)
  {
    assert s[..n][..n - 1] == s[..n - 1];
    if n > 1 && q <= Total(s[..n - 1]) {
      i := StopExists(s, q, n - 1);
    } else {
      i := n - 1;
    }
  }

  // ---- The walk over a decoded packet ----

  /** Every quantity up to level i, and the price of level i, fit their fields. */
  ghost predicate Legible(levels: seq<Level>, i: nat)
    requires i < |levels|
  {
    && (forall j :: 0 <= j <= i ==> levels[j].qty < QTY_LIMIT)
    && levels[i].price < PRICE_LIMIT
  }

  /** The depth of the five levels a packet shows. */
  function ShownDepth(levels: seq<Level>): int {
    Total(Qtys(levels)[..if |levels| < NUM_LAYERS then |levels| else NUM_LAYERS])
  }

  lemma {:induction false} TotalBelow(s: seq<int>, t: seq<int>)
    requires |s| == |t| && forall k :: 0 <= k < |s| ==> s[k] <= t[k]
    ensures Total(s) <= Total(t)
  {
    if s != [] {
      TotalBelow(s[..|s| - 1], t[..|s| - 1]);
    }
  }

  lemma KeptQty(levels: seq<Level>, j: nat)
    requires LevelsPositive(levels) && j < NUM_LAYERS
    ensures var kept := KeptQtys(levels)[j];
            && (kept > 0 <==> j < |levels| && levels[j].qty < QTY_LIMIT)
            && (kept > 0 ==> kept == levels[j].qty)
  {
    FieldLimits();
  }

  /** Where the decoded walk stops, the true depth up to there is the depth it read. */
  lemma DecodedStop(levels: seq<Level>, q: int, i: nat)
    requires LevelsPositive(levels)
    ensures StopsAt(KeptQtys(levels), q, i) <==>
            && i < NUM_LAYERS && StopsAt(Qtys(levels), q, i)
            && (forall j :: 0 <= j <= i ==> levels[j].qty < QTY_LIMIT)
  {
    var kept, s := KeptQtys(levels), Qtys(levels);
    forall j: nat | j < NUM_LAYERS
      ensures kept[j] > 0 <==> j < |levels| && levels[j].qty < QTY_LIMIT
      ensures kept[j] > 0 ==> kept[j] == levels[j].qty
    {
      KeptQty(levels, j);
    }
    if i < NUM_LAYERS && forall j :: 0 <= j <= i ==> kept[j] > 0 {
      assert kept[i] > 0;
      assert kept[..i + 1] == s[..i + 1];
      assert kept[..i] == s[..i];
    }
  }

  /** At most one level is where a walk stops. */
  lemma StopIsUnique(s: seq<int>, q: int, i: nat, j: nat)
    requires StopsAt(s, q, i) && i < j
    ensures !StopsAt(s, q, j)
  {
    if j < |s| && forall k :: 0 <= k <= j ==> s[k] > 0 {
      TotalMonotone(s[..j], i + 1, j);
      assert s[..j][..i + 1] == s[..i + 1] && s[..j][..j] == s[..j];
    }
  }

  /** The walk over true levels that stops among the first five is bounded by the shown depth. */
  lemma StopWithinShown(levels: seq<Level>, q: int, i: nat)
    requires LevelsPositive(levels) && StopsAt(Qtys(levels), q, i) && i < NUM_LAYERS
    ensures q <= ShownDepth(levels)
  {
    var s := Qtys(levels);
    TotalMonotone(s, i + 1, if |levels| < NUM_LAYERS then |levels| else NUM_LAYERS);
  }

  /**
   * One side of a book, any quantity q > 0, and the quote read from the decoded packet. If the five
   * shown levels hold less than q, the quote is empty. Otherwise the walk belongs at level i, where
   * an unlimited order of size q would get its last fill; the quote is the price of that fill exactly
   * when the quantities up to level i and its price fit the packet.
   */
  lemma QuoteIsLastFill(entries: seq<Entry>, side: Side, limit: int, q: int, r: Option<int>)
    requires Positive(entries) && Unlimited(entries, side, limit) && q > 0
    requires IsQuote(KeptPrices(Aggregate(entries)), KeptQtys(Aggregate(entries)), q, r)
    ensures var levels := Aggregate(entries);
            var m := Match(entries, side, limit, q);
            if q > ShownDepth(levels) then r == None
            else
              exists i: nat :: i < NUM_LAYERS && i < |levels| && LastPrice(m) == Some(levels[i].price)
                               && (r == LastPrice(m) <==> Legible(levels, i))
  {
    var levels := Aggregate(entries);
    AggregatePositive(entries);
    FieldLimits();
    if q > ShownDepth(levels) {
      if r.Some? {
        var i: nat :| i < NUM_LAYERS && StopsAt(KeptQtys(levels), q, i);
        DecodedStop(levels, q, i);
        StopWithinShown(levels, q, i);
      }
    } else {
      var i := StopExists(Qtys(levels), q, if |levels| < NUM_LAYERS then |levels| else NUM_LAYERS);
      PriceReachedAt(levels, q, i);
      MatchReaches(entries, side, limit, q);
      DecodedStop(levels, q, i);
      QuoteAtStop(levels, q, r, i);
    }
  }

  lemma QuoteAtStop(levels: seq<Level>, q: int, r: Option<int>, i: nat)
    requires LevelsPositive(levels) && q > 0
    requires IsQuote(KeptPrices(levels), KeptQtys(levels), q, r)
    requires i < NUM_LAYERS && StopsAt(Qtys(levels), q, i)
    ensures r == Some(levels[i].price) <==> Legible(levels, i)
  {
    FieldLimits();
    DecodedStop(levels, q, i);
    if r.Some? {
      var k: nat :| k < NUM_LAYERS && StopsAt(KeptQtys(levels), q, k) && r.value == KeptPrices(levels)[k];
      DecodedStop(levels, q, k);
      if k < i {
        StopIsUnique(Qtys(levels), q, k, i);
      } else if i < k {
        StopIsUnique(Qtys(levels), q, i, k);
      }
    }
  }

  // ---- From the engine's book to the client's quote ----

  function ShownPrices(v: Orderbook, side: Side): seq<int> {
    if side == Buy then v.bidPrice else v.askPrice
  }

  function ShownQtys(v: Orderbook, side: Side): seq<int> {
    if side == Buy then v.bidQty else v.askQty
  }

  lemma DecodedSide(b: Book, v: Orderbook, side: Side)
    requires IsParsed(Snapshot(b), v)
    ensures ShownPrices(v, side) == KeptPrices(Aggregate(b.On(side)))
    ensures ShownQtys(v, side) == KeptQtys(Aggregate(b.On(side)))
  {
    PacketRoundTrip(Aggregate(b.bids), Aggregate(b.asks), v);
  }

  /** An order priced so that every resting order of the other side is good enough for it. */
  ghost predicate TakesAnything(b: Book, o: OrderPacket) {
    Tradable(o) && Unlimited(b.On(Opposite(o.side)), o.side, o.price)
  }

  /**
   * On every book of the shape that all reachable books have: encode it, decode the packet, walk the
   * decoded depth for q. The result is empty when the five shown levels hold less than q. Otherwise the
   * true answer, the price of the last fill such an order would get from the engine, is the price of
   * one of the shown levels, and the walk finds it exactly when that level's price and the quantities
   * up to it fit their fields.
   */
  lemma PublishedDepthIsTrue(b: Book, o: OrderPacket, v: Orderbook, r: Option<int>)
    requires WellFormed(b) && TakesAnything(b, o) && IsParsed(Snapshot(b), v)
    requires IsQuote(ShownPrices(v, Opposite(o.side)), ShownQtys(v, Opposite(o.side)), o.qty, r)
    ensures var levels := Aggregate(b.On(Opposite(o.side)));
            var truth := LastPrice(MatchFor(b, o));
            if o.qty > ShownDepth(levels) then r == None
            else
              exists i: nat :: i < NUM_LAYERS && i < |levels| && truth == Some(levels[i].price)
                               && (r == truth <==> Legible(levels, i))
  {
    DecodedSide(b, v, Opposite(o.side));
    QuoteIsLastFill(b.On(Opposite(o.side)), o.side, o.price, o.qty, r);
  }

  /** In range, the decoded prices of a side are strictly ordered, best first. */
  lemma DecodedPricesOrdered(b: Book, v: Orderbook, side: Side, i: nat, j: nat)
    requires WellFormed(b) && IsParsed(Snapshot(b), v) && i < j < NUM_LAYERS
    requires ShownPrices(v, side)[i] > 0 && ShownPrices(v, side)[j] > 0
    ensures Better(side, ShownPrices(v, side)[i], ShownPrices(v, side)[j])
  {
    DecodedSide(b, v, side);
    AggregateSorted(side, b.On(side));
  }

  /** Every bid level is below every ask level. */
  lemma LevelsApart(b: Book, i: nat, j: nat)
    requires WellFormed(b) && i < |Aggregate(b.bids)| && j < |Aggregate(b.asks)|
    ensures 0 < Aggregate(b.bids)[i].price < Aggregate(b.asks)[j].price
  {
    var bids, asks := Aggregate(b.bids), Aggregate(b.asks);
    AggregatePositive(b.bids);
    AggregatePrices(b.bids);
    AggregatePrices(b.asks);
    var x :| 0 <= x < |b.bids| && b.bids[x].price == bids[i].price;
    var y :| 0 <= y < |b.asks| && b.asks[y].price == asks[j].price;
    assert !Crosses(Buy, b.bids[x].price, b.asks[y].price);
  }

  /** A decoded ask that is not blank is above every decoded bid. */
  lemma DecodedSidesApart(b: Book, v: Orderbook, i: nat, j: nat)
    requires WellFormed(b) && IsParsed(Snapshot(b), v) && i < NUM_LAYERS && j < NUM_LAYERS
    requires v.askPrice[j] > 0
    ensures v.bidPrice[i] < v.askPrice[j]
  {
    DecodedSide(b, v, Buy);
    DecodedSide(b, v, Sell);
    assert ShownPrices(v, Buy) == v.bidPrice && ShownPrices(v, Sell) == v.askPrice;
    var bids, asks := Aggregate(b.bids), Aggregate(b.asks);
    assert j < |asks| && v.askPrice[j] == asks[j].price;
    if v.bidPrice[i] > 0 {
      assert i < |bids| && v.bidPrice[i] == bids[i].price;
      LevelsApart(b, i, j);
    }
  }

  /** A walk has one answer, and so has a quote. */
  lemma QuoteIsUnique(price: seq<int>, qty: seq<int>, q: int, r: Option<int>, t: Option<int>)
    requires |price| == |qty| && IsQuote(price, qty, q, r) && IsQuote(price, qty, q, t)
    ensures r == t
  {
    if r.Some? && t.Some? {
      var i: nat :| i < |price| && StopsAt(qty, q, i) && r.value == price[i];
      var j: nat :| j < |price| && StopsAt(qty, q, j) && t.value == price[j];
      if i < j {
        StopIsUnique(qty, q, i, j);
      } else if j < i {
        StopIsUnique(qty, q, j, i);
      }
    }
  }

  lemma BestPriceIsUnique(v: Orderbook, q: int, n: int, r: Option<BestPrice>, t: Option<BestPrice>)
    requires |v.bidPrice| == |v.bidQty| && |v.askPrice| == |v.askQty|
    requires IsBestPrice(v, q, n, r) && IsBestPrice(v, q, n, t)
    ensures r == t
  {
    hide IsQuote;
    forall a: Option<int>, c: Option<int> | IsQuote(v.bidPrice, v.bidQty, q, a) && IsQuote(v.bidPrice, v.bidQty, q, c)
      ensures a == c
    {
      QuoteIsUnique(v.bidPrice, v.bidQty, q, a, c);
    }
    forall a: Option<int>, c: Option<int> | IsQuote(v.askPrice, v.askQty, q, a) && IsQuote(v.askPrice, v.askQty, q, c)
      ensures a == c
    {
      QuoteIsUnique(v.askPrice, v.askQty, q, a, c);
    }
  }

  /** The depth walk for q stops among the shown levels, at i, over quantities that fit their fields. */
  ghost predicate WalksTo(levels: seq<Level>, q: int, i: nat) {
    && i < NUM_LAYERS && i < |levels| && StopsAt(Qtys(levels), q, i)
    && forall k :: 0 <= k <= i ==> levels[k].qty < QTY_LIMIT
  }

  /** The decoded walk of one side, told from the book. */
  lemma DecodedQuote(b: Book, v: Orderbook, side: Side, q: int, r: Option<int>)
    requires WellFormed(b) && IsParsed(Snapshot(b), v)
    requires IsQuote(ShownPrices(v, side), ShownQtys(v, side), q, r)
    ensures var levels := Aggregate(b.On(side));
            && (forall i: nat | WalksTo(levels, q, i) :: r == Some(Kept(PRICE_LEN, levels[i].price)))
            && (r.Some? ==> exists i: nat :: WalksTo(levels, q, i))
  {
    hide Snapshot, Encode, IsParsed, Kept;
    var levels := Aggregate(b.On(side));
    DecodedSide(b, v, side);
    AggregatePositive(b.On(side));
    var price, qty := ShownPrices(v, side), ShownQtys(v, side);
    forall i: nat | WalksTo(levels, q, i) ensures r == Some(Kept(PRICE_LEN, levels[i].price)) {
      DecodedStop(levels, q, i);
      assert price[i] == Kept(PRICE_LEN, levels[i].price);
      QuoteIsUnique(price, qty, q, r, Some(price[i]));
    }
    if r.Some? {
      var i: nat :| i < |price| && StopsAt(qty, q, i) && r.value == price[i];
      DecodedStop(levels, q, i);
      assert WalksTo(levels, q, i);
    }
  }

  /**
   * A quote from the decoded book, each price moved n >= 0 away from the other, told from the book. There
   * is one exactly when both walks stop among shown levels over legible quantities; it has its bid below
   * its ask exactly when the ask level's price fits its field, or the price read for the bid is below 2n.
   */
  lemma QuoteIsNotCrossed(b: Book, v: Orderbook, q: int, n: nat, r: Option<BestPrice>)
    requires WellFormed(b) && IsParsed(Snapshot(b), v) && IsBestPrice(v, q, n, r)
    ensures var bids, asks := Aggregate(b.bids), Aggregate(b.asks);
            && (r.Some? <==> exists i: nat, j: nat :: WalksTo(bids, q, i) && WalksTo(asks, q, j))
            && (forall i: nat, j: nat | r.Some? && WalksTo(bids, q, i) && WalksTo(asks, q, j) ::
                  r.value.bidPrice < r.value.askPrice <==>
                  asks[j].price < PRICE_LIMIT || Kept(PRICE_LEN, bids[i].price) < 2 * n)
  {
    hide Snapshot, IsParsed, IsQuote, StopsAt, Aggregate, WellFormed;
    var bids, asks := Aggregate(b.bids), Aggregate(b.asks);
    assert ShownPrices(v, Buy) == v.bidPrice && ShownPrices(v, Sell) == v.askPrice;
    assert ShownQtys(v, Buy) == v.bidQty && ShownQtys(v, Sell) == v.askQty;
    if r.Some? {
      DecodedQuote(b, v, Buy, q, Some(r.value.bidPrice + n));
      DecodedQuote(b, v, Sell, q, Some(r.value.askPrice - n));
      forall i: nat, j: nat | WalksTo(bids, q, i) && WalksTo(asks, q, j)
        ensures r.value.bidPrice < r.value.askPrice <==>
                asks[j].price < PRICE_LIMIT || Kept(PRICE_LEN, bids[i].price) < 2 * n
      {
        LevelsApart(b, i, j);
        FieldLimits();
      }
    } else if IsQuote(v.bidPrice, v.bidQty, q, None) {
      DecodedQuote(b, v, Buy, q, None);
    } else {
      DecodedQuote(b, v, Sell, q, None);
    }
  }

  /** In range: when the shown ask prices fit their fields, no quote is crossed. */
  lemma InRangeIsNotCrossed(b: Book, v: Orderbook, q: int, n: nat, r: BestPrice)
    requires WellFormed(b) && IsParsed(Snapshot(b), v) && IsBestPrice(v, q, n, Some(r))
    requires forall j :: 0 <= j < |Aggregate(b.asks)| && j < NUM_LAYERS ==> Aggregate(b.asks)[j].price < PRICE_LIMIT
    ensures r.bidPrice < r.askPrice
  {
    hide Snapshot, IsParsed, IsBestPrice, StopsAt, Aggregate, WellFormed;
    var bids, asks := Aggregate(b.bids), Aggregate(b.asks);
    QuoteIsNotCrossed(b, v, q, n, Some(r));
    var i: nat, j: nat :| WalksTo(bids, q, i) && WalksTo(asks, q, j);
  }

  /** The price of the last fill that an order of size q on `side`, unlimited in price, would get. */
  function Worth(b: Book, side: Side, q: int, limit: int): Option<int> {
    LastPrice(Match(b.On(Opposite(side)), side, limit, q))
  }

  /**
   * A quote told from the engine: where the two walks' prices fit their fields, the quoted bid is what a
   * seller of q would last be paid, less n, and the quoted ask what a buyer of q would last pay, plus n.
   */
  lemma QuoteFromEngine(b: Book, v: Orderbook, q: int, n: int, low: int, high: int, r: BestPrice)
    requires WellFormed(b) && IsParsed(Snapshot(b), v) && q > 0 && IsBestPrice(v, q, n, Some(r))
    requires Unlimited(b.bids, Sell, low) && Unlimited(b.asks, Buy, high)
    ensures Worth(b, Sell, q, low).Some? && Worth(b, Buy, q, high).Some?
    ensures Worth(b, Sell, q, low).value < PRICE_LIMIT ==> r.bidPrice == Worth(b, Sell, q, low).value - n
    ensures Worth(b, Buy, q, high).value < PRICE_LIMIT ==> r.askPrice == Worth(b, Buy, q, high).value + n
  {
    hide Snapshot, IsParsed, Encode;
    WorthFromEngine(b, v, Buy, Sell, low, q, r.bidPrice + n);
    WorthFromEngine(b, v, Sell, Buy, high, q, r.askPrice - n);
  }

  lemma WorthFromEngine(b: Book, v: Orderbook, shown: Side, taker: Side, limit: int, q: int, price: int)
    requires WellFormed(b) && IsParsed(Snapshot(b), v) && q > 0 && shown == Opposite(taker)
    requires Unlimited(b.On(shown), taker, limit)
    requires IsQuote(ShownPrices(v, shown), ShownQtys(v, shown), q, Some(price))
    ensures Worth(b, taker, q, limit).Some?
    ensures Worth(b, taker, q, limit).value < PRICE_LIMIT ==> price == Worth(b, taker, q, limit).value
  {
    hide Snapshot, IsParsed, Encode, IsQuote;
    var levels := Aggregate(b.On(shown));
    DecodedQuote(b, v, shown, q, Some(price));
    var i: nat :| WalksTo(levels, q, i);
    AggregatePositive(b.On(shown));
    PriceReachedAt(levels, q, i);
    MatchReaches(b.On(shown), taker, limit, q);
    FieldLimits();
  }

  /** Asked for nothing, a side shows its best price, if it has any. */
  lemma QuoteForNothing(price: seq<int>, qty: seq<int>, q: int, r: Option<int>)
    requires |price| == |qty| == NUM_LAYERS && q <= 0 && IsQuote(price, qty, q, r)
    ensures r == if qty[0] > 0 then Some(price[0]) else None
  {
    assert Total(qty[..1]) == qty[0] by { assert qty[..1][..0] == []; }
    if qty[0] > 0 {
      assert StopsAt(qty, q, 0);
      QuoteIsUnique(price, qty, q, r, Some(price[0]));
    }
  }
}
