/** The quoting strategy: how far into the published depth a quantity reaches. */
module Strategy {
  import opened Protocol
  import opened Codec

  function Total(s: seq<int>): int {
    if s == [] then 0 else Total(s[..|s| - 1]) + s[|s| - 1]
  }

  /** Level i is where the walk stops: all levels so far show quantity, and q is reached here first. */
  ghost predicate StopsAt(qty: seq<int>, q: int, i: nat) {
    && i < |qty|
    && (forall j :: 0 <= j <= i ==> qty[j] > 0)
    && q <= Total(qty[..i + 1])
    && (i > 0 ==> Total(qty[..i]) < q)
  }

  /** The price of the level where the walk stops, or nothing when it stops at none. */
  ghost predicate IsQuote(price: seq<int>, qty: seq<int>, q: int, r: Option<int>) {
    match r
    case Some(p) => exists i: nat :: i < |price| && StopsAt(qty, q, i) && p == price[i]
    case None => forall i: nat :: !StopsAt(qty, q, i)
  }

  method BestSidePrice(price: seq<int>, qty: seq<int>, q: int) returns (r: Option<int>)
    requires |price| == |qty| == NUM_LAYERS
    ensures IsQuote(price, qty, q, r)
  {
    if qty[0] <= 0 {
      return None;
    }
    if q <= 0 {
      assert Total(qty[..1]) == qty[0] by { assert qty[..1][..0] == []; }
      assert StopsAt(qty, q, 0);
      return Some(price[0]);
    }
    var sum := 0;
    for i := 0 to NUM_LAYERS
      invariant sum == Total(qty[..i]) && (i > 0 ==> sum < q)
      invariant forall j :: 0 <= j < i ==> qty[j] > 0
      invariant forall j: nat | j < i :: !StopsAt(qty, q, j)
    {
      if qty[i] <= 0 {
        return None;
      }
      assert qty[..i + 1][..i] == qty[..i];
      sum := sum + qty[i];
      if sum >= q {
        assert StopsAt(qty, q, i);
        return Some(price[i]);
      }
    }
    return None;
  }

  datatype BestPrice = BestPrice(bidPrice: int, askPrice: int)

  /** A quote takes both sides' prices and moves n away from each; it needs both to exist. */
  ghost predicate IsBestPrice(v: Orderbook, q: int, n: int, r: Option<BestPrice>) {
    match r
    case Some(p) =>
      IsQuote(v.bidPrice, v.bidQty, q, Some(p.bidPrice + n)) && IsQuote(v.askPrice, v.askQty, q, Some(p.askPrice - n))
    case None =>
      IsQuote(v.bidPrice, v.bidQty, q, None) || IsQuote(v.askPrice, v.askQty, q, None)
  }

  method CalcBestPrice(v: Orderbook, q: int, n: int) returns (r: Option<BestPrice>)
    requires |v.bidPrice| == |v.bidQty| == |v.askPrice| == |v.askQty| == NUM_LAYERS
    ensures IsBestPrice(v, q, n, r)
  {
    var bestBid := BestSidePrice(v.bidPrice, v.bidQty, q);
    var bestAsk := BestSidePrice(v.askPrice, v.askQty, q);
    if bestBid.None? || bestAsk.None? {
      return None;
    }
    return Some(BestPrice(bestBid.value - n, bestAsk.value + n));
  }
}
