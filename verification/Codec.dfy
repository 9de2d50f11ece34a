/** The 94-byte order book packet: fixed-width decimal fields, five levels a side. */
module Codec {
  import opened Protocol

  type Byte = x: int | 0 <= x < 256

  const BLANK: Byte := 32
  const MINUS: Byte := 45
  const ZERO: Byte := 48
  const TICKER: seq<Byte> := [54, 56, 48, 32]

  type Packet = p: seq<Byte> | |p| == ORDER_BOOK_SIZE witness seq(ORDER_BOOK_SIZE, _ => BLANK)

  datatype Level = Level(price: int, qty: int)

  predicate IsDigit(b: Byte) {
    ZERO <= b < ZERO + 10
  }

  predicate AllDigits(s: seq<Byte>) {
    forall i :: 0 <= i < |s| ==> IsDigit(s[i])
  }

  function Pow10(n: nat): (r: nat)
    ensures r > 0
  {
    if n == 0 then 1 else 10 * Pow10(n - 1)
  }

  /** to_chars for a positive number. */
  function Digits(value: int): (r: seq<Byte>)
    requires value > 0
    ensures r != [] && AllDigits(r)
    decreases value
  {
    var last := ZERO + value % 10;
    if value < 10 then [last] else Digits(value / 10) + [last]
  }

  function Decimal(digits: seq<Byte>): (r: nat)
    requires AllDigits(digits)
  {
    if digits == [] then 0
    else
      var last := digits[|digits| - 1];
      assert IsDigit(last);
      10 * Decimal(digits[..|digits| - 1]) + (last - ZERO)
  }

  function LeadingDigits(s: seq<Byte>): (n: nat)
    ensures n <= |s| && AllDigits(s[..n])
    ensures n < |s| ==> !IsDigit(s[n])
  {
    if s == [] || !IsDigit(s[0]) then 0 else 1 + LeadingDigits(s[1..])
  }

  /** from_chars: an optional sign, then the longest run of digits; no digits leave zero. */
  function GetField(src: seq<Byte>): int {
    var negative := src != [] && src[0] == MINUS;
    var body := if negative then src[1..] else src;
    var value: int := Decimal(body[..LeadingDigits(body)]);
    if negative then -value else value
  }

  function Blanks(n: nat): seq<Byte> {
    seq(n, _ => BLANK)
  }

  /** The text a field of `width` bytes shows for a value: blank when absent or too long. */
  function Field(width: nat, value: int): (r: seq<Byte>)
    ensures |r| == width
  {
    if value <= 0 || |Digits(value)| > width then Blanks(width)
    else Digits(value) + Blanks(width - |Digits(value)|)
  }

  /** What survives a field of `width` decimal places. */
  function Kept(width: nat, value: int): int {
    if 0 < value < Pow10(width) then value else 0
  }

  lemma {:induction false} DecimalOfDigits(value: int)
    requires value > 0
    ensures Decimal(Digits(value)) == value
    decreases value
  {
    if value >= 10 {
      DecimalOfDigits(value / 10);
      assert Digits(value)[..|Digits(value)| - 1] == Digits(value / 10);
    } else {
      var d := Digits(value);
      assert d[..|d| - 1] == [];
      assert Decimal(d) == 10 * Decimal([]) + d[0] - ZERO;
    }
  }

  lemma {:induction false} DigitsFit(value: int, width: nat)
    requires value > 0
    ensures |Digits(value)| <= width <==> value < Pow10(width)
    decreases value
  {
    if width == 0 {
    } else if value < 10 {
      assert Pow10(width) == 10 * Pow10(width - 1);
    } else {
      DigitsFit(value / 10, width - 1);
      assert |Digits(value)| == |Digits(value / 10)| + 1;
      assert Pow10(width) == 10 * Pow10(width - 1);
    }
  }

  lemma {:induction false} LeadingDigitsOf(digits: seq<Byte>, tail: seq<Byte>)
    requires AllDigits(digits)
    requires tail != [] ==> !IsDigit(tail[0])
    ensures LeadingDigits(digits + tail) == |digits|
  {
    if digits == [] {
      assert digits + tail == tail;
    } else {
      assert (digits + tail)[1..] == digits[1..] + tail;
      LeadingDigitsOf(digits[1..], tail);
    }
  }

  /** A field reads back as the value it was given when that fits, and as zero otherwise. */
  lemma FieldRoundTrip(width: nat, value: int)
    ensures GetField(Field(width, value)) == Kept(width, value)
  {
    if value > 0 {
      DigitsFit(value, width);
    }
    if value <= 0 || value >= Pow10(width) {
      var s := Blanks(width);
      assert Field(width, value) == s;
      assert s != [] ==> s[0] == BLANK;
      assert LeadingDigits(s) == 0;
      assert s[..0] == [];
    } else {
      var d := Digits(value);
      var pad := Blanks(width - |d|);
      assert (d + pad)[0] == d[0];
      LeadingDigitsOf(d, pad);
      assert (d + pad)[..|d|] == d;
      DecimalOfDigits(value);
    }
  }

  /** Any text: an optional minus, digits, and then whatever does not go on with a digit. */
  lemma GetFieldReads(negative: bool, digits: seq<Byte>, tail: seq<Byte>)
    requires AllDigits(digits) && (tail != [] ==> !IsDigit(tail[0]))
    requires digits == [] && tail != [] && !negative ==> tail[0] != MINUS
    ensures GetField((if negative then [MINUS] else []) + (digits + tail))
         == (if negative then -1 else 1) * Decimal(digits)
  {
    var text := (if negative then [MINUS] else []) + (digits + tail);
    LeadingDigitsOf(digits, tail);
    assert (digits + tail)[..|digits|] == digits;
    if negative {
      assert text[1..] == digits + tail;
    } else {
      assert text == digits + tail;
      assert text != [] ==> text[0] == if digits == [] then tail[0] else digits[0];
    }
  }

  // ---- What a field looks like ----

  /** The first n bytes are a number without leading zeros that reads as value; the rest are blanks. */
  ghost predicate NumberThenBlanks(text: seq<Byte>, n: nat, value: int) {
    && 0 < n <= |text| && AllDigits(text[..n]) && text[0] != ZERO && Decimal(text[..n]) == value
    && forall k :: n <= k < |text| ==> text[k] == BLANK
  }

  /** A positive number with few enough digits stands at the left of its field; any other leaves it blank. */
  ghost predicate Shows(text: seq<Byte>, value: int) {
    if 0 < value < Pow10(|text|) then exists n: nat :: NumberThenBlanks(text, n, value)
    else forall k :: 0 <= k < |text| ==> text[k] == BLANK
  }

  lemma {:induction false} NoLeadingZero(value: int)
    requires value > 0
    ensures Digits(value)[0] != ZERO
    decreases value
  {
    if value >= 10 {
      NoLeadingZero(value / 10);
    }
  }

  /** A number without leading zeros has one text. */
  lemma {:induction false} DigitsOfDecimal(digits: seq<Byte>)
    requires digits != [] && AllDigits(digits) && digits[0] != ZERO
    ensures Decimal(digits) > 0 && Digits(Decimal(digits)) == digits
  {
    var n := |digits| - 1;
    if n == 0 {
      assert Decimal(digits) == 10 * Decimal([]) + (digits[0] - ZERO) by { assert digits[..0] == []; }
    } else {
      DigitsOfDecimal(digits[..n]);
      var v := Decimal(digits[..n]);
      assert Decimal(digits) == 10 * v + (digits[n] - ZERO);
      assert (10 * v + (digits[n] - ZERO)) / 10 == v;
      assert digits == digits[..n] + [digits[n]];
    }
  }

  /** The text of a field, told without saying how it is made: this text shows the value, and no other does. */
  lemma FieldIffShows(width: nat, value: int, text: seq<Byte>)
    requires |text| == width
    ensures text == Field(width, value) <==> Shows(text, value)
  {
    if 0 < value < Pow10(width) {
      DigitsFit(value, width);
      var d := Digits(value);
      var f := Field(width, value);
      NoLeadingZero(value);
      DecimalOfDigits(value);
      assert f[..|d|] == d;
      assert NumberThenBlanks(f, |d|, value);
      if Shows(text, value) {
        var n: nat :| NumberThenBlanks(text, n, value);
        DigitsOfDecimal(text[..n]);
        assert text == text[..n] + text[n..];
        assert text[n..] == Blanks(width - n);
      }
    } else if value > 0 {
      DigitsFit(value, width);
    }
  }

  // Where each field starts: the ticker, five bid prices, five ask prices, five bid
  // quantities, five ask quantities.

  function BidPriceAt(i: nat): nat { 4 + 5 * i }

  function AskPriceAt(i: nat): nat { 29 + 5 * i }

  function BidQtyAt(i: nat): nat { 54 + 4 * i }

  function AskQtyAt(i: nat): nat { 74 + 4 * i }

  function PriceOf(levels: seq<Level>, i: nat): int {
    if i < |levels| then levels[i].price else 0
  }

  function QtyOf(levels: seq<Level>, i: nat): int {
    if i < |levels| then levels[i].qty else 0
  }

  /** Byte k of the packet that shows the first five levels of each list. */
  function ByteAt(bids: seq<Level>, asks: seq<Level>, k: nat): Byte
    requires k < ORDER_BOOK_SIZE
  {
    if k < 4 then TICKER[k]
    else if k < 29 then
      var i := (k - 4) / 5;
      Field(5, PriceOf(bids, i))[k - BidPriceAt(i)]
    else if k < 54 then
      var i := (k - 29) / 5;
      Field(5, PriceOf(asks, i))[k - AskPriceAt(i)]
    else if k < 74 then
      var i := (k - 54) / 4;
      Field(4, QtyOf(bids, i))[k - BidQtyAt(i)]
    else
      var i := (k - 74) / 4;
      Field(4, QtyOf(asks, i))[k - AskQtyAt(i)]
  }

  function Encode(bids: seq<Level>, asks: seq<Level>): Packet {
    seq(ORDER_BOOK_SIZE, k requires 0 <= k < ORDER_BOOK_SIZE => ByteAt(bids, asks, k))
  }

  /** The four arrays a client reads a packet into. */
  datatype Orderbook =
    Orderbook(bidPrice: seq<int>, bidQty: seq<int>, askPrice: seq<int>, askQty: seq<int>)

  function BidPriceField(p: Packet, i: nat): seq<Byte>
    requires i < NUM_LAYERS
  {
    p[BidPriceAt(i)..BidPriceAt(i) + 5]
  }

  function AskPriceField(p: Packet, i: nat): seq<Byte>
    requires i < NUM_LAYERS
  {
    p[AskPriceAt(i)..AskPriceAt(i) + 5]
  }

  function BidQtyField(p: Packet, i: nat): seq<Byte>
    requires i < NUM_LAYERS
  {
    p[BidQtyAt(i)..BidQtyAt(i) + 4]
  }

  function AskQtyField(p: Packet, i: nat): seq<Byte>
    requires i < NUM_LAYERS
  {
    p[AskQtyAt(i)..AskQtyAt(i) + 4]
  }

  /** The four numbers of one level. */
  datatype Row = Row(bidPrice: int, bidQty: int, askPrice: int, askQty: int)

  function RowAt(p: Packet, i: nat): Row
    requires i < NUM_LAYERS
  {
    Row(GetField(BidPriceField(p, i)), GetField(BidQtyField(p, i)),
        GetField(AskPriceField(p, i)), GetField(AskQtyField(p, i)))
  }

  predicate ShowsRow(v: Orderbook, i: nat, row: Row) {
    && i < |v.bidPrice| && i < |v.bidQty| && i < |v.askPrice| && i < |v.askQty|
    && row == Row(v.bidPrice[i], v.bidQty[i], v.askPrice[i], v.askQty[i])
  }

  /** v is the packet read back: five rows, each from its own fields. */
  predicate IsParsed(p: Packet, v: Orderbook) {
    && |v.bidPrice| == |v.bidQty| == |v.askPrice| == |v.askQty| == NUM_LAYERS
    && forall i :: 0 <= i < NUM_LAYERS ==> ShowsRow(v, i, RowAt(p, i))
  }

  method Parse(p: Packet) returns (v: Orderbook)
    ensures IsParsed(p, v)
  {
    v := Orderbook([], [], [], []);
    for i := 0 to NUM_LAYERS
      invariant |v.bidPrice| == |v.bidQty| == |v.askPrice| == |v.askQty| == i
      invariant forall j :: 0 <= j < i ==> ShowsRow(v, j, RowAt(p, j))
    {
      var row := RowAt(p, i);
      v := Orderbook(v.bidPrice + [row.bidPrice], v.bidQty + [row.bidQty],
                     v.askPrice + [row.askPrice], v.askQty + [row.askQty]);
    }
  }

  /** Write one field of a packet under construction. */
  method PutField(dst: array<Byte>, off: nat, width: nat, value: int, empty: bool)
    requires off + width <= dst.Length
    modifies dst
    ensures forall k :: 0 <= k < off || off + width <= k < dst.Length ==> dst[k] == old(dst[k])
    ensures dst[off..off + width] == Field(width, if empty then 0 else value)
    ensures Shows(dst[off..off + width], if empty then 0 else value)
  {
    FieldIffShows(width, if empty then 0 else value, Field(width, if empty then 0 else value));
    for j := 0 to width
      invariant forall k :: 0 <= k < off || off + width <= k < dst.Length ==> dst[k] == old(dst[k])
      invariant forall k :: off <= k < off + j ==> dst[k] == BLANK
    {
      dst[off + j] := BLANK;
    }
    assert dst[off..off + width] == Blanks(width);
    if empty || value <= 0 {
      return;
    }
    var tmp := Digits(value);
    var n := |tmp|;
    if n > width {
      return;
    }
    for j := 0 to n
      invariant forall k :: 0 <= k < off || off + width <= k < dst.Length ==> dst[k] == old(dst[k])
      invariant forall k :: off <= k < off + j ==> dst[k] == tmp[k - off]
      invariant forall k :: off + j <= k < off + width ==> dst[k] == BLANK
    {
      dst[off + j] := tmp[j];
    }
    assert dst[off..off + width] == tmp + Blanks(width - n);
  }

  // The packet is read back field by field.

  lemma FieldsOfEncoded(bids: seq<Level>, asks: seq<Level>, i: nat)
    requires i < NUM_LAYERS
    ensures BidPriceField(Encode(bids, asks), i) == Field(5, PriceOf(bids, i))
    ensures AskPriceField(Encode(bids, asks), i) == Field(5, PriceOf(asks, i))
    ensures BidQtyField(Encode(bids, asks), i) == Field(4, QtyOf(bids, i))
    ensures AskQtyField(Encode(bids, asks), i) == Field(4, QtyOf(asks, i))
  {
    var p := Encode(bids, asks);
    forall j: nat | j < 5
      ensures p[BidPriceAt(i) + j] == Field(5, PriceOf(bids, i))[j]
      ensures p[AskPriceAt(i) + j] == Field(5, PriceOf(asks, i))[j]
    {
      assert (5 * i + j) / 5 == i;
    }
    forall j: nat | j < 4
      ensures p[BidQtyAt(i) + j] == Field(4, QtyOf(bids, i))[j]
      ensures p[AskQtyAt(i) + j] == Field(4, QtyOf(asks, i))[j]
    {
      assert (4 * i + j) / 4 == i;
    }
  }

  /** The 94 bytes, by their offsets: the ticker, then the numbers of five levels a side, blank beyond the last. */
  ghost predicate Publishes(p: seq<Byte>, bids: seq<Level>, asks: seq<Level>) {
    && |p| == 94 && p[..4] == [54, 56, 48, 32]
    && forall i: nat | i < 5 ::
         && Shows(p[4 + 5 * i..9 + 5 * i], PriceOf(bids, i)) && Shows(p[29 + 5 * i..34 + 5 * i], PriceOf(asks, i))
         && Shows(p[54 + 4 * i..58 + 4 * i], QtyOf(bids, i)) && Shows(p[74 + 4 * i..78 + 4 * i], QtyOf(asks, i))
  }

  lemma EncodePublishes(bids: seq<Level>, asks: seq<Level>)
    ensures Publishes(Encode(bids, asks), bids, asks)
  {
    hide Shows, Field;
    var p := Encode(bids, asks);
    assert p[..4] == [54, 56, 48, 32];
    forall i: nat | i < 5
      ensures Shows(p[4 + 5 * i..9 + 5 * i], PriceOf(bids, i)) && Shows(p[29 + 5 * i..34 + 5 * i], PriceOf(asks, i))
      ensures Shows(p[54 + 4 * i..58 + 4 * i], QtyOf(bids, i)) && Shows(p[74 + 4 * i..78 + 4 * i], QtyOf(asks, i))
    {
      FieldsOfEncoded(bids, asks, i);
      FieldIffShows(5, PriceOf(bids, i), BidPriceField(p, i));
      FieldIffShows(5, PriceOf(asks, i), AskPriceField(p, i));
      FieldIffShows(4, QtyOf(bids, i), BidQtyField(p, i));
      FieldIffShows(4, QtyOf(asks, i), AskQtyField(p, i));
    }
  }

  /** Two packets that agree outside the fields of bid level i. */
  predicate SameButBid(p: seq<Byte>, q: seq<Byte>, i: nat)
    requires |p| == |q| == ORDER_BOOK_SIZE
  {
    forall k | 0 <= k < ORDER_BOOK_SIZE ::
      BidPriceAt(i) <= k < BidPriceAt(i) + 5 || BidQtyAt(i) <= k < BidQtyAt(i) + 4 || p[k] == q[k]
  }

  predicate SameButAsk(p: seq<Byte>, q: seq<Byte>, i: nat)
    requires |p| == |q| == ORDER_BOOK_SIZE
  {
    forall k | 0 <= k < ORDER_BOOK_SIZE ::
      AskPriceAt(i) <= k < AskPriceAt(i) + 5 || AskQtyAt(i) <= k < AskQtyAt(i) + 4 || p[k] == q[k]
  }

  /** Writing the next bid level's two fields shows one more level. */
  lemma EncodeNextBid(p: Packet, q: Packet, bids: seq<Level>, asks: seq<Level>, l: Level)
    requires |bids| < NUM_LAYERS
    requires p == Encode(bids, asks) && SameButBid(p, q, |bids|)
    requires BidPriceField(q, |bids|) == Field(5, l.price) && BidQtyField(q, |bids|) == Field(4, l.qty)
    ensures q == Encode(bids + [l], asks)
  {
    forall k: nat | k < ORDER_BOOK_SIZE
      ensures q[k] == ByteAt(bids + [l], asks, k)
    {
      if 4 <= k < 29 && (k - 4) / 5 == |bids| {
        assert q[k] == BidPriceField(q, |bids|)[k - BidPriceAt(|bids|)];
      } else if 54 <= k < 74 && (k - 54) / 4 == |bids| {
        assert q[k] == BidQtyField(q, |bids|)[k - BidQtyAt(|bids|)];
      } else {
        assert q[k] == p[k] == ByteAt(bids, asks, k);
      }
    }
  }

  lemma EncodeNextAsk(p: Packet, q: Packet, bids: seq<Level>, asks: seq<Level>, l: Level)
    requires |asks| < NUM_LAYERS
    requires p == Encode(bids, asks) && SameButAsk(p, q, |asks|)
    requires AskPriceField(q, |asks|) == Field(5, l.price) && AskQtyField(q, |asks|) == Field(4, l.qty)
    ensures q == Encode(bids, asks + [l])
  {
    forall k: nat | k < ORDER_BOOK_SIZE
      ensures q[k] == ByteAt(bids, asks + [l], k)
    {
      if 29 <= k < 54 && (k - 29) / 5 == |asks| {
        assert q[k] == AskPriceField(q, |asks|)[k - AskPriceAt(|asks|)];
      } else if 74 <= k && (k - 74) / 4 == |asks| {
        assert q[k] == AskQtyField(q, |asks|)[k - AskQtyAt(|asks|)];
      } else {
        assert q[k] == p[k] == ByteAt(bids, asks, k);
      }
    }
  }

  lemma EncodeNothing(p: Packet)
    requires p[0] == TICKER[0] && p[1] == TICKER[1] && p[2] == TICKER[2]
    requires forall k :: 3 <= k < ORDER_BOOK_SIZE ==> p[k] == BLANK
    ensures p == Encode([], [])
  {
  }

  /** What decoding keeps of a list of levels. */
  function KeptPrices(levels: seq<Level>): seq<int> {
    seq(NUM_LAYERS, i requires 0 <= i < NUM_LAYERS => Kept(PRICE_LEN, PriceOf(levels, i)))
  }

  function KeptQtys(levels: seq<Level>): seq<int> {
    seq(NUM_LAYERS, i requires 0 <= i < NUM_LAYERS => Kept(QTY_LEN, QtyOf(levels, i)))
  }

  /** Decoding a packet gives five levels a side, each number kept exactly when its field can hold it. */
  lemma PacketRoundTrip(bids: seq<Level>, asks: seq<Level>, v: Orderbook)
    ensures IsParsed(Encode(bids, asks), v) <==>
            v == Orderbook(KeptPrices(bids), KeptQtys(bids), KeptPrices(asks), KeptQtys(asks))
  {
    var p := Encode(bids, asks);
    forall i: nat | i < NUM_LAYERS
      ensures RowAt(p, i) == Row(KeptPrices(bids)[i], KeptQtys(bids)[i], KeptPrices(asks)[i], KeptQtys(asks)[i])
    {
      FieldsOfEncoded(bids, asks, i);
      FieldRoundTrip(5, PriceOf(bids, i));
      FieldRoundTrip(5, PriceOf(asks, i));
      FieldRoundTrip(4, QtyOf(bids, i));
      FieldRoundTrip(4, QtyOf(asks, i));
    }
    if IsParsed(p, v) {
      forall i: nat | i < NUM_LAYERS
        ensures v.bidPrice[i] == KeptPrices(bids)[i] && v.askPrice[i] == KeptPrices(asks)[i]
        ensures v.bidQty[i] == KeptQtys(bids)[i] && v.askQty[i] == KeptQtys(asks)[i]
      {
        assert ShowsRow(v, i, RowAt(p, i));
      }
      assert v.bidPrice == KeptPrices(bids) && v.askPrice == KeptPrices(asks);
      assert v.bidQty == KeptQtys(bids) && v.askQty == KeptQtys(asks);
    }
  }
}
