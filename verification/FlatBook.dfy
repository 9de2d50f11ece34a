/** The reference engine: each side of the book is one list in price-then-arrival order. */
module FlatBook {
  import opened Protocol

  datatype Entry = Entry(price: int, clientId: int, qty: int, seqNo: int)

  datatype Book = Book(bids: seq<Entry>, asks: seq<Entry>) {
    function On(side: Side): seq<Entry> {
      if side == Buy then bids else asks
    }

    function With(side: Side, entries: seq<Entry>): Book {
      if side == Buy then this.(bids := entries) else this.(asks := entries)
    }
  }

  const EMPTY_BOOK := Book([], [])

  /** On `side`, price p is served strictly before price q. */
  predicate Better(side: Side, p: int, q: int) {
    if side == Buy then p > q else p < q
  }

  /** A taker on `side` with limit `limit` may trade at a resting price. */
  predicate Crosses(side: Side, limit: int, restPrice: int) {
    if side == Buy then restPrice <= limit else restPrice >= limit
  }

  function Min(a: int, b: int): int {
    if a < b then a else b
  }

  /** One execution: the maker as it stood just before, and the quantity taken from it. */
  datatype Fill = Fill(maker: Entry, qty: int)

  datatype MatchOut = MatchOut(rest: seq<Entry>, fills: seq<Fill>, left: int)

  /** Serve the list from its head while it crosses and quantity remains. */
  function Match(entries: seq<Entry>, side: Side, limit: int, qty: int): MatchOut {
    if qty <= 0 || entries == [] || !Crosses(side, limit, entries[0].price) then
      MatchOut(entries, [], qty)
    else
      var head := entries[0];
      if qty < head.qty then
        MatchOut([head.(qty := head.qty - qty)] + entries[1..], [Fill(head, qty)], 0)
      else
        var tail := Match(entries[1..], side, limit, qty - head.qty);
        MatchOut(tail.rest, [Fill(head, head.qty)] + tail.fills, tail.left)
  }

  /** Quantity m taken from the head, and then what the rest gives. */
  function After(head: Entry, m: int, next: MatchOut): MatchOut {
    MatchOut(next.rest, [Fill(head, m)] + next.fills, next.left)
  }

  /** One turn of the matching loop: the head gives the smaller quantity and leaves the list at zero. */
  lemma MatchStep(entries: seq<Entry>, side: Side, limit: int, qty: int)
    requires qty > 0 && entries != [] && Crosses(side, limit, entries[0].price)
    ensures var head := entries[0];
            var m := Min(qty, head.qty);
            var next := if head.qty == m then entries[1..] else [head.(qty := head.qty - m)] + entries[1..];
            Match(entries, side, limit, qty) == After(head, m, Match(next, side, limit, qty - m))
  {
  }

  lemma {:induction false} MatchLeftNonNegative(entries: seq<Entry>, side: Side, limit: int, qty: int)
    requires qty >= 0
    ensures Match(entries, side, limit, qty).left >= 0
  {
    if qty > 0 && entries != [] && Crosses(side, limit, entries[0].price) && qty >= entries[0].qty {
      MatchLeftNonNegative(entries[1..], side, limit, qty - entries[0].qty);
    }
  }

  /** Every execution is reported to the taker first and to the maker second. */
  function FillResults(clientId: int, seqNo: int, side: Side, fills: seq<Fill>): seq<OrderResult> {
    if fills == [] then []
    else
      [OrderResult(clientId, Success, side, fills[0].maker.price, fills[0].qty, seqNo),
       OrderResult(fills[0].maker.clientId, Success, Opposite(side), fills[0].maker.price,
                   fills[0].qty, fills[0].maker.seqNo)]
      + FillResults(clientId, seqNo, side, fills[1..])
  }

  lemma FillResultsFirst(clientId: int, seqNo: int, side: Side, fills: seq<Fill>)
    requires fills != []
    ensures var f := fills[0];
            var taker := OrderResult(clientId, Success, side, f.maker.price, f.qty, seqNo);
            var maker := OrderResult(f.maker.clientId, Success, Opposite(side), f.maker.price, f.qty, f.maker.seqNo);
            FillResults(clientId, seqNo, side, fills)
            == [taker] + ([maker] + FillResults(clientId, seqNo, side, fills[1..]))
  {
  }

  /** Queue behind every entry at the same or a better price. */
  function Insert(entries: seq<Entry>, side: Side, e: Entry): seq<Entry> {
    if entries == [] || Better(side, e.price, entries[0].price) then [e] + entries
    else [entries[0]] + Insert(entries[1..], side, e)
  }

  predicate IsAt(e: Entry, price: int, clientId: int) {
    e.price == price && e.clientId == clientId
  }

  predicate Has(entries: seq<Entry>, price: int, clientId: int) {
    exists e <- entries :: IsAt(e, price, clientId)
  }

  lemma HasFirst(entries: seq<Entry>, price: int, clientId: int)
    requires entries != []
    ensures Has(entries, price, clientId) <==>
            IsAt(entries[0], price, clientId) || Has(entries[1..], price, clientId)
  {
  }

  /** Drop the client's oldest entry at that price, if there is one. */
  function Remove(entries: seq<Entry>, price: int, clientId: int): seq<Entry> {
    if entries == [] then []
    else if IsAt(entries[0], price, clientId) then entries[1..]
    else [entries[0]] + Remove(entries[1..], price, clientId)
  }

  datatype PushOut = PushOut(book: Book, results: seq<OrderResult>, dirty: bool)

  /** An order that reaches the matching loop. */
  predicate Tradable(o: OrderPacket) {
    o.qty > 0 && o.price > 0
  }

  function MatchFor(b: Book, o: OrderPacket): MatchOut {
    Match(b.On(Opposite(o.side)), o.side, o.price, o.qty)
  }

  function Push(b: Book, clientId: int, o: OrderPacket): PushOut {
    if o.qty == 0 then
      if Has(b.On(o.side), o.price, clientId) then
        PushOut(b.With(o.side, Remove(b.On(o.side), o.price, clientId)),
                [OrderResult(clientId, Cancelled, o.side, o.price, 0, o.seqNo)], true)
      else
        PushOut(b, [OrderResult(clientId, Reject, o.side, o.price, 0, o.seqNo)], false)
    else if !Tradable(o) then
      PushOut(b, [OrderResult(clientId, Reject, o.side, o.price, 0, o.seqNo)], false)
    else
      var m := MatchFor(b, o);
      var matched := b.With(Opposite(o.side), m.rest);
      var fills := FillResults(clientId, o.seqNo, o.side, m.fills);
      if m.left > 0 then
        var e := Entry(o.price, clientId, m.left, o.seqNo);
        PushOut(matched.With(o.side, Insert(b.On(o.side), o.side, e)),
                fills + [OrderResult(clientId, Accepted, o.side, o.price, m.left, o.seqNo)], true)
      else
        PushOut(matched, fills, m.fills != [])
  }

  /** The two sides an order proper leaves behind. */
  lemma TradeBook(b: Book, clientId: int, o: OrderPacket)
    requires Tradable(o)
    ensures var after := Push(b, clientId, o).book;
            var m := MatchFor(b, o);
            && after.On(Opposite(o.side)) == m.rest
            && after.On(o.side) == if m.left > 0 then
                 Insert(b.On(o.side), o.side, Entry(o.price, clientId, m.left, o.seqNo))
               else b.On(o.side)
  {
  }

  /** The book and the reports after a whole sequence of inputs. */
  function Replay(b: Book, ins: seq<Input>): Book {
    if ins == [] then b
    else
      var last := ins[|ins| - 1];
      Push(Replay(b, ins[..|ins| - 1]), last.clientId, last.order).book
  }

  function ReplayResults(b: Book, ins: seq<Input>): seq<OrderResult> {
    if ins == [] then []
    else
      var last := ins[|ins| - 1];
      ReplayResults(b, ins[..|ins| - 1])
      + Push(Replay(b, ins[..|ins| - 1]), last.clientId, last.order).results
  }
}
