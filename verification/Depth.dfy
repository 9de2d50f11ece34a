/** The depth view of a side: one level per price, quantities summed. */
module Depth {
  import opened Protocol
  import opened FlatBook
  import opened LevelMaps
  import opened Codec

  function Aggregate(entries: seq<Entry>): (r: seq<Level>)
    ensures entries == [] <==> r == []
    ensures entries != [] ==> r[0].price == entries[0].price
  {
    if entries == [] then []
    else
      var head := entries[0];
      var tail := Aggregate(entries[1..]);
      if tail != [] && tail[0].price == head.price then
        [Level(head.price, head.qty + tail[0].qty)] + tail[1..]
      else
        [Level(head.price, head.qty)] + tail
  }

  /** The packet the engine publishes for a book. */
  function Snapshot(b: Book): Packet {
    Encode(Aggregate(b.bids), Aggregate(b.asks))
  }

  function SumQty(fifo: seq<RestingOrder>): int {
    if fifo == [] then 0 else SumQty(fifo[..|fifo| - 1]) + fifo[|fifo| - 1].qty
  }

  lemma {:induction false} SumQtyFront(fifo: seq<RestingOrder>)
    requires fifo != []
    ensures SumQty(fifo) == fifo[0].qty + SumQty(fifo[1..])
  {
    var n := |fifo| - 1;
    if n == 0 {
      assert fifo[..0] == [] && fifo[1..] == [];
    } else {
      SumQtyFront(fifo[..n]);
      assert fifo[..n][1..] == fifo[1..][..n - 1];
    }
  }

  /** A whole FIFO in front of other prices is one level with the summed quantity. */
  lemma {:induction false} AggregateLevel(price: int, fifo: seq<RestingOrder>, tail: seq<Entry>)
    requires fifo != []
    requires tail != [] ==> tail[0].price != price
    ensures Aggregate(At(price, fifo) + tail) == [Level(price, SumQty(fifo))] + Aggregate(tail)
  {
    var all := At(price, fifo) + tail;
    SumQtyFront(fifo);
    assert all[1..] == At(price, fifo[1..]) + tail;
    if |fifo| == 1 {
      assert all[1..] == tail;
      assert fifo[1..] == [];
    } else {
      AggregateLevel(price, fifo[1..], tail);
    }
  }

  /** Iterating a map in order lists the levels of its flat list. */
  lemma AggregateMap(side: Side, m: Levels)
    requires m != map[] && NoEmptyLevel(m)
    ensures var p := Best(side, m);
            Aggregate(Flatten(side, m)) == [Level(p, SumQty(m[p]))] + Aggregate(Flatten(side, m - {p}))
  {
    var p := Best(side, m);
    var tail := Flatten(side, m - {p});
    FlattenPrices(side, m - {p});
    assert tail != [] ==> tail[0] in tail;
    AggregateLevel(p, m[p], tail);
  }
}
