/** The records and constants shared by the server and its clients. */
module Protocol {

  datatype Option<+T> = None | Some(value: T)

  datatype Side = Buy | Sell

  function Opposite(side: Side): Side {
    if side == Buy then Sell else Buy
  }

  /** A quantity of zero asks the engine to cancel the sender's order at (side, price). */
  datatype OrderPacket = OrderPacket(side: Side, price: int, qty: int, seqNo: int)

  datatype ResultType = Success | Reject | Cancelled | Accepted

  /** What the engine reports, addressed to one client. */
  datatype OrderResult =
    OrderResult(clientId: int, kind: ResultType, side: Side, price: int, qty: int, seqNo: int)

  /** The same report as it travels on that client's own connection. */
  datatype ResultPacket =
    ResultPacket(kind: ResultType, side: Side, price: int, qty: int, seqNo: int)

  function ToPacket(r: OrderResult): ResultPacket {
    ResultPacket(r.kind, r.side, r.price, r.qty, r.seqNo)
  }

  /** One order handed to the engine thread, with the id of the session it came from. */
  datatype Input = Input(clientId: int, order: OrderPacket)

  const NUM_LAYERS: nat := 5
  const TICKER_LEN: nat := 4
  const PRICE_LEN: nat := 5
  const QTY_LEN: nat := 4
  const ORDER_BOOK_SIZE: nat := 94
  const SEED_MID: int := 100
  const SEED_QTY: int := 50
  const SEED_CLIENT_ID: int := -10
  const MAX_QTY: int := 20

  function Times<T>(x: T, n: nat): (r: seq<T>)
    ensures |r| == n && forall i :: 0 <= i < n ==> r[i] == x
  {
    if n == 0 then [] else Times(x, n - 1) + [x]
  }

  lemma AppendTail<T>(a: seq<T>, b: seq<T>)
    requires a != []
    ensures (a + b)[0] == a[0] && (a + b)[1..] == a[1..] + b
  {
  }

  lemma Cut<T>(s: seq<T>, i: nat)
    requires i < |s|
    ensures s == s[..i] + ([s[i]] + s[i + 1..])
  {
  }

  lemma AppendAssoc<T>(a: seq<T>, b: seq<T>, c: seq<T>)
    ensures a + (b + c) == (a + b) + c
  {
  }

  /** The packets addressed to one client, in order. */
  function Routed(results: seq<OrderResult>, clientId: int): seq<ResultPacket> {
    if results == [] then []
    else
      (if results[0].clientId == clientId then [ToPacket(results[0])] else [])
      + Routed(results[1..], clientId)
  }

  lemma RoutedOne(r: OrderResult, clientId: int)
    ensures Routed([r], clientId) == if r.clientId == clientId then [ToPacket(r)] else []
  {
    assert [r][1..] == [];
  }

  lemma {:induction false} RoutedAppend(a: seq<OrderResult>, b: seq<OrderResult>, clientId: int)
    ensures Routed(a + b, clientId) == Routed(a, clientId) + Routed(b, clientId)
  {
    if a == [] {
      assert a + b == b;
    } else {
      var head := if a[0].clientId == clientId then [ToPacket(a[0])] else [];
      AppendTail(a, b);
      RoutedAppend(a[1..], b, clientId);
      AppendAssoc(head, Routed(a[1..], clientId), Routed(b, clientId));
    }
  }

  lemma {:induction false} RoutedElsewhere(results: seq<OrderResult>, clientId: int)
    requires forall r <- results :: r.clientId != clientId
    ensures Routed(results, clientId) == []
  {
    if results != [] {
      RoutedElsewhere(results[1..], clientId);
    }
  }
}
