/** The engine's storage: a map from price to the FIFO of orders resting there, read best price first. */
module LevelMaps {
  import opened Protocol
  import opened FlatBook

  datatype RestingOrder = RestingOrder(clientId: int, qty: int, seqNo: int)

  type Levels = map<int, seq<RestingOrder>>

  /** The key a map ordered for `side` iterates first. */
  ghost predicate IsBest(side: Side, m: Levels, p: int) {
    p in m && forall k <- m :: !Better(side, k, p)
  }

  lemma Pick<T>(s: set<T>) returns (x: T)
    requires s != {}
    ensures x in s
  {
    x :| x in s;
  }

  lemma {:induction false} BestExists(side: Side, keys: set<int>)
    requires keys != {}
    ensures exists p <- keys :: forall k <- keys :: !Better(side, k, p)
  {
    var x := Pick(keys);
    if keys != {x} {
      var rest := keys - {x};
      assert keys == rest + {x};
      BestExists(side, rest);
      var p :| p in rest && forall k <- rest :: !Better(side, k, p);
      var best := if Better(side, x, p) then x else p;
      assert forall k <- keys :: !Better(side, k, best);
    }
  }

  /** begin() of the ordered map. */
  function Best(side: Side, m: Levels): (p: int)
    requires m != map[]
    ensures IsBest(side, m, p)
  {
    assert exists p <- m :: forall k <- m :: !Better(side, k, p) by {
      assert m.Keys != {};
      BestExists(side, m.Keys);
    }
    var p :| p in m && forall k <- m :: !Better(side, k, p);
    p
  }

  function At(price: int, fifo: seq<RestingOrder>): (r: seq<Entry>)
    ensures |r| == |fifo|
    ensures forall i :: 0 <= i < |fifo| ==> r[i] == Entry(price, fifo[i].clientId, fifo[i].qty, fifo[i].seqNo)
  {
    seq(|fifo|, i requires 0 <= i < |fifo| => Entry(price, fifo[i].clientId, fifo[i].qty, fifo[i].seqNo))
  }

  /** The flat list a map stands for. */
  ghost function Flatten(side: Side, m: Levels): seq<Entry>
    decreases |m|
  {
    if m == map[] then []
    else
      var p := Best(side, m);
      At(p, m[p]) + Flatten(side, m - {p})
  }

  /** No level is empty. */
  ghost predicate NoEmptyLevel(m: Levels) {
    forall p <- m :: m[p] != []
  }

  lemma BestIsUnique(side: Side, m: Levels, p: int)
    requires IsBest(side, m, p)
    ensures m != map[] && Best(side, m) == p
  {
    assert p in m;
  }

  lemma FlattenFirst(side: Side, m: Levels, p: int)
    requires IsBest(side, m, p)
    ensures Flatten(side, m) == At(p, m[p]) + Flatten(side, m - {p})
  {
    BestIsUnique(side, m, p);
  }

  /** Every entry of the flat list stands in the level of its price. */
  lemma {:induction false} FlattenPrices(side: Side, m: Levels)
    ensures forall e <- Flatten(side, m) :: e.price in m
    decreases |m|
  {
    if m != map[] {
      var p := Best(side, m);
      FlattenPrices(side, m - {p});
    }
  }

  /** Replacing the best level replaces the front of the flat list. */
  lemma FlattenReplaceBest(side: Side, m: Levels, p: int, fifo: seq<RestingOrder>)
    requires IsBest(side, m, p)
    ensures Flatten(side, m[p := fifo]) == At(p, fifo) + Flatten(side, m - {p})
  {
    var m' := m[p := fifo];
    assert IsBest(side, m', p);
    FlattenFirst(side, m', p);
    assert m' - {p} == m - {p};
  }

  lemma {:induction false} InsertSkips(prefix: seq<Entry>, tail: seq<Entry>, side: Side, e: Entry)
    requires forall x <- prefix :: !Better(side, e.price, x.price)
    ensures Insert(prefix + tail, side, e) == prefix + Insert(tail, side, e)
  {
    if prefix == [] {
      assert prefix + tail == tail;
    } else {
      assert (prefix + tail)[1..] == prefix[1..] + tail;
      InsertSkips(prefix[1..], tail, side, e);
    }
  }

  function Appended(m: Levels, price: int, ro: RestingOrder): Levels {
    m[price := (if price in m then m[price] else []) + [ro]]
  }

  lemma AppendBefore(side: Side, m: Levels, price: int, ro: RestingOrder)
    requires m == map[] || Better(side, price, Best(side, m))
    requires NoEmptyLevel(m)
    ensures Flatten(side, Appended(m, price, ro))
         == [Entry(price, ro.clientId, ro.qty, ro.seqNo)] + Flatten(side, m)
  {
    var m' := Appended(m, price, ro);
    assert price !in m;
    assert IsBest(side, m', price);
    FlattenFirst(side, m', price);
    assert m' - {price} == m;
    assert At(price, [ro]) == [Entry(price, ro.clientId, ro.qty, ro.seqNo)];
  }

  /** Behind a level of its own price, in front of everything after that level. */
  lemma InsertBehind(level: seq<Entry>, tail: seq<Entry>, side: Side, e: Entry)
    requires forall x <- level :: x.price == e.price
    requires forall x <- tail :: Better(side, e.price, x.price)
    ensures Insert(level + tail, side, e) == (level + [e]) + tail
  {
    InsertSkips(level, tail, side, e);
    assert tail != [] ==> tail[0] in tail;
    assert Insert(tail, side, e) == [e] + tail;
    assert level + ([e] + tail) == (level + [e]) + tail;
  }

  lemma AppendAtBest(side: Side, m: Levels, price: int, ro: RestingOrder)
    requires IsBest(side, m, price)
    ensures Flatten(side, Appended(m, price, ro))
         == Insert(Flatten(side, m), side, Entry(price, ro.clientId, ro.qty, ro.seqNo))
  {
    var e := Entry(price, ro.clientId, ro.qty, ro.seqNo);
    var level := At(price, m[price]);
    FlattenReplaceBest(side, m, price, m[price] + [ro]);
    assert At(price, m[price] + [ro]) == level + [e];
    FlattenPrices(side, m - {price});
    FlattenFirst(side, m, price);
    InsertBehind(level, Flatten(side, m - {price}), side, e);
  }

  /** push_back on the level of a price is insertion into the flat list. */
  lemma {:induction false} FlattenAppend(side: Side, m: Levels, price: int, ro: RestingOrder)
    requires NoEmptyLevel(m)
    ensures Flatten(side, Appended(m, price, ro))
         == Insert(Flatten(side, m), side, Entry(price, ro.clientId, ro.qty, ro.seqNo))
    decreases |m|
  {
    var e := Entry(price, ro.clientId, ro.qty, ro.seqNo);
    if m == map[] {
      AppendBefore(side, m, price, ro);
    } else if Better(side, price, Best(side, m)) {
      AppendBefore(side, m, price, ro);
      var p := Best(side, m);
      assert m[p] != [];
      assert Flatten(side, m)[0] == At(p, m[p])[0];
    } else if price == Best(side, m) {
      AppendAtBest(side, m, price, ro);
    } else {
      var p := Best(side, m);
      var rest := m - {p};
      FlattenAppend(side, rest, price, ro);
      AppendKeepsBest(side, m, price, ro, p);
      InsertSkips(At(p, m[p]), Flatten(side, rest), side, e);
    }
  }

  lemma AppendKeepsBest(side: Side, m: Levels, price: int, ro: RestingOrder, p: int)
    requires IsBest(side, m, p) && price != p && !Better(side, price, p)
    ensures Flatten(side, Appended(m, price, ro)) == At(p, m[p]) + Flatten(side, Appended(m - {p}, price, ro))
  {
    var m' := Appended(m, price, ro);
    assert IsBest(side, m', p);
    FlattenFirst(side, m', p);
    assert m' - {p} == Appended(m - {p}, price, ro);
  }

  /** find(price), erase one position, and erase the level when that empties it. */
  function Erased(m: Levels, price: int, i: nat): Levels
    requires price in m && i < |m[price]|
  {
    var fifo := m[price][..i] + m[price][i + 1..];
    if fifo == [] then m - {price} else m[price := fifo]
  }

  lemma {:induction false} RemoveSkips(prefix: seq<Entry>, tail: seq<Entry>, price: int, clientId: int)
    requires forall x <- prefix :: !IsAt(x, price, clientId)
    ensures Remove(prefix + tail, price, clientId) == prefix + Remove(tail, price, clientId)
    ensures Has(prefix + tail, price, clientId) == Has(tail, price, clientId)
  {
    assert Has(tail, price, clientId) ==> Has(prefix + tail, price, clientId) by {
      forall e <- tail ensures e in prefix + tail {}
    }
    if prefix == [] {
      assert prefix + tail == tail;
    } else {
      assert (prefix + tail)[1..] == prefix[1..] + tail;
      RemoveSkips(prefix[1..], tail, price, clientId);
    }
  }

  /** Within one level: erasing the client's first position removes its first entry. */
  lemma RemoveWithin(level: seq<Entry>, tail: seq<Entry>, i: nat, price: int, clientId: int)
    requires i < |level| && IsAt(level[i], price, clientId)
    requires forall j :: 0 <= j < i ==> !IsAt(level[j], price, clientId)
    ensures Has(level + tail, price, clientId)
    ensures Remove(level + tail, price, clientId) == (level[..i] + level[i + 1..]) + tail
  {
    var after := [level[i]] + (level[i + 1..] + tail);
    assert level + tail == level[..i] + after;
    assert after[0] in after;
    RemoveSkips(level[..i], after, price, clientId);
    assert after[1..] == level[i + 1..] + tail;
  }

  lemma EraseAtBest(side: Side, m: Levels, p: int, i: nat)
    requires IsBest(side, m, p) && i < |m[p]|
    ensures Flatten(side, Erased(m, p, i))
         == (At(p, m[p])[..i] + At(p, m[p])[i + 1..]) + Flatten(side, m - {p})
  {
    var fifo := m[p][..i] + m[p][i + 1..];
    assert At(p, fifo) == At(p, m[p])[..i] + At(p, m[p])[i + 1..];
    if fifo != [] {
      FlattenReplaceBest(side, m, p, fifo);
    }
  }

  lemma EraseKeepsBest(side: Side, m: Levels, price: int, i: nat, p: int)
    requires IsBest(side, m, p) && price != p && price in m && i < |m[price]|
    ensures Flatten(side, Erased(m, price, i)) == At(p, m[p]) + Flatten(side, Erased(m - {p}, price, i))
  {
    var m' := Erased(m, price, i);
    assert IsBest(side, m', p);
    FlattenFirst(side, m', p);
    assert m' - {p} == Erased(m - {p}, price, i);
  }

  /** Erasing the client's first order of a level is removal from the flat list. */
  lemma {:induction false} FlattenErase(side: Side, m: Levels, price: int, i: nat)
    requires price in m && i < |m[price]|
    requires forall j :: 0 <= j < i ==> m[price][j].clientId != m[price][i].clientId
    ensures Has(Flatten(side, m), price, m[price][i].clientId)
    ensures Flatten(side, Erased(m, price, i)) == Remove(Flatten(side, m), price, m[price][i].clientId)
    decreases |m|
  {
    var id := m[price][i].clientId;
    var p := Best(side, m);
    var level := At(p, m[p]);
    var tail := Flatten(side, m - {p});
    if price == p {
      EraseAtBest(side, m, p, i);
      RemoveWithin(level, tail, i, price, id);
    } else {
      EraseKeepsBest(side, m, price, i, p);
      FlattenErase(side, m - {p}, price, i);
      RemoveSkips(level, tail, price, id);
    }
  }

  /** A level without the client means no such entry anywhere in the flat list. */
  lemma FlattenLacks(side: Side, m: Levels, price: int, clientId: int)
    requires price in m ==> forall ro <- m[price] :: ro.clientId != clientId
    ensures !Has(Flatten(side, m), price, clientId)
  {
    FlattenMembers(side, m);
  }

  lemma {:induction false} FlattenMembers(side: Side, m: Levels)
    ensures forall e <- Flatten(side, m) ::
              e.price in m && RestingOrder(e.clientId, e.qty, e.seqNo) in m[e.price]
    decreases |m|
  {
    if m != map[] {
      var p := Best(side, m);
      FlattenMembers(side, m - {p});
    }
  }
}
