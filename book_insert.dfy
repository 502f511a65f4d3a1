/** Facts about appending an order to its level (AddOrder's insertion step). */
module InsertProps {
  import opened Types
  import opened Orders
  import opened BookSpec
  import opened BookProps

  /** A level put in front of sorted levels that it precedes keeps them sorted. */
  lemma SortedCons(x: Level, rest: seq<Level>, side: Side)
    requires Sorted(rest, side)
    requires forall j :: 0 <= j < |rest| ==> Before(side, x.price, rest[j].price)
    ensures Sorted([x] + rest, side)
  {
    var r := [x] + rest;
    forall i, j | 0 <= i < j < |r|
      ensures Before(side, r[i].price, r[j].price)
    {
      assert r[j] == rest[j - 1];
      if i > 0 {
        assert r[i] == rest[i - 1];
      }
    }
  }

  /** The orders at the price of the first level, or further down. */
  lemma OrdersAtCons(x: Level, rest: seq<Level>, p: Price)
    ensures OrdersAt([x] + rest, p) == if x.price == p then x.orders else OrdersAt(rest, p)
  {
    assert ([x] + rest)[1..] == rest;
  }

  /** Every level of the result is an old level or sits at the order's price. */
  lemma {:induction false} AppendLevels(levels: seq<Level>, side: Side, o: OrderView)
    ensures forall l :: l in Append(levels, side, o) ==> l in levels || l.price == o.price
  {
    if levels != [] && levels[0].price != o.price && !Before(side, o.price, levels[0].price) {
      AppendLevels(levels[1..], side, o);
    }
  }

  lemma {:induction false} AppendNoEmpty(levels: seq<Level>, side: Side, o: OrderView)
    requires NoEmptyLevel(levels)
    ensures NoEmptyLevel(Append(levels, side, o))
  {
    if levels != [] && levels[0].price != o.price && !Before(side, o.price, levels[0].price) {
      AppendNoEmpty(levels[1..], side, o);
    }
  }

  /** The ids of levels with a given first level. */
  lemma IdsCons(x: Level, rest: seq<Level>)
    ensures Ids([x] + rest) == OrderIds(x.orders) + Ids(rest)
  {
    assert ([x] + rest)[1..] == rest;
  }

  lemma OrderIdsSingle(o: OrderView)
    ensures OrderIds([o]) == multiset{o.orderId}
  {
    assert [o][1..] == [];
  }

  /** AppendIds where the order lands in the first level. */
  lemma AppendIdsFront(levels: seq<Level>, side: Side, o: OrderView)
    requires levels == [] || levels[0].price == o.price || Before(side, o.price, levels[0].price)
    ensures Ids(Append(levels, side, o)) == Ids(levels) + multiset{o.orderId}
  {
    var r := Append(levels, side, o);
    OrderIdsSingle(o);
    if levels == [] {
      assert r == [Level(o.price, [o])] + [];
      IdsCons(Level(o.price, [o]), []);
    } else if levels[0].price == o.price {
      var x, rest := levels[0], levels[1..];
      assert levels == [x] + rest;
      IdsCons(x, rest);
      assert r == [Level(o.price, x.orders + [o])] + rest;
      IdsCons(Level(o.price, x.orders + [o]), rest);
      OrderIdsConcat(x.orders, [o]);
      assert Ids(r) == OrderIds(x.orders) + multiset{o.orderId} + Ids(rest);
    } else {
      assert r == [Level(o.price, [o])] + levels;
      IdsCons(Level(o.price, [o]), levels);
    }
  }

  /** Appending adds exactly the order's id. */
  lemma {:induction false} AppendIds(levels: seq<Level>, side: Side, o: OrderView)
    ensures Ids(Append(levels, side, o)) == Ids(levels) + multiset{o.orderId}
  {
    if levels == [] || levels[0].price == o.price || Before(side, o.price, levels[0].price) {
      AppendIdsFront(levels, side, o);
    } else {
      var x, rest := levels[0], levels[1..];
      assert levels == [x] + rest;
      IdsCons(x, rest);
      var r := Append(levels, side, o);
      assert r == [x] + Append(rest, side, o);
      IdsCons(x, Append(rest, side, o));
      AppendIds(rest, side, o);
      assert Ids(r) == OrderIds(x.orders) + (Ids(rest) + multiset{o.orderId});
    }
  }

  /** Appending adds exactly the order's remaining quantity to the side. */
  lemma {:induction false} AppendRemaining(levels: seq<Level>, side: Side, o: OrderView)
    ensures TotalRemaining(Append(levels, side, o)) == TotalRemaining(levels) + o.remainingQuantity
  {
    var r := Append(levels, side, o);
    if levels == [] {
      assert r[1..] == [];
      assert Remaining([o]) == o.remainingQuantity by { assert [o][1..] == []; }
    } else if levels[0].price == o.price {
      RemainingConcat(levels[0].orders, [o]);
      assert Remaining([o]) == o.remainingQuantity by { assert [o][1..] == []; }
      assert r[1..] == levels[1..];
    } else if Before(side, o.price, levels[0].price) {
      assert r[1..] == levels;
      assert Remaining([o]) == o.remainingQuantity by { assert [o][1..] == []; }
    } else {
      AppendRemaining(levels[1..], side, o);
      assert r[1..] == Append(levels[1..], side, o);
    }
  }

  lemma {:induction false} RemainingConcat(a: seq<OrderView>, b: seq<OrderView>)
    ensures Remaining(a + b) == Remaining(a) + Remaining(b)
  {
    if a == [] {
      assert a + b == b;
    } else {
      assert (a + b)[1..] == a[1..] + b;
      RemainingConcat(a[1..], b);
    }
  }

  /** Appending an order that belongs on `side` keeps the side sorted and its levels sound. */
  lemma {:induction false} AppendLevelsOk(levels: seq<Level>, side: Side, o: OrderView, index: map<OrderId, Locator>)
    requires LevelsOk(levels, side, index) && OrderOk(o, side, o.price, index)
    ensures LevelsOk(Append(levels, side, o), side, index)
  {
    var r := Append(levels, side, o);
    if levels == [] {
    } else if levels[0].price == o.price {
      var l := Level(o.price, levels[0].orders + [o]);
      assert LevelOk(levels[0], side, index);
      assert LevelOk(l, side, index);
      SortedReplaced(levels, side, 0, l);
      assert r == levels[0 := l];
    } else if Before(side, o.price, levels[0].price) {
      SortedCons(Level(o.price, [o]), levels, side);
    } else {
      SortedTail(levels, side);
      AppendLevelsOk(levels[1..], side, o, index);
      AppendLevels(levels[1..], side, o);
      var rest := Append(levels[1..], side, o);
      forall j | 0 <= j < |rest|
        ensures Before(side, levels[0].price, rest[j].price)
      {
        assert rest[j] in rest;
      }
      SortedCons(levels[0], rest, side);
    }
  }

  /** FIFO: the order joins the back of the queue at its price; every other queue is
      unchanged. */
  lemma {:induction false} AppendFifo(levels: seq<Level>, side: Side, o: OrderView, p: Price)
    requires Sorted(levels, side)
    ensures OrdersAt(Append(levels, side, o), p) ==
      if p == o.price then OrdersAt(levels, p) + [o] else OrdersAt(levels, p)
  {
    if levels == [] {
      OrdersAtCons(Level(o.price, [o]), [], p);
    } else {
      assert levels == [levels[0]] + levels[1..];
      OrdersAtCons(levels[0], levels[1..], p);
      if levels[0].price == o.price {
        OrdersAtCons(Level(o.price, levels[0].orders + [o]), levels[1..], p);
      } else if Before(side, o.price, levels[0].price) {
        OrdersAtCons(Level(o.price, [o]), levels, p);
        if p == o.price {
          forall i | 0 <= i < |levels| ensures levels[i].price != p {
            if i > 0 {
              assert Before(side, levels[0].price, levels[i].price);
            }
          }
        }
      } else {
        SortedTail(levels, side);
        AppendFifo(levels[1..], side, o, p);
        OrdersAtCons(levels[0], Append(levels[1..], side, o), p);
      }
    }
  }

  /** In a consistent book every resting id is indexed. */
  lemma IndexedIds(b: Book)
    requires Consistent(b)
    ensures forall id :: id in Ids(b.bids) ==> id in b.index
    ensures forall id :: id in Ids(b.asks) ==> id in b.index
  {
    forall id | id in Ids(b.bids) ensures id in b.index {
      assert id in multiset(b.index.Keys);
    }
    forall id | id in Ids(b.asks) ensures id in b.index {
      assert id in multiset(b.index.Keys);
    }
  }

  /** Appending a new order to one side under the extended index. */
  lemma AppendSide(levels: seq<Level>, side: Side, o: OrderView, index': map<OrderId, Locator>)
    requires LevelsOk(levels, side, index') && NoEmptyLevel(levels)
    requires OrderOk(o, side, o.price, index')
    ensures var r := Append(levels, side, o);
      && LevelsOk(r, side, index') && NoEmptyLevel(r)
      && Ids(r) == Ids(levels) + multiset{o.orderId}
  {
    AppendLevelsOk(levels, side, o, index');
    AppendIds(levels, side, o);
    AppendNoEmpty(levels, side, o);
  }

  /** The levels of a book, sound under the extended index, with the order appended on
      its side. */
  lemma AppendedBook(bids: seq<Level>, asks: seq<Level>, o: OrderView, index': map<OrderId, Locator>)
    requires LevelsOk(bids, Buy, index') && NoEmptyLevel(bids)
    requires LevelsOk(asks, Sell, index') && NoEmptyLevel(asks)
    requires OrderOk(o, o.side, o.price, index')
    requires multiset(index'.Keys) == Ids(bids) + Ids(asks) + multiset{o.orderId}
    ensures o.side == Buy ==> Wellformed(Book(Append(bids, Buy, o), asks, index'))
    ensures o.side == Sell ==> Wellformed(Book(bids, Append(asks, Sell, o), index'))
  {
    if o.side == Buy {
      AppendSide(bids, Buy, o, index');
    } else {
      AppendSide(asks, Sell, o, index');
    }
  }

  /** The resting orders stay sound when a new id is indexed. */
  lemma ReindexedSides(b: Book, id: OrderId, index': map<OrderId, Locator>)
    requires Consistent(b) && id !in b.index && index'.Keys == b.index.Keys + {id}
    requires forall i :: i in b.index ==> index'[i] == b.index[i]
    ensures LevelsOk(b.bids, Buy, index') && LevelsOk(b.asks, Sell, index')
  {
    IndexedIds(b);
    assert Reindexed(b.bids, b.index, index');
    assert Reindexed(b.asks, b.index, index');
    LevelsOkReindexed(b.bids, Buy, b.index, index');
    LevelsOkReindexed(b.asks, Sell, b.index, index');
  }

  /** Inserting a new, non-Market order keeps the book wellformed and indexes the order
      at its side and price. */
  lemma InsertWellformed(b: Book, o: OrderView)
    requires Wellformed(b) && o.orderId !in b.index && o.orderType != Market
    ensures Wellformed(Insert(b, o))
    ensures Insert(b, o).index == b.index[o.orderId := Locator(o.side, o.price)]
    ensures |Insert(b, o).index| == |b.index| + 1
  {
    var index' := b.index[o.orderId := Locator(o.side, o.price)];
    assert index'.Keys == b.index.Keys + {o.orderId};
    ReindexedSides(b, o.orderId, index');
    MultisetOfAddition(b.index.Keys, o.orderId);
    assert OrderOk(o, o.side, o.price, index');
    AppendedBook(b.bids, b.asks, o, index');
  }

  /** FIFO at the book level: the new order is last at its price on its side; every
      other queue of the book is unchanged. */
  lemma InsertFifo(b: Book, o: OrderView, p: Price)
    requires Wellformed(b)
    ensures var r := Insert(b, o);
      && OrdersAt(if o.side == Buy then r.bids else r.asks, p) ==
           (if p == o.price then OrdersAt(if o.side == Buy then b.bids else b.asks, p) + [o]
            else OrdersAt(if o.side == Buy then b.bids else b.asks, p))
      && (if o.side == Buy then r.asks else r.bids) == (if o.side == Buy then b.asks else b.bids)
  {
    if o.side == Buy {
      AppendFifo(b.bids, Buy, o, p);
    } else {
      AppendFifo(b.asks, Sell, o, p);
    }
  }

  // ---------------------------------------------------------------------------
  // Cancelling what was just inserted

  lemma {:induction false} WithoutAppended(orders: seq<OrderView>, o: OrderView)
    requires o.orderId !in OrderIds(orders)
    ensures Without(orders + [o], o.orderId) == orders
  {
    if orders == [] {
      assert [] + [o] == [o];
    } else {
      assert (orders + [o])[1..] == orders[1..] + [o];
      WithoutAppended(orders[1..], o);
    }
  }

  /** Removing at a position behind a level leaves that level in front. */
  lemma RemoveOrderAtCons(x: Level, rest: seq<Level>, k: nat, id: OrderId)
    requires k < |rest|
    ensures RemoveOrderAt([x] + rest, k + 1, id) == [x] + RemoveOrderAt(rest, k, id)
  {
    var r := [x] + rest;
    assert r[k + 1] == rest[k];
    assert r[..k + 1] + r[k + 2..] == [x] + (rest[..k] + rest[k + 1..]);
  }

  /** RemoveAppended where the order lands in the first level: a new first level, or
      the back of the first level's queue. */
  lemma RemoveAppendedFront(levels: seq<Level>, side: Side, o: OrderView)
    requires NoEmptyLevel(levels) && o.orderId !in Ids(levels)
    requires levels == [] || levels[0].price == o.price || Before(side, o.price, levels[0].price)
    ensures FindLevel(Append(levels, side, o), o.price) == 0 < |Append(levels, side, o)|
    ensures RemoveOrderAt(Append(levels, side, o), 0, o.orderId) == levels
  {
    var r := Append(levels, side, o);
    assert Without([o], o.orderId) == [];
    if levels == [] {
      assert r == [Level(o.price, [o])];
    } else if levels[0].price == o.price {
      var x := levels[0];
      assert x in levels;
      assert r == [Level(o.price, x.orders + [o])] + levels[1..];
      WithoutAppended(x.orders, o);
      assert r[0 := Level(o.price, x.orders)] == levels;
    } else {
      assert r == [Level(o.price, [o])] + levels;
      assert r[1..] == levels;
    }
  }

  /** RemoveAppended where the order lands behind the first level. */
  lemma RemoveAppendedBehind(levels: seq<Level>, side: Side, o: OrderView, k: nat)
    requires levels != [] && levels[0].price != o.price && !Before(side, o.price, levels[0].price)
    requires k == FindLevel(Append(levels[1..], side, o), o.price) < |Append(levels[1..], side, o)|
    requires RemoveOrderAt(Append(levels[1..], side, o), k, o.orderId) == levels[1..]
    ensures FindLevel(Append(levels, side, o), o.price) == k + 1 < |Append(levels, side, o)|
    ensures RemoveOrderAt(Append(levels, side, o), k + 1, o.orderId) == levels
  {
    var tail := Append(levels[1..], side, o);
    var r := Append(levels, side, o);
    assert r == [levels[0]] + tail;
    assert r[1..] == tail;
    RemoveOrderAtCons(levels[0], tail, k, o.orderId);
    assert levels == [levels[0]] + levels[1..];
  }

  /** Appending a new order to levels without empty ones and removing it again gives the
      levels back. */
  lemma {:induction false} RemoveAppended(levels: seq<Level>, side: Side, o: OrderView)
    requires NoEmptyLevel(levels) && o.orderId !in Ids(levels)
    ensures FindLevel(Append(levels, side, o), o.price) < |Append(levels, side, o)|
    ensures RemoveOrderAt(Append(levels, side, o), FindLevel(Append(levels, side, o), o.price), o.orderId) == levels
  {
    if levels == [] || levels[0].price == o.price || Before(side, o.price, levels[0].price) {
      RemoveAppendedFront(levels, side, o);
    } else {
      var rest := levels[1..];
      forall l | l in rest ensures l.orders != [] {
        assert l in levels;
      }
      assert Ids(levels) == OrderIds(levels[0].orders) + Ids(rest);
      RemoveAppended(rest, side, o);
      RemoveAppendedBehind(levels, side, o, FindLevel(Append(rest, side, o), o.price));
    }
  }

  /** Cancelling right after inserting, for sides without empty levels that do not hold
      the id. */
  lemma InsertCancelSides(b: Book, o: OrderView)
    requires NoEmptyLevel(b.bids) && NoEmptyLevel(b.asks)
    requires o.orderId !in Ids(b.bids) && o.orderId !in Ids(b.asks) && o.orderId !in b.index
    ensures Cancel(Insert(b, o), o.orderId) == b
  {
    var index' := b.index[o.orderId := Locator(o.side, o.price)];
    assert index' - {o.orderId} == b.index;
    if o.side == Buy {
      var bids := Append(b.bids, Buy, o);
      assert Insert(b, o) == Book(bids, b.asks, index');
      RemoveAppended(b.bids, Buy, o);
    } else {
      var asks := Append(b.asks, Sell, o);
      assert Insert(b, o) == Book(b.bids, asks, index');
      RemoveAppended(b.asks, Sell, o);
    }
  }

  /** Cancelling an order right after inserting it restores the book: the index entry
      records the side and price the insertion used, so the cancellation finds the order
      where it was put. */
  lemma InsertCancelRoundTrip(b: Book, o: OrderView)
    requires Wellformed(b) && o.orderId !in b.index
    ensures Cancel(Insert(b, o), o.orderId) == b
  {
    IndexedIds(b);
    InsertCancelSides(b, o);
  }
}
