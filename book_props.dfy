/** Facts about the book value: how the aggregates behave, and that inserting and
    cancelling keep the levels and the index consistent. */
module BookProps {
  import opened Types
  import opened Orders
  import opened BookSpec

  // ---------------------------------------------------------------------------
  // Ids, counts and membership

  lemma {:induction false} InOrderIds(orders: seq<OrderView>, o: OrderView)
    requires o in orders
    ensures o.orderId in OrderIds(orders)
  {
    if orders[0] != o {
      InOrderIds(orders[1..], o);
    }
  }

  lemma {:induction false} InIds(levels: seq<Level>, l: Level, o: OrderView)
    requires l in levels && o in l.orders
    ensures o.orderId in Ids(levels)
  {
    if levels[0] == l {
      InOrderIds(l.orders, o);
    } else {
      InIds(levels[1..], l, o);
    }
  }

  lemma {:induction false} OrderIdsWitness(orders: seq<OrderView>, id: OrderId) returns (o: OrderView)
    requires id in OrderIds(orders)
    ensures o in orders && o.orderId == id
  {
    if orders[0].orderId == id {
      o := orders[0];
    } else {
      o := OrderIdsWitness(orders[1..], id);
    }
  }

  lemma {:induction false} IdsWitness(levels: seq<Level>, id: OrderId) returns (l: Level, o: OrderView)
    requires id in Ids(levels)
    ensures l in levels && o in l.orders && o.orderId == id
  {
    if id in OrderIds(levels[0].orders) {
      l := levels[0];
      o := OrderIdsWitness(l.orders, id);
    } else {
      l, o := IdsWitness(levels[1..], id);
    }
  }

  lemma {:induction false} OrderIdsConcat(a: seq<OrderView>, b: seq<OrderView>)
    ensures OrderIds(a + b) == OrderIds(a) + OrderIds(b)
  {
    if a == [] {
      assert a + b == b;
    } else {
      assert (a + b)[1..] == a[1..] + b;
      OrderIdsConcat(a[1..], b);
    }
  }

  lemma {:induction false} IdsConcat(a: seq<Level>, b: seq<Level>)
    ensures Ids(a + b) == Ids(a) + Ids(b)
  {
    if a == [] {
      assert a + b == b;
    } else {
      assert (a + b)[1..] == a[1..] + b;
      IdsConcat(a[1..], b);
    }
  }

  lemma {:induction false} OrderIdsSize(orders: seq<OrderView>)
    ensures |OrderIds(orders)| == |orders|
  {
    if orders != [] {
      OrderIdsSize(orders[1..]);
    }
  }

  lemma {:induction false} IdsSize(levels: seq<Level>)
    ensures |Ids(levels)| == Count(levels)
  {
    if levels != [] {
      OrderIdsSize(levels[0].orders);
      IdsSize(levels[1..]);
    }
  }

  /** The front of a level list replaced by `l`. */
  lemma FrontReplaced(levels: seq<Level>, l: Level)
    requires levels != []
    ensures levels[0 := l] == [l] + levels[1..]
    ensures Ids(levels[0 := l]) == OrderIds(l.orders) + Ids(levels[1..])
    ensures TotalRemaining(levels[0 := l]) == Remaining(l.orders) + TotalRemaining(levels[1..])
  {
    assert levels[0 := l][1..] == levels[1..];
  }

  lemma FrontOrderReplaced(orders: seq<OrderView>, o: OrderView)
    requires orders != [] && o.orderId == orders[0].orderId
    ensures OrderIds(orders[0 := o]) == OrderIds(orders)
    ensures Remaining(orders[0 := o]) == Remaining(orders) - orders[0].remainingQuantity + o.remainingQuantity
    ensures forall x :: x in orders[0 := o] ==> x == o || x in orders[1..]
  {
    assert orders[0 := o] == [o] + orders[1..];
  }

  lemma MultisetOfRemoval(keys: set<OrderId>, id: OrderId)
    requires id in keys
    ensures multiset(keys - {id}) == multiset(keys) - multiset{id}
  {
  }

  lemma MultisetOfAddition(keys: set<OrderId>, id: OrderId)
    requires id !in keys
    ensures multiset(keys + {id}) == multiset(keys) + multiset{id}
  {
  }

  /** Taking one id out of one part of the resting ids and out of the index keeps them
      equal. */
  lemma DropFromSum(left: multiset<OrderId>, left': multiset<OrderId>, right: multiset<OrderId>, keys: set<OrderId>, id: OrderId)
    requires left + right == multiset(keys) && id in left && left' == left - multiset{id}
    ensures left' + right == multiset(keys - {id})
    ensures left' + right == left + right - multiset{id}
  {
    assert id in multiset(keys);
    MultisetOfRemoval(keys, id);
  }

  /** The same, with the id taken out of the right-hand part. */
  lemma DropFromSumRight(left: multiset<OrderId>, right: multiset<OrderId>, right': multiset<OrderId>, keys: set<OrderId>, id: OrderId)
    requires left + right == multiset(keys) && id in right && right' == right - multiset{id}
    ensures left + right' == multiset(keys - {id})
    ensures left + right' == left + right - multiset{id}
  {
    assert id in multiset(keys);
    MultisetOfRemoval(keys, id);
  }

  // ---------------------------------------------------------------------------
  // Sortedness

  /** In sorted levels there is one level per price, and FindLevel finds it. */
  lemma SortedFind(levels: seq<Level>, side: Side, i: nat)
    requires Sorted(levels, side) && i < |levels|
    ensures FindLevel(levels, levels[i].price) == i
  {
  }

  lemma SortedTail(levels: seq<Level>, side: Side)
    requires Sorted(levels, side) && levels != []
    ensures Sorted(levels[1..], side)
  {
    forall i, j | 0 <= i < j < |levels| - 1
      ensures Before(side, levels[1..][i].price, levels[1..][j].price)
    {
      assert levels[1..][i] == levels[i + 1] && levels[1..][j] == levels[j + 1];
    }
  }

  lemma SortedReplaced(levels: seq<Level>, side: Side, k: nat, l: Level)
    requires Sorted(levels, side) && k < |levels| && l.price == levels[k].price
    ensures Sorted(levels[k := l], side)
  {
    var r := levels[k := l];
    forall i, j | 0 <= i < j < |r|
      ensures Before(side, r[i].price, r[j].price)
    {
      assert r[i].price == levels[i].price && r[j].price == levels[j].price;
    }
  }

  lemma SortedDrop(levels: seq<Level>, side: Side, k: nat)
    requires Sorted(levels, side) && k < |levels|
    ensures Sorted(levels[..k] + levels[k + 1..], side)
  {
    var r := levels[..k] + levels[k + 1..];
    forall i, j | 0 <= i < j < |r|
      ensures Before(side, r[i].price, r[j].price)
    {
      var i' := if i < k then i else i + 1;
      var j' := if j < k then j else j + 1;
      assert r[i] == levels[i'] && r[j] == levels[j'];
    }
  }

  /** The first level of a sorted side has the best price of the side. */
  lemma {:induction false} BestPrices(b: Book)
    requires Sorted(b.bids, Buy) && Sorted(b.asks, Sell)
    ensures forall i :: 0 <= i < |b.bids| ==> b.bids[i].price <= b.bids[0].price
    ensures forall i :: 0 <= i < |b.asks| ==> b.asks[0].price <= b.asks[i].price
  {
    forall i | 0 < i < |b.bids| ensures b.bids[i].price <= b.bids[0].price {
      assert Before(Buy, b.bids[0].price, b.bids[i].price);
    }
    forall i | 0 < i < |b.asks| ensures b.asks[0].price <= b.asks[i].price {
      assert Before(Sell, b.asks[0].price, b.asks[i].price);
    }
  }

  /** canMatch holds exactly when some opposite level is at an acceptable price. */
  lemma CanMatchIff(b: Book, side: Side, price: Price)
    requires Sorted(b.bids, Buy) && Sorted(b.asks, Sell)
    ensures side == Buy ==>
      (CanMatch(b, side, price) <==> exists i :: 0 <= i < |b.asks| && b.asks[i].price <= price)
    ensures side == Sell ==>
      (CanMatch(b, side, price) <==> exists i :: 0 <= i < |b.bids| && b.bids[i].price >= price)
  {
    BestPrices(b);
    if side == Buy && b.asks != [] {
      assert b.asks[0].price <= price ==> exists i :: 0 <= i < |b.asks| && b.asks[i].price <= price;
    }
    if side == Sell && b.bids != [] {
      assert b.bids[0].price >= price ==> exists i :: 0 <= i < |b.bids| && b.bids[i].price >= price;
    }
  }

  // ---------------------------------------------------------------------------
  // The index seen from the levels

  /** Every index lookup that `index'` answers for an id resting in `levels`, `index`
      answers the same way. */
  ghost predicate Reindexed(levels: seq<Level>, index: map<OrderId, Locator>, index': map<OrderId, Locator>) {
    forall id :: id in Ids(levels) && id in index' ==> id in index && index'[id] == index[id]
  }

  lemma LevelsOkReindexed(levels: seq<Level>, side: Side, index: map<OrderId, Locator>, index': map<OrderId, Locator>)
    requires LevelsOk(levels, side, index) && Reindexed(levels, index, index')
    ensures LevelsOk(levels, side, index')
  {
    forall l, o | l in levels && o in l.orders
      ensures OrderOk(o, side, l.price, index')
    {
      InIds(levels, l, o);
    }
  }

  /** Removing index entries never breaks a level. */
  lemma LevelOkSubIndex(l: Level, side: Side, index: map<OrderId, Locator>, index': map<OrderId, Locator>)
    requires LevelOk(l, side, index)
    requires index'.Keys <= index.Keys && forall id :: id in index' ==> index'[id] == index[id]
    ensures LevelOk(l, side, index')
  {
  }

  lemma LevelsOkSubIndex(levels: seq<Level>, side: Side, index: map<OrderId, Locator>, index': map<OrderId, Locator>)
    requires LevelsOk(levels, side, index)
    requires index'.Keys <= index.Keys && forall id :: id in index' ==> index'[id] == index[id]
    ensures LevelsOk(levels, side, index')
  {
    forall l | l in levels ensures LevelOk(l, side, index') {
      LevelOkSubIndex(l, side, index, index');
    }
  }

  /** In a consistent book every resting id is in the index. */
  lemma RestingIsIndexed(b: Book, l: Level, o: OrderView)
    requires Consistent(b)
    requires (l in b.bids || l in b.asks) && o in l.orders
    ensures o.orderId in b.index
  {
    if l in b.bids {
      InIds(b.bids, l, o);
    } else {
      InIds(b.asks, l, o);
    }
    assert o.orderId in multiset(b.index.Keys);
  }

  /** Size: the index has one entry per resting order. */
  lemma {:induction false} SizeCountsResting(b: Book)
    ensures Consistent(b) ==> |b.index| == Count(b.bids) + Count(b.asks)
  {
    if Consistent(b) {
      IdsSize(b.bids);
      IdsSize(b.asks);
      assert |multiset(b.index.Keys)| == |b.index.Keys|;
    }
  }
}
