/** Facts about CancelOrder and about finding a resting order through the index. */
module CancelProps {
  import opened Types
  import opened Orders
  import opened BookSpec
  import opened BookProps

  /** Removing the first order with `id` removes exactly one copy of `id`. */
  lemma {:induction false} WithoutIds(orders: seq<OrderView>, id: OrderId)
    requires id in OrderIds(orders)
    ensures OrderIds(Without(orders, id)) == OrderIds(orders) - multiset{id}
  {
    if orders[0].orderId != id {
      assert id in OrderIds(orders[1..]);
      WithoutIds(orders[1..], id);
      WithoutIdsBehind(orders, id);
    } else {
      assert OrderIds(orders) == multiset{id} + OrderIds(orders[1..]);
    }
  }

  /** The step of WithoutIds past a front order with another id. */
  lemma WithoutIdsBehind(orders: seq<OrderView>, id: OrderId)
    requires orders != [] && orders[0].orderId != id && id in OrderIds(orders[1..])
    requires OrderIds(Without(orders[1..], id)) == OrderIds(orders[1..]) - multiset{id}
    ensures OrderIds(Without(orders, id)) == OrderIds(orders) - multiset{id}
  {
    var w := Without(orders[1..], id);
    assert Without(orders, id) == [orders[0]] + w;
    OrderIdsCons(orders[0], w);
    assert OrderIds(orders) == multiset{orders[0].orderId} + OrderIds(orders[1..]);
    RemoveBehind(multiset{orders[0].orderId}, OrderIds(orders[1..]), id);
  }

  /** The ids of a sequence with one more order in front. */
  lemma OrderIdsCons(o: OrderView, rest: seq<OrderView>)
    ensures OrderIds([o] + rest) == multiset{o.orderId} + OrderIds(rest)
  {
    assert ([o] + rest)[1..] == rest;
  }

  /** Taking one copy of `id` out commutes with adding ids that are kept. */
  lemma RemoveBehind(head: multiset<OrderId>, m: multiset<OrderId>, id: OrderId)
    requires id in m
    ensures head + (m - multiset{id}) == (head + m) - multiset{id}
  {
  }

  /** Removal by id takes out exactly the element at its position and keeps the order
      of all the others. */
  lemma {:induction false} WithoutAt(orders: seq<OrderView>, id: OrderId, k: nat)
    requires k < |orders| && orders[k].orderId == id
    requires forall j :: 0 <= j < k ==> orders[j].orderId != id
    ensures Without(orders, id) == orders[..k] + orders[k + 1..]
  {
    if k > 0 {
      WithoutAt(orders[1..], id, k - 1);
      assert orders[1..][..k - 1] == orders[1..k];
      assert orders[1..][k..] == orders[k + 1..];
      assert orders[..k] == [orders[0]] + orders[1..k];
    }
  }

  lemma IdsSplit(levels: seq<Level>, k: nat)
    requires k < |levels|
    ensures Ids(levels) == Ids(levels[..k]) + OrderIds(levels[k].orders) + Ids(levels[k + 1..])
  {
    var tail := levels[k..];
    assert levels == levels[..k] + tail;
    IdsConcat(levels[..k], tail);
    assert tail[0] == levels[k] && tail[1..] == levels[k + 1..];
  }

  /** RemoveOrderAt takes exactly one copy of `id` out of the side. */
  lemma RemoveOrderAtIds(levels: seq<Level>, k: nat, id: OrderId)
    requires k < |levels| && id in OrderIds(levels[k].orders)
    ensures Ids(RemoveOrderAt(levels, k, id)) == Ids(levels) - multiset{id}
  {
    IdsSplit(levels, k);
    WithoutIds(levels[k].orders, id);
    var rest := Without(levels[k].orders, id);
    if rest == [] {
      IdsConcat(levels[..k], levels[k + 1..]);
    } else {
      var r := levels[k := Level(levels[k].price, rest)];
      IdsSplit(r, k);
      assert r[..k] == levels[..k] && r[k + 1..] == levels[k + 1..];
    }
  }

  /** RemoveOrderAt keeps a side sorted, sound and free of empty levels, and never
      improves its best price. */
  lemma RemoveOrderAtOk(levels: seq<Level>, side: Side, k: nat, id: OrderId, index: map<OrderId, Locator>)
    requires LevelsOk(levels, side, index) && NoEmptyLevel(levels) && k < |levels|
    ensures var r := RemoveOrderAt(levels, k, id);
      && LevelsOk(r, side, index)
      && NoEmptyLevel(r)
      && (r != [] ==> r[0].price == levels[0].price || Before(side, levels[0].price, r[0].price))
  {
    var rest := Without(levels[k].orders, id);
    var r := RemoveOrderAt(levels, k, id);
    if rest == [] {
      SortedDrop(levels, side, k);
      assert forall l :: l in r ==> l in levels;
      if r != [] && k == 0 {
        assert r[0] == levels[1];
      }
    } else {
      var l := Level(levels[k].price, rest);
      SortedReplaced(levels, side, k, l);
      assert LevelOk(levels[k], side, index);
      forall x | x in r ensures LevelOk(x, side, index) && x.orders != [] {
        var i :| 0 <= i < |r| && r[i] == x;
        if i != k {
          assert x == levels[i];
        }
      }
    }
  }

  lemma {:induction false} FindLevelSamePrices(a: seq<Level>, b: seq<Level>, p: Price)
    requires |a| == |b| && forall i :: 0 <= i < |a| ==> a[i].price == b[i].price
    ensures FindLevel(a, p) == FindLevel(b, p)
  {
    if a != [] {
      FindLevelSamePrices(a[1..], b[1..], p);
    }
  }

  /** Erasing level `k` empties the queue at its price and keeps every other queue. */
  lemma DropQueues(levels: seq<Level>, side: Side, k: nat, p: Price)
    requires Sorted(levels, side) && k < |levels|
    ensures OrdersAt(levels[..k] + levels[k + 1..], p) == if p == levels[k].price then [] else OrdersAt(levels, p)
  {
    var r := levels[..k] + levels[k + 1..];
    SortedDrop(levels, side, k);
    var i := FindLevel(levels, p);
    if i < |levels| && i != k {
      var i' := if i < k then i else i - 1;
      assert r[i'] == levels[i];
      SortedFind(r, side, i');
    } else {
      forall j | 0 <= j < |r| ensures r[j].price != p {
        var j' := if j < k then j else j + 1;
        assert r[j] == levels[j'];
        if j' > k {
          assert Before(side, levels[k].price, levels[j'].price);
        }
      }
    }
  }

  /** Replacing level `k` by a level at the same price replaces the queue at that price
      and keeps every other queue. */
  lemma ReplaceQueues(levels: seq<Level>, side: Side, k: nat, l: Level, p: Price)
    requires Sorted(levels, side) && k < |levels| && l.price == levels[k].price
    ensures OrdersAt(levels[k := l], p) == if p == levels[k].price then l.orders else OrdersAt(levels, p)
  {
    FindLevelSamePrices(levels, levels[k := l], p);
    if p == levels[k].price {
      SortedFind(levels, side, k);
    }
  }

  /** Removing order `id` from level `k` changes only the queue at that level's price,
      and that queue loses exactly the order `id`. */
  lemma RemoveOrderAtQueues(levels: seq<Level>, side: Side, k: nat, id: OrderId, p: Price)
    requires Sorted(levels, side) && k < |levels|
    ensures OrdersAt(RemoveOrderAt(levels, k, id), p) ==
      if p == levels[k].price then Without(OrdersAt(levels, p), id) else OrdersAt(levels, p)
  {
    SortedFind(levels, side, k);
    var rest := Without(levels[k].orders, id);
    if rest == [] {
      DropQueues(levels, side, k, p);
    } else {
      ReplaceQueues(levels, side, k, Level(levels[k].price, rest), p);
    }
  }

  /** Where a resting, indexed order sits: its index entry names its side and its level,
      and that level's queue holds its id. */
  lemma LocateResting(levels: seq<Level>, side: Side, index: map<OrderId, Locator>, id: OrderId) returns (k: nat)
    requires LevelsOk(levels, side, index) && id in Ids(levels) && id in index
    ensures index[id].side == side
    ensures k == FindLevel(levels, index[id].price) && k < |levels|
    ensures id in OrderIds(levels[k].orders)
  {
    var l, o := IdsWitness(levels, id);
    assert LevelOk(l, side, index);
    var i :| 0 <= i < |levels| && levels[i] == l;
    SortedFind(levels, side, i);
    k := i;
    InOrderIds(l.orders, o);
  }

  /** Cancelling a resting order of side `side`, whose levels are `levels`. */
  lemma CancelOnSide(levels: seq<Level>, side: Side, index: map<OrderId, Locator>, id: OrderId) returns (k: nat)
    requires LevelsOk(levels, side, index) && NoEmptyLevel(levels) && id in Ids(levels) && id in index
    ensures index[id].side == side
    ensures k == FindLevel(levels, index[id].price) && k < |levels|
    ensures var r := RemoveOrderAt(levels, k, id);
      && LevelsOk(r, side, index - {id})
      && NoEmptyLevel(r)
      && Ids(r) == Ids(levels) - multiset{id}
      && (r != [] ==> r[0].price == levels[0].price || Before(side, levels[0].price, r[0].price))
  {
    k := LocateResting(levels, side, index, id);
    LevelsOkSubIndex(levels, side, index, index - {id});
    RemoveOrderAtIds(levels, k, id);
    RemoveOrderAtOk(levels, side, k, id, index - {id});
  }

  /** CancelOrder of a resting bid. */
  lemma CancelBid(b: Book, id: OrderId)
    requires Wellformed(b) && id in b.index && id in Ids(b.bids)
    ensures var r := Cancel(b, id);
      && Consistent(r) && NoEmptyLevel(r.bids) && r.asks == b.asks && r.index == b.index - {id}
      && (r.bids != [] ==> b.bids[0].price >= r.bids[0].price)
      && Ids(r.bids) + Ids(r.asks) == Ids(b.bids) + Ids(b.asks) - multiset{id}
  {
    var index := b.index - {id};
    var k := CancelOnSide(b.bids, Buy, b.index, id);
    var bids := RemoveOrderAt(b.bids, k, id);
    assert Cancel(b, id) == Book(bids, b.asks, index);
    LevelsOkSubIndex(b.asks, Sell, b.index, index);
    DropFromSum(Ids(b.bids), Ids(bids), Ids(b.asks), b.index.Keys, id);
    assert Consistent(Book(bids, b.asks, index));
  }

  /** CancelOrder of a resting ask. */
  lemma CancelAsk(b: Book, id: OrderId)
    requires Wellformed(b) && id in b.index && id in Ids(b.asks)
    ensures var r := Cancel(b, id);
      && Consistent(r) && NoEmptyLevel(r.asks) && r.bids == b.bids && r.index == b.index - {id}
      && (r.asks != [] ==> b.asks[0].price <= r.asks[0].price)
      && Ids(r.bids) + Ids(r.asks) == Ids(b.bids) + Ids(b.asks) - multiset{id}
  {
    var index := b.index - {id};
    var k := CancelOnSide(b.asks, Sell, b.index, id);
    var asks := RemoveOrderAt(b.asks, k, id);
    assert Cancel(b, id) == Book(b.bids, asks, index);
    LevelsOkSubIndex(b.bids, Buy, b.index, index);
    DropFromSumRight(Ids(b.bids), Ids(b.asks), Ids(asks), b.index.Keys, id);
    assert Consistent(Book(b.bids, asks, index));
  }

  /** CancelOrder keeps the book wellformed and uncrossed, drops the id from the index
      and exactly one copy of it from the resting orders. */
  lemma CancelWellformed(b: Book, id: OrderId)
    requires Wellformed(b)
    ensures var r := Cancel(b, id);
      && Wellformed(r)
      && r.index == b.index - {id}
      && (Uncrossed(b) ==> Uncrossed(r))
      && Ids(r.bids) + Ids(r.asks) == Ids(b.bids) + Ids(b.asks) - multiset{id}
  {
    if id !in b.index {
      assert b.index - {id} == b.index;
    } else if id in Ids(b.bids) {
      CancelBid(b, id);
    } else {
      assert id in multiset(b.index.Keys);
      CancelAsk(b, id);
    }
  }

  /** CancelOrder removes exactly the cancelled order from its queue and leaves every
      other queue, and the order within every queue, unchanged. */
  lemma CancelQueues(b: Book, id: OrderId, side: Side, p: Price)
    requires Wellformed(b) && id in b.index
    ensures var loc := b.index[id];
      OrdersAt(if side == Buy then Cancel(b, id).bids else Cancel(b, id).asks, p) ==
        if side == loc.side && p == loc.price then Without(OrdersAt(if side == Buy then b.bids else b.asks, p), id)
        else OrdersAt(if side == Buy then b.bids else b.asks, p)
  {
    assert id in multiset(b.index.Keys);
    if id in Ids(b.bids) {
      var k := LocateResting(b.bids, Buy, b.index, id);
      assert Cancel(b, id).bids == RemoveOrderAt(b.bids, k, id) && Cancel(b, id).asks == b.asks;
      RemoveOrderAtQueues(b.bids, Buy, k, id, p);
    } else {
      var k := LocateResting(b.asks, Sell, b.index, id);
      assert Cancel(b, id).asks == RemoveOrderAt(b.asks, k, id) && Cancel(b, id).bids == b.bids;
      RemoveOrderAtQueues(b.asks, Sell, k, id, p);
    }
  }

  /** The index finds every indexed order: the order found has the id, rests on the side
      and at the price its entry names, and is not a Market order. */
  lemma LookupResting(b: Book, id: OrderId)
    requires Wellformed(b)
    ensures Lookup(b, id).Some? <==> id in b.index
    ensures Lookup(b, id).Some? ==>
      var o := Lookup(b, id).value;
      && o.orderId == id
      && o.side == b.index[id].side && o.price == b.index[id].price
      && o.orderType != Market
      && o in OrdersAt(if o.side == Buy then b.bids else b.asks, o.price)
  {
    if id in b.index {
      assert id in multiset(b.index.Keys);
      var side := if id in Ids(b.bids) then Buy else Sell;
      var levels := if side == Buy then b.bids else b.asks;
      var k := LocateResting(levels, side, b.index, id);
      var o := FindOrder(levels[k].orders, id).value;
      assert LevelOk(levels[k], side, b.index);
      assert levels[k] in levels;
    }
  }
}
