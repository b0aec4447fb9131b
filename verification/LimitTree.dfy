/**
 One side of a limit order book with all its indexes, updated in place. Both the order-entry
 book and the data-feed book are built from it.
 */
module LimitTrees {
  import opened MarketTypes
  import opened PriceTime
  import opened SearchTree
  import opened LimitIndex

  /** The map from order IDs to orders that both sides of a book point into. */
  class OrderMap {
    var at: Store

    constructor ()
      ensures at == map[]
    {
      at := map[];
    }
  }

  class LimitTree {
    const side: Side
    var limits: map<Price, Limit>
    var root: Tree
    var best: Option<Price>
    var count: nat
    var volume: nat
    ghost var contents: seq<Entry>

    ghost function Indexes(): Index
      reads this
    {
      Index(limits, root, best, count, volume)
    }

    ghost predicate Valid(at: Store)
      reads this
    {
      IndexOk(side, contents, Indexes(), at)
    }

    constructor (side: Side)
      ensures this.side == side && contents == [] && Valid(map[])
    {
      this.side := side;
      limits, root, best, count, volume, contents := map[], Leaf, None, 0, 0, [];
    }

    /** Drop every limit. */
    method Clear()
      modifies this
      ensures contents == [] && Valid(map[])
    {
      limits, root, best, count, volume, contents := map[], Leaf, None, 0, 0, [];
    }

    /** Changes to orders of the other side, or to orders in no queue, do not matter here. */
    lemma Frame(at: Store, at': Store)
      requires Valid(at) && Agree(Uids(contents), at, at')
      ensures Valid(at')
    {
      hide Sorted, Distinct, Stored, LevelsOk, IsBst;
      LevelsFrame(contents, limits, at, at');
      StoredFrame(side, contents, at, at');
    }

    /** The head of the queue at the best price is the first order of the list. */
    lemma Front(at: Store)
      requires Valid(at)
      ensures best.None? <==> contents == []
      ensures best.Some? ==>
        && best.value == contents[0].price
        && best.value in limits && limits[best.value].head == contents[0].uid
        && contents[0].uid in at && Shows(at[contents[0].uid], side, contents[0])
        && contents[0].uid in Uids(contents) && Find(contents, contents[0].uid) == 0
    {
      if contents != [] {
        assert contents[0].price in Prices(contents);
        assert AtPrice(contents, contents[0].price)[0] == contents[0];
      }
    }

    /** While fewer than 2^32 orders rest on a side, every count fits 32 bits and every volume 64. */
    lemma WidthsFit(at: Store)
      requires Valid(at) && count < TWO_32
      ensures volume < TWO_64
      ensures forall p | p in limits :: limits[p].count < TWO_32 && limits[p].volume < TWO_64
    {
      hide Sorted, Distinct, Stored, Linked, IsBst;
      VolumeFits(contents);
      forall p | p in limits
        ensures limits[p].count < TWO_32 && limits[p].volume < TWO_64
      {
        AtPriceMembers(contents, p);
        VolumeFits(AtPrice(contents, p));
      }
    }

    /** Place an order on this side: open a limit or join the back of an existing queue. */
    method Rest(orders: OrderMap, uid: UID)
      requires Valid(orders.at) && uid in orders.at && uid !in Uids(contents)
      requires orders.at[uid].uid == uid && orders.at[uid].side == side
      requires orders.at[uid].prev == None == orders.at[uid].next
      modifies this, orders
      ensures Valid(orders.at)
      ensures contents ==
              Insert(side, old(contents), Entry(uid, old(orders.at)[uid].price, old(orders.at)[uid].quantity))
      ensures Relinked(Uids(contents), old(orders.at), orders.at)
    {
      hide IndexOk;
      var order := orders.at[uid];
      ghost var e := Entry(uid, order.price, order.quantity);
      EnterFacts(orders.at, e);
      if order.price !in limits {
        root := Add(root, order.price);
        best := SetBest(side, best, order.price);
        limits := limits[order.price := Limit(1, order.quantity, uid, uid)];
      } else {
        var l := limits[order.price];
        orders.at := Appended(orders.at, l.tail, uid);
        limits := limits[order.price := Limit(l.count + 1, l.volume + order.quantity, l.head, uid)];
      }
      count := count + 1;
      volume := volume + order.quantity;
      if e.price !in old(limits) {
        Opened(side, contents, old(Indexes()), orders.at, e, Indexes());
      } else {
        Joined(side, contents, old(Indexes()), old(orders.at), e, Indexes(), orders.at);
      }
      contents := Insert(side, contents, e);
    }

    lemma EnterFacts(at: Store, e: Entry)
      requires Valid(at)
      ensures Uids(Insert(side, contents, e)) == Uids(contents) + {e.uid}
      ensures e.price in limits ==> limits[e.price].tail in at && limits[e.price].tail in Uids(contents)
    {
      InsertUids(side, contents, e);
      if e.price in limits {
        var q := AtPrice(contents, e.price);
        assert LimitOk(limits[e.price], q, at);
        assert LinkedAt(q, at, |q| - 1);
        assert q[|q| - 1].uid in Uids(q);
        AtPriceUids(contents, e.price);
      }
    }

    /** Take an order out of its queue; the last order at a price takes the limit with it. */
    method Withdraw(orders: OrderMap, uid: UID)
      requires Valid(orders.at) && uid in Uids(contents)
      modifies this, orders
      ensures Valid(orders.at)
      ensures contents == Remove(old(contents), uid)
      ensures Uids(contents) == old(Uids(contents)) - {uid}
      ensures Relinked(old(Uids(contents)), old(orders.at), orders.at)
    {
      hide IndexOk;
      ghost var i := Find(contents, uid);
      WithdrawFacts(orders.at, i);
      var order := orders.at[uid];
      var p := order.price;
      ghost var alone := order.prev.None? && order.next.None?;
      if order.prev.None? && order.next.None? {
        var before := root;
        root := Delete(root, p);
        if best == Some(p) {
          best := FindBest(side, before, root, p);
        }
        limits := limits - {p};
      } else {
        limits := limits[p := Shrunk(limits[p], order)];
        UnlinkedSameData(orders.at, order);
        orders.at := Unlinked(orders.at, order);
      }
      count := count - 1;
      volume := volume - order.quantity;
      if alone {
        Closed(side, contents, old(Indexes()), orders.at, i, Indexes());
      } else {
        Left(side, contents, old(Indexes()), old(orders.at), i, Indexes(), orders.at);
      }
      contents := RemoveAt(contents, i);
    }

    lemma WithdrawFacts(at: Store, i: nat)
      requires Valid(at) && i < |contents|
      ensures var e := contents[i];
        && e.uid in at && Shows(at[e.uid], side, e)
        && (at[e.uid].prev == None == at[e.uid].next <==> AtPrice(contents, e.price) == [e])
        && e.price in limits && limits[e.price].count > 0 && limits[e.price].volume >= e.quantity
        && count > 0 && volume >= e.quantity
        && Neighbours(at[e.uid]) <= Uids(contents)
      ensures Uids(RemoveAt(contents, i)) == Uids(contents) - {contents[i].uid}
    {
      var p := contents[i].price;
      var q := AtPrice(contents, p);
      RemoveAtMembers(contents, i);
      VolumeRemoveAt(contents, i);
      AloneIffNoLinks(contents, i, limits, at);
      assert LimitOk(limits[p], q, at);
      assert LinkedAt(q, at, Place(contents, i));
      VolumeRemoveAt(q, Place(contents, i));
      NeighboursInQueue(q, Place(contents, i), at);
      AtPriceUids(contents, p);
    }

    /** Take quantity off a resting order that keeps its place in the queue. */
    method Shave(orders: OrderMap, uid: UID, cut: Quantity)
      requires Valid(orders.at) && uid in Uids(contents)
      requires uid in orders.at && cut <= orders.at[uid].quantity
      modifies this, orders
      ensures Valid(orders.at)
      ensures var i := Find(old(contents), uid);
        && i < |old(contents)| && cut <= old(contents)[i].quantity
        && contents == old(contents)[i := old(contents)[i].(quantity := old(contents)[i].quantity - cut)]
      ensures Uids(contents) == old(Uids(contents))
      ensures orders.at == old(orders.at)[uid := old(orders.at)[uid].(quantity := old(orders.at)[uid].quantity - cut)]
    {
      hide IndexOk;
      ghost var i := Find(contents, uid);
      WithdrawFacts(orders.at, i);
      var order := orders.at[uid];
      ghost var e := contents[i].(quantity := order.quantity - cut);
      orders.at := orders.at[uid := order.(quantity := order.quantity - cut)];
      var l := limits[order.price];
      limits := limits[order.price := l.(volume := l.volume - cut)];
      volume := volume - cut;
      Reduced(side, contents, old(Indexes()), old(orders.at), i, e, Indexes(), orders.at);
      assert forall j | 0 <= j < |contents| :: contents[i := e][j].uid == contents[j].uid;
      contents := contents[i := e];
    }
  }
}
