/**
 The data-feed side: the receiver's own limit order book, with its own matching loop, and the
 receiver that rebuilds the server's book from packets.
 */
module Replica {
  import opened MarketTypes
  import opened PriceTime
  import opened SearchTree
  import opened LimitIndex
  import opened LimitTrees
  import opened BookSides
  import opened Sweeps
  import opened Books
  import opened Outboxes

  /** The last best price of a side: its best price while it has orders and, once it was emptied,
      the price of the order that was last in it. */
  function LastBest(s: seq<Entry>, s': seq<Entry>, last: Price): Price {
    if s' != [] then s'[0].price else if s == [] then last else s[|s| - 1].price
  }

  /** A side after one execution with its front order. */
  function AfterHit(s: seq<Entry>, remaining: Quantity): seq<Entry>
    requires s != []
  {
    if s[0].quantity <= remaining then s[1..] else s[0 := s[0].(quantity := s[0].quantity - remaining)]
  }

  lemma HitShortens(s: seq<Entry>, remaining: Quantity)
    requires s != [] && s[0].quantity < remaining
    ensures |AfterHit(s, remaining)| < |s|
  {
  }

  /** The last best price belongs to what a sweep of s has left, whose last order is still that of s. */
  predicate LastKept(s: seq<Entry>, now: seq<Entry>, was: Price, last: Price) {
    && last == LastBest(s, now, was)
    && (now != [] ==> s != [] && now[|now| - 1].price == s[|s| - 1].price)
  }

  lemma LastKeptStart(s: seq<Entry>, was: Price)
    requires s != [] ==> was == s[0].price
    ensures LastKept(s, s, was, was)
  {
  }

  lemma LastKeptNext(s: seq<Entry>, now: seq<Entry>, was: Price, last: Price, remaining: Quantity)
    requires LastKept(s, now, was, last) && now != []
    ensures LastKept(s, AfterHit(now, remaining), was,
                     if now[0].quantity <= remaining && now[1..] != [] then now[1].price else last)
  {
  }

  lemma LastKeptEnd(s: seq<Entry>, now: seq<Entry>, was: Price, last: Price)
    requires LastKept(s, now, was, last)
    ensures last == LastBest(s, now, was)
  {
  }

  /** The executions `done` lead from s to `now`, and the rest of the sweep is still to come. */
  ghost predicate OnWay(side: Side, s: seq<Entry>, price: Price, quantity: Quantity, done: seq<Fill>, now: seq<Entry>,
                        residual: Quantity, at: Store, at': Store) {
    var m, r := Match(side, s, price, quantity), Match(side, now, price, residual);
    && m.fills == done + r.fills && m.rest == r.rest && m.residual == r.residual
    && Uids(now) <= Uids(s) && StoreStep(at, at', Uids(s), UsedUp(done))
  }

  lemma OnWayStart(side: Side, s: seq<Entry>, price: Price, quantity: Quantity, at: Store)
    ensures OnWay(side, s, price, quantity, [], s, quantity, at, at)
  {
    hide Match, UsedUp;
    UsedUpNone();
    assert [] + Match(side, s, price, quantity).fills == Match(side, s, price, quantity).fills;
  }

  lemma OnWayNext(side: Side, s: seq<Entry>, price: Price, quantity: Quantity, done: seq<Fill>, now: seq<Entry>,
                  residual: Quantity, at: Store, before: Store, after: Store)
    requires OnWay(side, s, price, quantity, done, now, residual, at, before)
    requires now != [] && CanMatch(side, now[0].price, price)
    requires StoreStep(before, after, Uids(now), if now[0].quantity <= residual then {now[0].uid} else {})
    ensures var m, now' := Match(side, s, price, quantity), AfterHit(now, residual);
      if now[0].quantity >= residual
      then m.rest == now' && m.residual == 0 && StoreStep(at, after, Uids(s), UsedUp(m.fills))
      else OnWay(side, s, price, quantity, done + [HeadFill(now[0], residual)], now', residual - now[0].quantity,
                 at, after)
  {
    hide Match, UsedUp, StoreStep, Uids;
    var f := HeadFill(now[0], residual);
    MatchUnfold(side, now, price, residual);
    UsedUpPlus(done, f);
    TailUids(now);
    StoreStepThen(at, before, after, Uids(s), Uids(now), UsedUp(done), if f.makerLeaves == 0 then {f.uid} else {});
    if now[0].quantity < residual {
      var r := Match(side, now[1..], price, residual - now[0].quantity);
      assert done + ([f] + r.fills) == (done + [f]) + r.fills;
    }
  }

  lemma TailUids(s: seq<Entry>)
    requires s != []
    ensures Uids(s[1..]) <= Uids(s)
  {
    assert forall i | 0 <= i < |s| - 1 :: s[1..][i] == s[i + 1];
  }

  lemma OnWayEnd(side: Side, s: seq<Entry>, price: Price, quantity: Quantity, done: seq<Fill>, now: seq<Entry>,
                 residual: Quantity, at: Store, at': Store)
    requires OnWay(side, s, price, quantity, done, now, residual, at, at')
    requires now == [] || !CanMatch(side, now[0].price, price)
    ensures var m := Match(side, s, price, quantity);
      now == m.rest && residual == m.residual && StoreStep(at, at', Uids(s), UsedUp(m.fills))
  {
    hide Match, UsedUp, StoreStep, Uids;
    MatchStop(side, now, price, residual);
    assert done + [] == done;
  }

  class DataFeedBook {
    const sides: SidePair
    var lastBestSell: Price
    var lastBestBuy: Price

    function Last(side: Side): Price
      reads this
    {
      if side.Sell? then lastBestSell else lastBestBuy
    }

    ghost predicate Noted(side: Side)
      reads this, sides.sells, sides.buys
    {
      sides.Tree(side).contents != [] ==> Last(side) == sides.Tree(side).contents[0].price
    }

    /** The indexes are in order, the order map holds exactly the resting orders, and the last
        best price of a side that has orders is its best price. */
    ghost predicate Valid()
      reads this, sides.sells, sides.buys, sides.orders
    {
      && sides.Valid()
      && sides.orders.at.Keys == sides.Lists().AllUids()
      && Noted(Sell) && Noted(Buy)
    }

    constructor ()
      ensures Valid() && sides.Lists() == EMPTY
      ensures fresh(sides.sells) && fresh(sides.buys) && fresh(sides.orders)
    {
      sides := new SidePair();
      lastBestSell, lastBestBuy := 0, 0;
    }

    /** Remember a side's best price, as after every change of its tree. */
    method Note(side: Side)
      requires sides.Valid()
      modifies this
      ensures Noted(side) && Last(side.Opposite()) == old(Last(side.Opposite()))
      ensures sides.Tree(side).contents == [] ==> Last(side) == old(Last(side))
    {
      hide SidePair.Valid, Uids;
      sides.FrontOf(side);
      var tree := sides.Tree(side);
      if tree.best.Some? {
        if side.Sell? {
          lastBestSell := tree.best.value;
        } else {
          lastBestBuy := tree.best.value;
        }
      }
    }

    /** One turn of the matching loop, by the front order; `left` is what remains of the incoming one. */
    method Hit(side: Side, remaining: Quantity) returns (left: Quantity)
      requires sides.Valid() && sides.Tree(side).contents != []
      modifies this, sides.Tree(side), sides.orders
      ensures sides.Valid() && Last(side.Opposite()) == old(Last(side.Opposite()))
      ensures var s := old(sides.Tree(side).contents);
        && sides.Tree(side).contents == AfterHit(s, remaining)
        && left == (if s[0].quantity >= remaining then 0 else remaining - s[0].quantity)
        && StoreStep(old(sides.orders.at), sides.orders.at, Uids(s),
                     if s[0].quantity <= remaining then {s[0].uid} else {})
        && Last(side) == if s[0].quantity <= remaining && s[1..] != [] then s[1].price else old(Last(side))
      ensures sides.Tree(side).best == BestPrice(sides.Tree(side).contents)
    {
      hide SidePair.Valid, StoreStep, Uids, Remove;
      var tree := sides.Tree(side);
      sides.FrontOf(side);
      FrontFacts(tree.contents);
      var uid := tree.limits[tree.best.value].head;
      var match_ := sides.orders.at[uid];
      if match_.quantity >= remaining {
        if match_.quantity == remaining {
          sides.Consume(side, uid);
          Note(side);
        } else {
          sides.Reduce(side, uid, remaining);
        }
        left := 0;
      } else {
        left := remaining - match_.quantity;
        sides.Consume(side, uid);
        Note(side);
      }
      sides.FrontOf(side);
    }

    /** The receiver's matching loop. */
    method Market(taker: Side, price: Price, quantity: Quantity) returns (residual: Quantity)
      requires sides.Valid() && Noted(taker.Opposite())
      modifies this, sides.Tree(taker.Opposite()), sides.orders
      ensures sides.Valid() && Last(taker) == old(Last(taker))
      ensures var s, s' := old(sides.Tree(taker.Opposite()).contents), sides.Tree(taker.Opposite()).contents;
        Last(taker.Opposite()) == LastBest(s, s', old(Last(taker.Opposite())))
      ensures var side := taker.Opposite();
        var m := Match(side, old(sides.Tree(side).contents), price, quantity);
        && sides.Tree(side).contents == m.rest && residual == m.residual
        && StoreStep(old(sides.orders.at), sides.orders.at, old(Uids(sides.Tree(side).contents)), UsedUp(m.fills))
    {
      hide SidePair.Valid, Match, UsedUp, StoreStep, Uids, LastBest, LastKept, OnWay, AfterHit;
      var side := taker.Opposite();
      var tree := sides.Tree(side);
      residual := quantity;
      ghost var s, at, was, done := tree.contents, sides.orders.at, Last(side), [];
      OnWayStart(side, s, price, quantity, at);
      LastKeptStart(s, was);
      sides.FrontOf(side);
      while tree.best.Some? && CanMatch(side, tree.best.value, price)
        invariant sides.Valid() && Last(taker) == old(Last(taker))
        invariant tree.best == BestPrice(tree.contents)
        invariant LastKept(s, tree.contents, was, Last(side))
        invariant OnWay(side, s, price, quantity, done, tree.contents, residual, at, sides.orders.at)
        decreases |tree.contents|
      {
        ghost var now, before, remaining, last := tree.contents, sides.orders.at, residual, Last(side);
        residual := Hit(side, residual);
        OnWayNext(side, s, price, quantity, done, now, remaining, at, before, sides.orders.at);
        LastKeptNext(s, now, was, last, remaining);
        if residual == 0 {
          LastKeptEnd(s, tree.contents, was, Last(side));
          return;
        }
        done := done + [HeadFill(now[0], remaining)];
        HitShortens(now, remaining);
      }
      OnWayEnd(side, s, price, quantity, done, tree.contents, residual, at, sides.orders.at);
      LastKeptEnd(s, tree.contents, was, Last(side));
    }

    /** The order map while a new order is matched: everything that rests, and the new order. */
    ghost predicate Pending(uid: UID, side: Side, price: Price)
      reads sides.sells, sides.buys, sides.orders
    {
      && sides.Valid()
      && uid in sides.orders.at && uid !in sides.Lists().AllUids()
      && sides.orders.at.Keys == sides.Lists().AllUids() + {uid}
      && sides.orders.at[uid] == Order(uid, side, sides.orders.at[uid].quantity, price, None, None, None)
    }

    method Admit(uid: UID, side: Side, quantity: Quantity, price: Price)
      requires Valid() && uid !in sides.orders.at
      modifies sides.orders
      ensures Pending(uid, side, price) && sides.orders.at[uid].quantity == quantity
    {
      hide IndexOk, Uids;
      ghost var at := sides.orders.at;
      sides.orders.at := sides.orders.at[uid := Order(uid, side, quantity, price, None, None, None)];
      sides.sells.Frame(at, sides.orders.at);
      sides.buys.Frame(at, sides.orders.at);
    }

    method Cross(uid: UID, side: Side, price: Price)
      requires Pending(uid, side, price) && Noted(side.Opposite())
      modifies this, sides.Tree(side.Opposite()), sides.orders
      ensures Pending(uid, side, price) && Last(side) == old(Last(side))
      ensures Last(side.Opposite()) ==
              LastBest(old(sides.Lists()).Of(side.Opposite()), sides.Lists().Of(side.Opposite()),
                       old(Last(side.Opposite())))
      ensures var m := Swept(old(sides.Lists()), side, price, old(sides.orders.at)[uid].quantity);
        && sides.Lists() == old(sides.Lists()).With(side.Opposite(), m.rest)
        && uid in sides.orders.at && sides.orders.at[uid].quantity == m.residual
    {
      hide IndexOk, Uids, Match, UsedUp;
      var tree := sides.Tree(side.Opposite());
      var quantity := sides.orders.at[uid].quantity;
      sides.SweepUids(tree, sides.orders.at, price, quantity);
      var residual := Market(side, price, quantity);
      ghost var at := sides.orders.at;
      sides.orders.at := sides.orders.at[uid := sides.orders.at[uid].(quantity := residual)];
      sides.sells.Frame(at, sides.orders.at);
      sides.buys.Frame(at, sides.orders.at);
    }

    method Dismiss(uid: UID, side: Side, price: Price)
      requires Pending(uid, side, price)
      modifies sides.orders
      ensures sides.Valid() && sides.orders.at.Keys == sides.Lists().AllUids()
    {
      hide IndexOk, Uids;
      ghost var at := sides.orders.at;
      sides.orders.at := sides.orders.at - {uid};
      sides.sells.Frame(at, sides.orders.at);
      sides.buys.Frame(at, sides.orders.at);
    }

    method Shelve(uid: UID, side: Side, price: Price)
      requires Pending(uid, side, price)
      modifies sides.Tree(side), sides.orders
      ensures sides.Valid() && sides.orders.at.Keys == sides.Lists().AllUids() && sides.Tree(side).contents != []
      ensures sides.Lists() == old(sides.Lists()).With(side,
                Insert(side, old(sides.Lists()).Of(side), Entry(uid, price, old(sides.orders.at)[uid].quantity)))
    {
      hide IndexOk, Uids;
      ghost var at := sides.orders.at;
      var tree, other := sides.Tree(side), sides.Tree(side.Opposite());
      InsertUids(side, tree.contents, Entry(uid, price, at[uid].quantity));
      tree.Rest(sides.orders, uid);
      other.Frame(at, sides.orders.at);
    }

    /** limit_sell and limit_buy of the data-feed book. */
    method Limit(side: Side, uid: UID, quantity: Quantity, price: Price)
      requires Valid() && uid !in sides.orders.at
      modifies this, sides.sells, sides.buys, sides.orders
      ensures Valid()
      ensures sides.Lists() == SubmitLimit(old(sides.Lists()), side, uid, quantity, price).book
      ensures lastBestSell == LastBest(old(sides.sells.contents), sides.sells.contents, old(lastBestSell))
      ensures lastBestBuy == LastBest(old(sides.buys.contents), sides.buys.contents, old(lastBestBuy))
    {
      hide SidePair.Valid, Uids, Insert, Match;
      var opposite := sides.Tree(side.Opposite());
      sides.FrontOf(side.Opposite());
      Admit(uid, side, quantity, price);
      if opposite.best.Some? && (if side.Sell? then price <= opposite.best.value else price >= opposite.best.value) {
        Cross(uid, side, price);
        if sides.orders.at[uid].quantity == 0 {
          Dismiss(uid, side, price);
          return;
        }
      }
      Shelve(uid, side, price);
      Note(side);
    }

    /** market_sell and market_buy of the data-feed book. */
    method MarketOrder(side: Side, quantity: Quantity)
      requires Valid()
      modifies this, sides.sells, sides.buys, sides.orders
      ensures Valid()
      ensures sides.Lists() == SubmitMarket(old(sides.Lists()), side, quantity).book
      ensures lastBestSell == LastBest(old(sides.sells.contents), sides.sells.contents, old(lastBestSell))
      ensures lastBestBuy == LastBest(old(sides.buys.contents), sides.buys.contents, old(lastBestBuy))
    {
      hide IndexOk, Uids, Match, UsedUp;
      var tree := sides.Tree(side.Opposite());
      sides.SweepUids(tree, sides.orders.at, 0, quantity);
      var residual := Market(side, 0, quantity);
    }

    /** A stored order is on the side it says, with the quantity the list shows. */
    lemma Placed(uid: UID)
      requires Valid() && uid in sides.orders.at
      ensures var o := sides.orders.at[uid];
        var s := sides.Tree(o.side).contents;
        && uid in Uids(s) && SideOf(sides.Lists(), uid) == o.side
        && Find(s, uid) < |s| && s[Find(s, uid)].quantity == o.quantity == Resting(sides.Lists(), uid)
    {
      hide Sorted, Distinct, Stored, LevelsOk, IsBst, Resting;
      var side := SideOf(sides.Lists(), uid);
      PlacedIn(side, sides.Tree(side).contents, sides.orders.at, uid);
      RestingIn(sides.Lists(), side, uid);
    }

    /** Take an order off its side and out of the order map. */
    method Drop(side: Side, uid: UID)
      requires sides.Valid() && Noted(side) && uid in Uids(sides.Tree(side).contents)
      modifies this, sides.Tree(side), sides.orders
      ensures sides.Valid() && Noted(side) && Last(side.Opposite()) == old(Last(side.Opposite()))
      ensures Last(side) == LastBest(old(sides.Tree(side).contents), sides.Tree(side).contents, old(Last(side)))
      ensures sides.Lists() == old(sides.Lists()).With(side, Remove(old(sides.Lists()).Of(side), uid))
      ensures sides.Lists().AllUids() == old(sides.Lists()).AllUids() - {uid}
      ensures sides.orders.at.Keys == old(sides.orders.at.Keys) - {uid}
    {
      hide SidePair.Valid, Uids, Remove;
      sides.OtherSideApart(side);
      EmptiedByLast(sides.Tree(side).contents, uid);
      sides.Consume(side, uid);
      Note(side);
    }

    method Cancel(uid: UID)
      requires Valid() && uid in sides.orders.at
      modifies this, sides.sells, sides.buys, sides.orders
      ensures Valid() && sides.Lists() == Canceled(old(sides.Lists()), uid)
      ensures lastBestSell == LastBest(old(sides.sells.contents), sides.sells.contents, old(lastBestSell))
      ensures lastBestBuy == LastBest(old(sides.buys.contents), sides.buys.contents, old(lastBestBuy))
    {
      hide SidePair.Valid, Uids, Remove, SideOf;
      Placed(uid);
      Settled(Sell);
      Settled(Buy);
      Drop(sides.orders.at[uid].side, uid);
    }

    /** A side that does not change keeps its last best price. */
    lemma Settled(side: Side)
      requires Noted(side)
      ensures Last(side) == LastBest(sides.Tree(side).contents, sides.Tree(side).contents, Last(side))
    {
    }

    /** Take quantity off an order that keeps its place. */
    method Cut(side: Side, uid: UID, quantity: Quantity)
      requires Valid() && uid in Uids(sides.Tree(side).contents)
      requires uid in sides.orders.at && quantity <= sides.orders.at[uid].quantity
      modifies sides.Tree(side), sides.orders
      ensures Valid() && uid in Uids(sides.Tree(side).contents) && uid in sides.orders.at
      ensures var s, i := old(sides.Lists()).Of(side), Find(old(sides.Lists()).Of(side), uid);
        && i < |s| && quantity <= s[i].quantity
        && sides.Lists() == old(sides.Lists()).With(side, s[i := s[i].(quantity := s[i].quantity - quantity)])
      ensures sides.orders.at.Keys == old(sides.orders.at.Keys)
    {
      hide SidePair.Valid, Uids;
      sides.OtherSideApart(side);
      sides.Reduce(side, uid, quantity);
    }

    /** Take quantity off an order and drop it once nothing is left. Asking for more than there is
        throws, and then nothing has changed. */
    method Reduce(uid: UID, quantity: Quantity) returns (ok: bool)
      requires Valid() && uid in sides.orders.at
      modifies this, sides.sells, sides.buys, sides.orders
      ensures Valid()
      ensures ok <==> quantity <= old(sides.orders.at)[uid].quantity
      ensures ok ==> var side := SideOf(old(sides.Lists()), uid);
        sides.Lists() == old(sides.Lists()).With(side, PriceTime.Reduce(old(sides.Lists()).Of(side), uid, quantity))
      ensures !ok ==> sides.Lists() == old(sides.Lists()) && sides.orders.at == old(sides.orders.at)
      ensures lastBestSell == LastBest(old(sides.sells.contents), sides.sells.contents, old(lastBestSell))
      ensures lastBestBuy == LastBest(old(sides.buys.contents), sides.buys.contents, old(lastBestBuy))
    {
      hide SidePair.Valid, Uids, Remove, SideOf, PriceTime.Reduce, LastBest, Find;
      Settled(Sell);
      Settled(Buy);
      var order := sides.orders.at[uid];
      if quantity > order.quantity {
        return false;
      }
      Placed(uid);
      ReducedThenRemoved(sides.Lists().Of(order.side), uid, quantity);
      ghost var s, last := sides.Tree(order.side).contents, Last(order.side);
      Cut(order.side, uid, quantity);
      CutKeepsLast(s, sides.Tree(order.side).contents, last);
      if order.quantity == quantity {
        ghost var cut := sides.Tree(order.side).contents;
        Drop(order.side, uid);
        LastAfterCut(s, cut, sides.Tree(order.side).contents, last);
      }
      return true;
    }

    /** Forget every order; the last best prices stay. */
    method Clear()
      requires Valid()
      modifies this, sides.sells, sides.buys, sides.orders
      ensures Valid() && sides.Lists() == EMPTY
      ensures lastBestSell == old(lastBestSell) && lastBestBuy == old(lastBestBuy)
    {
      sides.sells.Clear();
      sides.buys.Clear();
      sides.orders.at := map[];
    }
  }

  lemma PlacedIn(side: Side, s: seq<Entry>, at: Store, uid: UID)
    requires Stored(side, s, at) && uid in Uids(s)
    ensures Find(s, uid) < |s| && uid in at && at[uid].side == side && s[Find(s, uid)].quantity == at[uid].quantity
  {
    var i :| 0 <= i < |s| && s[i].uid == uid;
    var k := Find(s, uid);
    assert Shows(at[s[k].uid], side, s[k]);
  }

  lemma RestingIn(b: Book, side: Side, uid: UID)
    requires uid in Uids(b.Of(side)) && uid !in Uids(b.Of(side.Opposite())) && Find(b.Of(side), uid) < |b.Of(side)|
    ensures Resting(b, uid) == b.Of(side)[Find(b.Of(side), uid)].quantity
  {
    hide Uids;
    RemainingNone(b.Of(side.Opposite()), uid);
  }

  /** After a sweep the last best price is the one the side had when it was last seen with an order: its
      best price now or, if the sweep emptied it, its best price before the last execution. */
  lemma LastBestWasSeen(side: Side, s: seq<Entry>, price: Price, quantity: Quantity, last: Price)
    requires s != [] && last == s[0].price
    ensures var m := Match(side, s, price, quantity);
      && |m.fills| <= |s|
      && (m.rest != [] ==> LastBest(s, m.rest, last) == m.rest[0].price)
      && (m.rest == [] ==>
            && m.fills != [] && After(s, m.fills, |m.fills| - 1) != []
            && LastBest(s, m.rest, last) == After(s, m.fills, |m.fills| - 1)[0].price)
  {
    hide Match;
    SweepShape(side, s, price, quantity);
  }

  /** Cutting a quantity changes no price, hence no last best price, now or after a removal. */
  lemma LastAfterCut(s: seq<Entry>, cut: seq<Entry>, s': seq<Entry>, last: Price)
    requires |cut| == |s| && forall i | 0 <= i < |s| :: cut[i].price == s[i].price
    ensures LastBest(s, s', last) == LastBest(cut, s', last)
  {
  }

  lemma CutKeepsLast(s: seq<Entry>, cut: seq<Entry>, last: Price)
    requires |cut| == |s| && forall i | 0 <= i < |s| :: cut[i].price == s[i].price
    requires s != [] ==> last == s[0].price
    ensures LastBest(s, cut, last) == last
  {
  }

  /** A removal that empties a side removed its only order. */
  lemma EmptiedByLast(s: seq<Entry>, uid: UID)
    ensures Remove(s, uid) == [] && s != [] ==> |s| == 1
  {
  }

  lemma UsedUpPlus(done: seq<Fill>, f: Fill)
    ensures UsedUp(done + [f]) == UsedUp(done) + if f.makerLeaves == 0 then {f.uid} else {}
  {
    UsedUpOne(done + [f]);
    assert (done + [f])[..|done|] == done;
  }

  /** Cutting the quantity first and removing an empty order afterwards is one reduction. */
  lemma ReducedThenRemoved(s: seq<Entry>, uid: UID, quantity: Quantity)
    requires Find(s, uid) < |s| && quantity <= s[Find(s, uid)].quantity
    ensures var i := Find(s, uid);
      var cut := s[i := s[i].(quantity := s[i].quantity - quantity)];
      PriceTime.Reduce(s, uid, quantity) == if s[i].quantity == quantity then Remove(cut, uid) else cut
  {
    var i := Find(s, uid);
    var cut := s[i := s[i].(quantity := s[i].quantity - quantity)];
    SameFind(s, cut, uid);
    assert RemoveAt(cut, i) == RemoveAt(s, i);
  }

  // ---------------------------------------------------------------------------
  // The receiver
  // ---------------------------------------------------------------------------

  /** What became of a message: applied, logged because its order is unknown, or an exception. */
  datatype Outcome = Delivered | UnknownOrder | Thrown

  /** What must become of a message that meets this book. */
  function Expected(b: Book, m: FeedMessage): Outcome {
    if !m.DeleteOrder? && !m.Trade? then Delivered
    else if m.uid !in b.AllUids() then UnknownOrder
    else if m.Trade? && m.quantity > Resting(b, m.uid) then Thrown
    else Delivered
  }

  class Receiver {
    const book: DataFeedBook
    var isSessionActive: bool
    var lastSequence: nat

    ghost predicate Valid()
      reads this, book, book.sides.sells, book.sides.buys, book.sides.orders
    {
      book.Valid() && lastSequence < TWO_32
    }

    ghost function Lists(): Book
      reads book.sides.sells, book.sides.buys
    {
      book.sides.Lists()
    }

    constructor ()
      ensures Valid() && Lists() == EMPTY && lastSequence == 0 && !isSessionActive
      ensures fresh(book) && fresh(book.sides.sells) && fresh(book.sides.buys) && fresh(book.sides.orders)
    {
      book := new DataFeedBook();
      isSessionActive, lastSequence := false, 0;
    }

    /** Handle one message. The book demands that a new order's ID is new. A delete or trade of an
        order that is not there is logged, and a trade of more than an order has throws; neither changes
        anything. Every other delete or trade takes effect, wherever in its queue the order is. */
    method Handle(m: FeedMessage) returns (outcome: Outcome)
      requires Valid() && (m.AddOrder? ==> m.uid !in Lists().AllUids())
      modifies this, book, book.sides.sells, book.sides.buys, book.sides.orders
      ensures Valid() && lastSequence == old(lastSequence)
      ensures isSessionActive == SessionAfter(old(isSessionActive), m)
      ensures outcome == Expected(old(Lists()), m)
      ensures outcome == UnknownOrder <==> (m.DeleteOrder? || m.Trade?) && m.uid !in old(Lists()).AllUids()
      ensures outcome == Thrown <==>
        m.Trade? && m.uid in old(Lists()).AllUids() && m.quantity > Resting(old(Lists()), m.uid)
      ensures Lists() ==
        if !outcome.Delivered? then old(Lists())
        else if m.AddOrder? then SubmitLimit(old(Lists()), m.side, m.uid, m.quantity, m.price).book
        else Apply(old(Lists()), m)
      ensures m.Clear? ==> Lists() == EMPTY
      ensures Clean(old(Lists()), m) ==> outcome == Delivered && Lists() == Apply(old(Lists()), m)
    {
      hide SidePair.Valid, Uids, Insert, Match, SideOf, PriceTime.Reduce;
      outcome := Delivered;
      match m {
        case StartOfSession => isSessionActive := true;
        case EndOfSession => isSessionActive := false;
        case Clear => book.Clear();
        case AddOrder(uid, price, quantity, side) =>
          book.Limit(side, uid, quantity, price);
          if !Crosses(old(Lists()), side, price) {
            RestsWhole(old(Lists()), side, uid, quantity, price);
          }
        case DeleteOrder(uid) =>
          if uid !in book.sides.orders.at {
            return UnknownOrder;
          }
          book.Cancel(uid);
        case Trade(uid, price, quantity, side) =>
          FrontQuantity(side, uid);
          if uid !in book.sides.orders.at {
            return UnknownOrder;
          }
          book.Placed(uid);
          var ok := book.Reduce(uid, quantity);
          if !ok {
            return Thrown;
          }
      }
    }

    lemma FrontQuantity(side: Side, uid: UID)
      requires Valid()
      ensures var s := Lists().Of(side.Opposite());
        s != [] && s[0].uid == uid ==> uid in Lists().AllUids() && Resting(Lists(), uid) == s[0].quantity
    {
      hide SidePair.Valid, Uids;
      book.sides.OtherSideApart(Sell);
      FrontIsListed(Lists(), side, uid);
    }

    /** One packet from the wire: check its number, then handle it. */
    method Read(p: Packet<FeedMessage>) returns (warned: bool, outcome: Outcome)
      requires Valid() && p.sequence < TWO_32 && (p.body.AddOrder? ==> p.body.uid !in Lists().AllUids())
      modifies this, book, book.sides.sells, book.sides.buys, book.sides.orders
      ensures Valid() && lastSequence == p.sequence
      ensures warned <==> p.sequence != (old(lastSequence) + 1) % TWO_32
      ensures isSessionActive == SessionAfter(old(isSessionActive), p.body)
      ensures outcome == Expected(old(Lists()), p.body)
      ensures outcome == UnknownOrder <==>
        (p.body.DeleteOrder? || p.body.Trade?) && p.body.uid !in old(Lists()).AllUids()
      ensures outcome == Thrown <==>
        p.body.Trade? && p.body.uid in old(Lists()).AllUids() && p.body.quantity > Resting(old(Lists()), p.body.uid)
      ensures Lists() ==
        if !outcome.Delivered? then old(Lists())
        else if p.body.AddOrder?
        then SubmitLimit(old(Lists()), p.body.side, p.body.uid, p.body.quantity, p.body.price).book
        else Apply(old(Lists()), p.body)
      ensures p.body.Clear? ==> Lists() == EMPTY
      ensures Clean(old(Lists()), p.body) ==> outcome == Delivered && Lists() == Apply(old(Lists()), p.body)
    {
      hide SidePair.Valid, Clean, Apply, DataFeedBook.Valid, Expected, SubmitLimit;
      lastSequence := (lastSequence + 1) % TWO_32;
      warned := p.sequence != lastSequence;
      if warned {
        lastSequence := p.sequence;
      }
      outcome := Handle(p.body);
    }

    /** A receiver that gets packets numbered without gaps, whose messages replay cleanly, warns
        about nothing, applies them all and ends with the replayed book. */
    method ReadAll(packets: seq<Packet<FeedMessage>>) returns (quiet: bool)
      requires Valid() && Numbered(packets, lastSequence + 1) && Replay(Lists(), Bodies(packets)).Some?
      modifies this, book, book.sides.sells, book.sides.buys, book.sides.orders
      ensures Valid() && quiet
      ensures Some(Lists()) == Replay(old(Lists()), Bodies(packets))
      ensures isSessionActive == SessionAfterAll(old(isSessionActive), Bodies(packets))
    {
      hide SidePair.Valid, DataFeedBook.Valid, Clean, Apply, Replay, Bodies, Expected, Uids, Numbered,
        SessionAfter, SessionAfterAll, SubmitLimit;
      quiet := true;
      var n := 0;
      assert packets[0..] == packets;
      while n < |packets|
        invariant n <= |packets| && Valid() && quiet
        invariant lastSequence == (old(lastSequence) + n) % TWO_32
        invariant SessionAfterAll(isSessionActive, Bodies(packets[n..])) ==
                  SessionAfterAll(old(isSessionActive), Bodies(packets))
        invariant Replay(Lists(), Bodies(packets[n..])) == Replay(old(Lists()), Bodies(packets))
      {
        ReplayHead(Lists(), packets[n..]);
        SessionHead(isSessionActive, packets[n..]);
        assert packets[n..][0] == packets[n] && packets[n..][1..] == packets[n + 1..];
        CleanIsNew(Lists(), packets[n].body);
        NumberAt(packets, old(lastSequence) + 1, n);
        var warned, outcome := Read(packets[n]);
        quiet := quiet && !warned && outcome == Delivered;
        n := n + 1;
      }
      NothingLeft(Lists(), packets[n..]);
    }
  }

  lemma NumberAt(packets: seq<Packet<FeedMessage>>, first: nat, n: nat)
    requires Numbered(packets, first) && n < |packets|
    ensures packets[n].sequence == (first + n) % TWO_32 < TWO_32
  {
  }

  lemma NothingLeft(b: Book, packets: seq<Packet<FeedMessage>>)
    requires packets == []
    ensures Replay(b, Bodies(packets)) == Some(b)
    ensures forall active :: SessionAfterAll(active, Bodies(packets)) == active
  {
  }

  lemma SessionHead(active: bool, packets: seq<Packet<FeedMessage>>)
    requires packets != []
    ensures SessionAfterAll(active, Bodies(packets)) ==
            SessionAfterAll(SessionAfter(active, packets[0].body), Bodies(packets[1..]))
  {
    assert Bodies(packets)[1..] == Bodies(packets[1..]);
  }

  lemma RestsWhole(b: Book, side: Side, uid: UID, quantity: Quantity, price: Price)
    requires !Crosses(b, side, price)
    ensures SubmitLimit(b, side, uid, quantity, price).book ==
      b.With(side, Insert(side, b.Of(side), Entry(uid, price, quantity)))
  {
  }

  /** The front order is listed, and what rests of it is what the list shows. */
  lemma FrontIsListed(b: Book, side: Side, uid: UID)
    requires Uids(b.sells) !! Uids(b.buys)
    ensures var s := b.Of(side.Opposite());
      s != [] && s[0].uid == uid ==> uid in b.AllUids() && Resting(b, uid) == s[0].quantity
  {
    var s := b.Of(side.Opposite());
    if s != [] && s[0].uid == uid {
      assert Find(s, uid) == 0;
      assert uid in Uids(s);
      RemainingNone(b.Of(side), uid);
    }
  }

  lemma CleanIsNew(b: Book, m: FeedMessage)
    requires Clean(b, m)
    ensures m.AddOrder? ==> m.uid !in b.AllUids()
  {
  }

  lemma ReplayHead(b: Book, packets: seq<Packet<FeedMessage>>)
    requires packets != [] && Replay(b, Bodies(packets)).Some?
    ensures Clean(b, packets[0].body)
    ensures Replay(b, Bodies(packets)) == Replay(Apply(b, packets[0].body), Bodies(packets[1..]))
  {
    assert Bodies(packets)[1..] == Bodies(packets[1..]);
  }
}
