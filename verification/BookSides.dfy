/** Both sides of a book over one map of orders; the server's book and the receiver's share this part. */
module BookSides {
  import opened MarketTypes
  import opened PriceTime
  import opened SearchTree
  import opened LimitIndex
  import opened LimitTrees
  import opened Sweeps
  import opened Books

  /** From one store to the next: the given orders are gone, only touched ones changed at all, and
      none changed hands. */
  predicate StoreStep(at: Store, at': Store, touched: set<UID>, gone: set<UID>) {
    && at'.Keys == at.Keys - gone
    && (forall u | u in at' :: at'[u].account == at[u].account)
    && forall u | u in at' && u !in touched :: at'[u] == at[u]
  }

  lemma StoreStepThen(at: Store, at': Store, at'': Store, touched: set<UID>, fewer: set<UID>, gone: set<UID>,
                      gone': set<UID>)
    requires StoreStep(at, at', touched, gone) && StoreStep(at', at'', fewer, gone') && fewer <= touched
    ensures StoreStep(at, at'', touched, gone + gone')
  {
  }

  lemma StoreKeys(at: Store, at': Store, touched: set<UID>, gone: set<UID>)
    requires StoreStep(at, at', touched, gone)
    ensures at'.Keys == at.Keys - gone
  {
  }

  /** Unfolding one iteration of a sweep. */
  lemma MatchUnfold(side: Side, s: seq<Entry>, price: Price, quantity: Quantity)
    requires s != [] && CanMatch(side, s[0].price, price)
    ensures var m := Match(side, s, price, quantity);
      if s[0].quantity >= quantity then
        && m.fills == [HeadFill(s[0], quantity)] && m.residual == 0
        && m.rest == (if s[0].quantity == quantity then s[1..] else s[0 := s[0].(quantity := s[0].quantity - quantity)])
      else
        var r := Match(side, s[1..], price, quantity - s[0].quantity);
        m.fills == [HeadFill(s[0], quantity)] + r.fills && m.residual == r.residual && m.rest == r.rest
  {
    assert Find(s, s[0].uid) == 0;
    assert RemoveAt(s, 0) == s[1..];
  }

  lemma MatchStop(side: Side, s: seq<Entry>, price: Price, quantity: Quantity)
    requires s == [] || !CanMatch(side, s[0].price, price)
    ensures Match(side, s, price, quantity) == Sweep(s, quantity, [])
  {
  }

  lemma FrontFacts(s: seq<Entry>)
    requires s != []
    ensures Find(s, s[0].uid) == 0 && Remove(s, s[0].uid) == s[1..] && |s[1..]| < |s|
  {
    assert RemoveAt(s, 0) == s[1..];
  }

  class SidePair {
    const sells: LimitTree
    const buys: LimitTree
    const orders: OrderMap

    /** Both sides are in order over the shared orders and hold different ones. */
    ghost predicate Valid()
      reads sells, buys, orders
    {
      && sells.side == Sell && buys.side == Buy
      && sells.Valid(orders.at) && buys.Valid(orders.at)
      && Uids(sells.contents) !! Uids(buys.contents)
    }

    ghost function Lists(): Book
      reads sells, buys
    {
      Book(sells.contents, buys.contents)
    }

    function Tree(side: Side): LimitTree
    {
      if side.Sell? then sells else buys
    }

    constructor ()
      ensures Valid() && Lists() == EMPTY && orders.at == map[]
      ensures fresh(sells) && fresh(buys) && fresh(orders)
    {
      sells := new LimitTree(Sell);
      buys := new LimitTree(Buy);
      orders := new OrderMap();
    }

    /** Take a used up order off its side and out of the order map. */
    method Consume(side: Side, uid: UID)
      requires Valid() && uid in Uids(Tree(side).contents)
      modifies Tree(side), orders
      ensures Valid()
      ensures Tree(side).contents == Remove(old(Tree(side).contents), uid)
      ensures Uids(Tree(side).contents) == old(Uids(Tree(side).contents)) - {uid}
      ensures StoreStep(old(orders.at), orders.at, old(Uids(Tree(side).contents)), {uid})
    {
      hide IndexOk;
      var tree, other := Tree(side), Tree(side.Opposite());
      ghost var touched := Uids(tree.contents);
      tree.Withdraw(orders, uid);
      ghost var at := orders.at;
      orders.at := orders.at - {uid};
      tree.Frame(at, orders.at);
      other.Frame(old(orders.at), orders.at);
    }

    /** Take quantity off the front order of a side. */
    method Reduce(side: Side, uid: UID, cut: Quantity)
      requires Valid() && uid in Uids(Tree(side).contents)
      requires uid in orders.at && cut <= orders.at[uid].quantity
      modifies Tree(side), orders
      ensures Valid()
      ensures var s, i := old(Tree(side).contents), Find(old(Tree(side).contents), uid);
        i < |s| && cut <= s[i].quantity && Tree(side).contents == s[i := s[i].(quantity := s[i].quantity - cut)]
      ensures Uids(Tree(side).contents) == old(Uids(Tree(side).contents))
      ensures StoreStep(old(orders.at), orders.at, old(Uids(Tree(side).contents)), {})
      ensures uid in orders.at && orders.at[uid].quantity == old(orders.at)[uid].quantity - cut
    {
      hide IndexOk;
      var tree, other := Tree(side), Tree(side.Opposite());
      tree.Shave(orders, uid, cut);
      other.Frame(old(orders.at), orders.at);
    }

    /** The front of a side, by index and by list. */
    lemma FrontOf(side: Side)
      requires Valid()
      ensures var tree := Tree(side);
        && tree.side == side && tree.best == BestPrice(tree.contents)
        && (tree.contents != [] ==>
              && tree.best.value in tree.limits && tree.limits[tree.best.value].head == tree.contents[0].uid
              && tree.contents[0].uid in orders.at && Shows(orders.at[tree.contents[0].uid], side, tree.contents[0])
              && tree.contents[0].uid in Uids(tree.contents) && Find(tree.contents, tree.contents[0].uid) == 0)
    {
      hide IndexOk;
      Tree(side).Front(orders.at);
    }

    lemma SweepUids(tree: LimitTree, at: Store, price: Price, quantity: Quantity)
      requires tree.Valid(at)
      ensures var m := Match(tree.side, tree.contents, price, quantity);
        && Uids(m.rest) == Uids(tree.contents) - UsedUp(m.fills)
        && UsedUp(m.fills) <= Uids(tree.contents)
    {
      hide Match, After, Sorted, Stored, LevelsOk, IsBst, UsedUp;
      var m := Match(tree.side, tree.contents, price, quantity);
      SweepShape(tree.side, tree.contents, price, quantity);
      SweptUids(tree.contents, m.fills);
      UsedUpIsPrefix(tree.contents, m.fills);
      PrefixUids(tree.contents, Gone(m.fills));
    }

    lemma OtherSideApart(side: Side)
      requires Valid()
      ensures Tree(side) != Tree(side.Opposite())
      ensures Uids(Tree(side).contents) !! Uids(Tree(side.Opposite()).contents)
    {
    }
  }
}
