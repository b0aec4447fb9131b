/**
 The redundant indexes of one side of the book as values, and what it means for them to
 agree: the store of orders with their queue links, the price map and the tree of prices
 all describe the same price-time list. A pointer to an order is its uid, a pointer to a
 limit is its price.
 */
module LimitIndex {
  import opened MarketTypes
  import opened PriceTime
  import opened SearchTree

  /** An order and its links in the queue at its price. Orders on the data feed have no account. */
  datatype Order = Order(
    uid: UID, side: Side, quantity: Quantity, price: Price, account: Option<Username>,
    prev: Option<UID>, next: Option<UID>)

  /** A limit: its running totals and the two ends of its queue. */
  datatype Limit = Limit(count: nat, volume: nat, head: UID, tail: UID)

  type Store = map<UID, Order>

  predicate Shows(o: Order, side: Side, e: Entry) {
    o.uid == e.uid && o.side == side && o.price == e.price && o.quantity == e.quantity
  }

  /** Two versions of an order that differ in their queue links at most. */
  predicate SameData(a: Order, b: Order) {
    b == a.(prev := b.prev, next := b.next)
  }

  predicate Stored(side: Side, s: seq<Entry>, at: Store) {
    forall i | 0 <= i < |s| :: s[i].uid in at && Shows(at[s[i].uid], side, s[i])
  }

  function PrevOf(q: seq<Entry>, i: nat): Option<UID>
    requires i < |q|
  {
    if i == 0 then None else Some(q[i - 1].uid)
  }

  function NextOf(q: seq<Entry>, i: nat): Option<UID>
    requires i < |q|
  {
    if i + 1 == |q| then None else Some(q[i + 1].uid)
  }

  predicate LinkedAt(q: seq<Entry>, at: Store, i: nat)
    requires i < |q|
  {
    q[i].uid in at && at[q[i].uid].prev == PrevOf(q, i) && at[q[i].uid].next == NextOf(q, i)
  }

  /** The links stored with the orders chain them in queue order. */
  predicate Linked(q: seq<Entry>, at: Store) {
    forall i | 0 <= i < |q| :: LinkedAt(q, at, i)
  }

  predicate LimitOk(l: Limit, q: seq<Entry>, at: Store) {
    && q != []
    && l == Limit(|q|, Volume(q), q[0].uid, q[|q| - 1].uid)
    && Linked(q, at)
  }

  /** The price map, the tree of prices, the cached best and the running totals of one side. */
  datatype Index = Index(limits: map<Price, Limit>, root: Tree, best: Option<Price>, count: nat, volume: nat)

  /** Every index describes the same price-time list of stored orders. */
  predicate IndexOk(side: Side, s: seq<Entry>, x: Index, at: Store) {
    match x
    case Index(limits, root, best, count, volume) =>
      && Sorted(side, s) && Distinct(s) && Stored(side, s, at)
      && LevelsOk(s, limits, at)
      && IsBst(root) && Keys(root) == limits.Keys
      && best == BestPrice(s)
      && count == |s| && volume == Volume(s)
  }

  predicate LevelsOk(s: seq<Entry>, limits: map<Price, Limit>, at: Store) {
    && limits.Keys == Prices(s)
    && forall p | p in limits :: LimitOk(limits[p], AtPrice(s, p), at)
  }

  function BestPrice(s: seq<Entry>): Option<Price> {
    if s == [] then None else Some(s[0].price)
  }

  // ---------------------------------------------------------------------------
  // Queues at different prices do not interfere
  // ---------------------------------------------------------------------------

  lemma LinkedFrame(q: seq<Entry>, at: Store, at': Store)
    requires Linked(q, at)
    requires forall i | 0 <= i < |q| && q[i].uid in at :: q[i].uid in at' && at'[q[i].uid] == at[q[i].uid]
    ensures Linked(q, at')
  {
    forall i | 0 <= i < |q|
      ensures LinkedAt(q, at', i)
    {
      assert LinkedAt(q, at, i);
    }
  }

  /** A change that touches only orders outside a queue keeps its links. */
  lemma OtherQueue(s: seq<Entry>, p: Price, at: Store, at': Store, touched: set<UID>)
    requires Linked(AtPrice(s, p), at)
    requires forall i | 0 <= i < |s| && s[i].price == p :: s[i].uid !in touched
    requires forall u | u in at && u !in touched :: u in at' && at'[u] == at[u]
    ensures Linked(AtPrice(s, p), at')
  {
    AtPriceMembers(s, p);
    var q := AtPrice(s, p);
    forall i | 0 <= i < |q| && q[i].uid in at
      ensures q[i].uid in at' && at'[q[i].uid] == at[q[i].uid]
    {
      assert q[i] in s;
    }
    LinkedFrame(q, at, at');
  }

  /** Orders of one queue cannot sit at another price. */
  lemma QueueMembers(s: seq<Entry>, p: Price, touched: set<UID>, p': Price)
    requires Distinct(s) && p != p'
    requires touched <= Uids(AtPrice(s, p))
    ensures forall i | 0 <= i < |s| && s[i].price == p' :: s[i].uid !in touched
  {
    AtPriceMembers(s, p);
    var q := AtPrice(s, p);
    forall u | u in touched
      ensures exists i :: 0 <= i < |s| && s[i].uid == u && s[i].price == p
    {
      var j :| 0 <= j < |q| && q[j].uid == u;
      assert q[j] in s;
    }
  }

  // ---------------------------------------------------------------------------
  // Entering an order
  // ---------------------------------------------------------------------------

  /** Set the best limit to the given one if it is better. */
  function SetBest(side: Side, best: Option<Price>, p: Price): Option<Price> {
    if best.None? || Better(side, p, best.value) then Some(p) else best
  }

  lemma BestAfterInsert(side: Side, s: seq<Entry>, e: Entry)
    requires Sorted(side, s)
    ensures BestPrice(Insert(side, s, e)) == SetBest(side, BestPrice(s), e.price)
    ensures e.price in Prices(s) ==> BestPrice(Insert(side, s, e)) == BestPrice(s)
  {
    if e.price in Prices(s) {
      var i :| 0 <= i < |s| && s[i].price == e.price;
      assert !Better(side, e.price, s[0].price);
    }
  }

  /** The first order at a price opens a limit of its own. */
  lemma OpenLevel(side: Side, s: seq<Entry>, limits: map<Price, Limit>, at: Store, e: Entry)
    requires Sorted(side, s) && LevelsOk(s, limits, at)
    requires e.uid in at && at[e.uid].prev == None == at[e.uid].next
    requires e.price !in limits
    ensures LevelsOk(Insert(side, s, e), limits[e.price := Limit(1, e.quantity, e.uid, e.uid)], at)
  {
    hide Sorted, Insert, AtPrice, Volume;
    InsertPrices(side, s, e);
    AtPriceNone(s, e.price);
    Alone(e, e.price);
    forall p | p in limits || p == e.price
      ensures AtPrice(Insert(side, s, e), p) == if p == e.price then [e] else AtPrice(s, p)
    {
      AtPriceInsert(side, s, e, p);
    }
  }

  function Appended(at: Store, tail: UID, uid: UID): Store
    requires tail in at && uid in at
  {
    at[tail := at[tail].(next := Some(uid))][uid := at[uid].(prev := Some(tail))]
  }

  lemma LinkedAppend(q: seq<Entry>, at: Store, e: Entry)
    requires Linked(q, at) && q != [] && Distinct(q)
    requires e.uid in at && e.uid !in Uids(q) && at[e.uid].next == None
    ensures LinkedAt(q, at, |q| - 1)
    ensures Linked(q + [e], Appended(at, q[|q| - 1].uid, e.uid))
  {
    assert LinkedAt(q, at, |q| - 1);
    var q' := q + [e];
    var at' := Appended(at, q[|q| - 1].uid, e.uid);
    forall i | 0 <= i < |q'|
      ensures LinkedAt(q', at', i)
    {
      if i < |q| {
        assert q[i].uid in Uids(q) && LinkedAt(q, at, i);
        assert i < |q| - 1 ==> q[i].uid != q[|q| - 1].uid;
      }
    }
  }

  lemma JoinOwnQueue(side: Side, s: seq<Entry>, l: Limit, at: Store, e: Entry)
    requires Sorted(side, s) && Distinct(s) && LimitOk(l, AtPrice(s, e.price), at)
    requires e.uid in at && e.uid !in Uids(s) && at[e.uid].next == None
    ensures l.tail in Uids(AtPrice(s, e.price)) && l.tail in Uids(s) && l.tail in at
    ensures LimitOk(Limit(l.count + 1, l.volume + e.quantity, l.head, e.uid),
                    AtPrice(Insert(side, s, e), e.price), Appended(at, l.tail, e.uid))
  {
    var q := AtPrice(s, e.price);
    AtPriceUids(s, e.price);
    AtPriceDistinct(s, e.price);
    assert q[|q| - 1].uid in Uids(q);
    LinkedAppend(q, at, e);
    VolumeConcat(q, [e]);
    AtPriceInsert(side, s, e, e.price);
  }

  lemma JoinOtherQueue(side: Side, s: seq<Entry>, l: Limit, at: Store, e: Entry, tail: UID, p: Price)
    requires Sorted(side, s) && Distinct(s) && LimitOk(l, AtPrice(s, p), at) && p != e.price
    requires e.uid in at && e.uid !in Uids(s) && tail in at && tail in Uids(AtPrice(s, e.price))
    ensures LimitOk(l, AtPrice(Insert(side, s, e), p), Appended(at, tail, e.uid))
  {
    AtPriceInsert(side, s, e, p);
    QueueMembers(s, e.price, {tail}, p);
    assert forall i | 0 <= i < |s| :: s[i].uid in Uids(s);
    OtherQueue(s, p, at, Appended(at, tail, e.uid), {tail, e.uid});
  }

  /** Replacing one limit while every other queue stays in order keeps the levels in order. */
  lemma LevelReplaced(s: seq<Entry>, limits: map<Price, Limit>, at: Store, p: Price, l: Limit)
    requires Prices(s) == limits.Keys + {p}
    requires LimitOk(l, AtPrice(s, p), at)
    requires forall x | x in limits && x != p :: LimitOk(limits[x], AtPrice(s, x), at)
    ensures LevelsOk(s, limits[p := l], at)
  {
  }

  /** A further order at a price joins the back of its queue. */
  lemma JoinLevel(side: Side, s: seq<Entry>, limits: map<Price, Limit>, at: Store, e: Entry)
    requires Sorted(side, s) && Distinct(s) && LevelsOk(s, limits, at)
    requires e.uid in at && e.uid !in Uids(s) && at[e.uid].next == None
    requires e.price in limits
    ensures limits[e.price].tail in Uids(s) && limits[e.price].tail in at
    ensures
      var l := limits[e.price];
      LevelsOk(Insert(side, s, e), limits[e.price := Limit(l.count + 1, l.volume + e.quantity, l.head, e.uid)],
               Appended(at, l.tail, e.uid))
  {
    hide Sorted, Distinct, Linked, Insert, Appended, Uids, AtPrice, Volume, Prices;
    var l := limits[e.price];
    JoinOwnQueue(side, s, l, at, e);
    InsertPrices(side, s, e);
    forall p | p in limits && p != e.price
      ensures LimitOk(limits[p], AtPrice(Insert(side, s, e), p), Appended(at, l.tail, e.uid))
    {
      JoinOtherQueue(side, s, limits[p], at, e, l.tail, p);
    }
    LevelReplaced(Insert(side, s, e), limits, Appended(at, l.tail, e.uid), e.price,
                  Limit(l.count + 1, l.volume + e.quantity, l.head, e.uid));
  }

  // ---------------------------------------------------------------------------
  // Taking an order out
  // ---------------------------------------------------------------------------

  /** The place of the i-th order of the list in the queue at its price. */
  function Place(s: seq<Entry>, i: nat): (k: nat)
    requires i < |s|
    ensures k < |AtPrice(s, s[i].price)| && AtPrice(s, s[i].price)[k] == s[i]
  {
    AtPriceRemoveAt(s, i, s[i].price);
    |AtPrice(s[..i], s[i].price)|
  }

  lemma PlaceRemoved(s: seq<Entry>, i: nat)
    requires i < |s|
    ensures AtPrice(RemoveAt(s, i), s[i].price) == RemoveAt(AtPrice(s, s[i].price), Place(s, i))
  {
    hide AtPrice, RemoveAt;
    var a, b := AtPrice(s[..i], s[i].price), AtPrice(s[i + 1..], s[i].price);
    AtPriceRemoveAt(s, i, s[i].price);
    RemoveMiddle(a, s[i], b);
  }

  lemma RemoveMiddle(a: seq<Entry>, e: Entry, b: seq<Entry>)
    ensures RemoveAt(a + [e] + b, |a|) == a + b
  {
    var q := a + [e] + b;
    assert q[..|a|] == a && q[|a| + 1..] == b;
  }

  /** An order has no neighbours exactly when it is alone at its price. */
  lemma AloneIffNoLinks(s: seq<Entry>, i: nat, limits: map<Price, Limit>, at: Store)
    requires i < |s| && LevelsOk(s, limits, at)
    ensures s[i].uid in at && s[i].price in limits
    ensures at[s[i].uid].prev == None == at[s[i].uid].next <==> AtPrice(s, s[i].price) == [s[i]]
  {
    assert s[i].price in Prices(s);
    var q := AtPrice(s, s[i].price);
    var k := Place(s, i);
    assert LinkedAt(q, at, k);
  }

  lemma PricesRemoveAt(s: seq<Entry>, i: nat)
    requires i < |s|
    ensures Prices(RemoveAt(s, i)) == if AtPrice(s, s[i].price) == [s[i]] then Prices(s) - {s[i].price} else Prices(s)
  {
    hide AtPrice, RemoveAt, Prices;
    forall p: Price
      ensures p in Prices(RemoveAt(s, i)) <==> p in Prices(s) && (p == s[i].price ==> AtPrice(s, p) != [s[i]])
    {
      AtPriceRemoveAt(s, i, p);
      PricesIff(s, p);
      PricesIff(RemoveAt(s, i), p);
    }
  }

  /** The last order at a price takes its limit with it. */
  lemma CloseLevel(s: seq<Entry>, i: nat, limits: map<Price, Limit>, at: Store)
    requires i < |s| && LevelsOk(s, limits, at)
    requires AtPrice(s, s[i].price) == [s[i]]
    ensures LevelsOk(RemoveAt(s, i), limits - {s[i].price}, at)
  {
    PricesRemoveAt(s, i);
    forall p | p in limits && p != s[i].price
      ensures AtPrice(RemoveAt(s, i), p) == AtPrice(s, p)
    {
      AtPriceRemoveAt(s, i, p);
    }
  }

  function SetNext(at: Store, u: Option<UID>, next: Option<UID>): Store {
    if u.Some? && u.value in at then at[u.value := at[u.value].(next := next)] else at
  }

  function SetPrev(at: Store, u: Option<UID>, prev: Option<UID>): Store {
    if u.Some? && u.value in at then at[u.value := at[u.value].(prev := prev)] else at
  }

  /** Bypass an order: its neighbours now point to each other. */
  function Unlinked(at: Store, o: Order): Store {
    SetPrev(SetNext(at, o.prev, o.next), o.next, o.prev)
  }

  lemma LinkedRemove(q: seq<Entry>, k: nat, at: Store)
    requires Linked(q, at) && Distinct(q) && k < |q|
    ensures LinkedAt(q, at, k)
    ensures Linked(RemoveAt(q, k), Unlinked(at, at[q[k].uid]))
  {
    assert LinkedAt(q, at, k);
    var r := RemoveAt(q, k);
    var at' := Unlinked(at, at[q[k].uid]);
    assert forall j | 0 <= j < |r| :: r[j] == q[if j < k then j else j + 1];
    forall j | 0 <= j < |r|
      ensures LinkedAt(r, at', j)
    {
      var i := if j < k then j else j + 1;
      assert LinkedAt(q, at, i);
      assert k > 0 && i != k - 1 ==> q[i].uid != q[k - 1].uid;
      assert k + 1 < |q| && i != k + 1 ==> q[i].uid != q[k + 1].uid;
    }
  }

  function Shrunk(l: Limit, o: Order): Limit
    requires l.count > 0 && l.volume >= o.quantity
  {
    Limit(l.count - 1, l.volume - o.quantity,
          if o.prev.None? && o.next.Some? then o.next.value else l.head,
          if o.next.None? && o.prev.Some? then o.prev.value else l.tail)
  }

  lemma LeaveOwnQueue(q: seq<Entry>, k: nat, l: Limit, at: Store)
    requires k < |q| && |q| > 1 && Distinct(q) && LimitOk(l, q, at)
    requires LinkedAt(q, at, k) && at[q[k].uid].quantity == q[k].quantity
    ensures l.count > 0 && l.volume >= q[k].quantity
    ensures LimitOk(Shrunk(l, at[q[k].uid]), RemoveAt(q, k), Unlinked(at, at[q[k].uid]))
  {
    LinkedRemove(q, k, at);
    VolumeRemoveAt(q, k);
  }

  /** The orders whose links an unlinking may touch. */
  function Neighbours(o: Order): set<UID> {
    (if o.prev.Some? then {o.prev.value} else {}) + (if o.next.Some? then {o.next.value} else {})
  }

  lemma NeighboursInQueue(q: seq<Entry>, k: nat, at: Store)
    requires k < |q| && LinkedAt(q, at, k)
    ensures Neighbours(at[q[k].uid]) <= Uids(q)
  {
    if k > 0 { assert q[k - 1].uid in Uids(q); }
    if k + 1 < |q| { assert q[k + 1].uid in Uids(q); }
  }

  lemma LeaveOtherQueue(s: seq<Entry>, i: nat, l: Limit, at: Store, p: Price)
    requires i < |s| && Distinct(s) && p != s[i].price
    requires Linked(AtPrice(s, s[i].price), at) && LimitOk(l, AtPrice(s, p), at)
    ensures s[i].uid in at && LimitOk(l, AtPrice(RemoveAt(s, i), p), Unlinked(at, at[s[i].uid]))
  {
    var k := Place(s, i);
    assert LinkedAt(AtPrice(s, s[i].price), at, k);
    NeighboursInQueue(AtPrice(s, s[i].price), k, at);
    AtPriceRemoveAt(s, i, p);
    QueueMembers(s, s[i].price, Neighbours(at[s[i].uid]), p);
    OtherQueue(s, p, at, Unlinked(at, at[s[i].uid]), Neighbours(at[s[i].uid]));
  }

  lemma LeaveOwnLevel(s: seq<Entry>, i: nat, l: Limit, at: Store)
    requires i < |s| && Distinct(s) && LimitOk(l, AtPrice(s, s[i].price), at)
    requires s[i].uid in at && at[s[i].uid].quantity == s[i].quantity
    requires AtPrice(s, s[i].price) != [s[i]]
    ensures l.count > 0 && l.volume >= s[i].quantity
    ensures LimitOk(Shrunk(l, at[s[i].uid]), AtPrice(RemoveAt(s, i), s[i].price), Unlinked(at, at[s[i].uid]))
  {
    var q := AtPrice(s, s[i].price);
    var k := Place(s, i);
    AtPriceDistinct(s, s[i].price);
    PlaceRemoved(s, i);
    assert LinkedAt(q, at, k);
    LeaveOwnQueue(q, k, l, at);
  }

  /** An order with company leaves its queue; the limit stays. */
  lemma LeaveLevel(s: seq<Entry>, i: nat, limits: map<Price, Limit>, at: Store)
    requires i < |s| && Distinct(s) && LevelsOk(s, limits, at)
    requires s[i].uid in at && at[s[i].uid].quantity == s[i].quantity
    requires AtPrice(s, s[i].price) != [s[i]]
    ensures s[i].price in limits
    ensures limits[s[i].price].count > 0 && limits[s[i].price].volume >= s[i].quantity
    ensures
      var o := at[s[i].uid];
      LevelsOk(RemoveAt(s, i), limits[s[i].price := Shrunk(limits[s[i].price], o)], Unlinked(at, o))
  {
    hide Distinct, Linked, Unlinked, Shrunk;
    var p := s[i].price;
    assert p in Prices(s);
    LeaveOwnLevel(s, i, limits[p], at);
    PricesRemoveAt(s, i);
    forall x | x in limits && x != p
      ensures LimitOk(limits[x], AtPrice(RemoveAt(s, i), x), Unlinked(at, at[s[i].uid]))
    {
      LeaveOtherQueue(s, i, limits[x], at, x);
    }
    LevelReplaced(RemoveAt(s, i), limits, Unlinked(at, at[s[i].uid]), p, Shrunk(limits[p], at[s[i].uid]));
  }

  // ---------------------------------------------------------------------------
  // Taking quantity off an order that stays
  // ---------------------------------------------------------------------------

  lemma LinkedSameUids(q: seq<Entry>, q': seq<Entry>, at: Store, at': Store)
    requires Linked(q, at) && |q| == |q'|
    requires forall j | 0 <= j < |q| :: q'[j].uid == q[j].uid
    requires forall u | u in at :: u in at' && at'[u].prev == at[u].prev && at'[u].next == at[u].next
    ensures Linked(q', at')
  {
    forall j | 0 <= j < |q'|
      ensures LinkedAt(q', at', j)
    {
      assert LinkedAt(q, at, j);
    }
  }

  lemma PlaceUpdated(s: seq<Entry>, i: nat, e: Entry)
    requires i < |s| && e.price == s[i].price
    ensures AtPrice(s[i := e], e.price) == AtPrice(s, e.price)[Place(s, i) := e]
  {
    hide AtPrice;
    var a, b := AtPrice(s[..i], e.price), AtPrice(s[i + 1..], e.price);
    AtPriceUpdate(s, i, e, e.price);
    assert (a + [s[i]] + b)[|a| := e] == a + [e] + b;
  }

  lemma ReduceOwnQueue(s: seq<Entry>, i: nat, e: Entry, l: Limit, at: Store, at': Store)
    requires i < |s| && e == s[i].(quantity := e.quantity) && e.quantity <= s[i].quantity
    requires LimitOk(l, AtPrice(s, e.price), at)
    requires forall u | u in at :: u in at' && at'[u].prev == at[u].prev && at'[u].next == at[u].next
    ensures l.volume >= s[i].quantity - e.quantity
    ensures LimitOk(l.(volume := l.volume - (s[i].quantity - e.quantity)), AtPrice(s[i := e], e.price), at')
  {
    hide Linked, AtPrice, Volume, Place;
    var q := AtPrice(s, e.price);
    var k := Place(s, i);
    PlaceUpdated(s, i, e);
    VolumeRemoveAt(q, k);
    VolumeUpdate(q, k, e);
    LinkedSameUids(q, q[k := e], at, at');
  }

  lemma PricesUpdate(s: seq<Entry>, i: nat, e: Entry)
    requires i < |s| && e.price == s[i].price
    ensures Prices(s[i := e]) == Prices(s)
  {
    assert forall j | 0 <= j < |s| :: s[i := e][j].price == s[j].price;
  }

  /** Taking quantity off an order lowers its limit's volume by as much and moves nobody. */
  lemma ReduceLevel(s: seq<Entry>, i: nat, e: Entry, limits: map<Price, Limit>, at: Store, at': Store)
    requires i < |s| && e == s[i].(quantity := e.quantity) && e.quantity <= s[i].quantity
    requires LevelsOk(s, limits, at)
    requires forall u | u in at :: u in at' && at'[u].prev == at[u].prev && at'[u].next == at[u].next
    ensures e.price in limits && limits[e.price].volume >= s[i].quantity - e.quantity
    ensures
      var l := limits[e.price];
      LevelsOk(s[i := e], limits[e.price := l.(volume := l.volume - (s[i].quantity - e.quantity))], at')
  {
    hide Linked, AtPrice, Volume;
    assert e.price in Prices(s);
    PricesUpdate(s, i, e);
    hide Prices;
    ReduceOwnQueue(s, i, e, limits[e.price], at, at');
    forall p | p in limits && p != e.price
      ensures LimitOk(limits[p], AtPrice(s[i := e], p), at')
    {
      AtPriceUpdate(s, i, e, p);
      LinkedSameUids(AtPrice(s, p), AtPrice(s, p), at, at');
    }
    var l := limits[e.price];
    LevelReplaced(s[i := e], limits, at', e.price, l.(volume := l.volume - (s[i].quantity - e.quantity)));
  }

  // ---------------------------------------------------------------------------
  // The cached best price
  // ---------------------------------------------------------------------------

  lemma FirstIsBest(side: Side, s: seq<Entry>)
    requires Sorted(side, s) && s != []
    ensures IsBest(side, Prices(s), s[0].price)
  {
    assert s[0].price in Prices(s);
  }

  lemma BestFromPrices(side: Side, s: seq<Entry>, k: Price)
    requires Sorted(side, s) && IsBest(side, Prices(s), k)
    ensures BestPrice(s) == Some(k)
  {
    FirstIsBest(side, s);
  }

  /** Removing an order: chase pointers if the best limit closed, otherwise keep the best. */
  lemma BestAfterRemove(side: Side, s: seq<Entry>, i: nat, root: Tree)
    requires i < |s| && Sorted(side, s) && IsBst(root) && Keys(root) == Prices(s)
    ensures
      var p := s[i].price;
      if AtPrice(s, p) == [s[i]] && p == s[0].price then
        BestPrice(RemoveAt(s, i)) == FindBest(side, root, Delete(root, p), p)
      else
        BestPrice(RemoveAt(s, i)) == BestPrice(s)
  {
    var p, s' := s[i].price, RemoveAt(s, i);
    RemoveAtKeepsOrder(side, s, i);
    PricesRemoveAt(s, i);
    FirstIsBest(side, s);
    if AtPrice(s, p) == [s[i]] && p == s[0].price {
      FindBestCorrect(side, root, p);
      var b := FindBest(side, root, Delete(root, p), p);
      assert s' != [] ==> s'[0].price in Prices(s');
      if b.Some? {
        BestFromPrices(side, s', b.value);
      }
    } else {
      BestFromPrices(side, s', s[0].price);
    }
  }

  // ---------------------------------------------------------------------------
  // Framing: a side looks only at its own orders
  // ---------------------------------------------------------------------------

  predicate Agree(uids: set<UID>, at: Store, at': Store) {
    forall u | u in uids && u in at :: u in at' && at'[u] == at[u]
  }

  /** Only queue links changed, and only those of the given orders. */
  predicate Relinked(uids: set<UID>, at: Store, at': Store) {
    && at'.Keys == at.Keys
    && (forall u | u in at :: SameData(at[u], at'[u]))
    && forall u | u in at && u !in uids :: at'[u] == at[u]
  }

  lemma LevelsFrame(s: seq<Entry>, limits: map<Price, Limit>, at: Store, at': Store)
    requires LevelsOk(s, limits, at) && Agree(Uids(s), at, at')
    ensures LevelsOk(s, limits, at')
  {
    forall p | p in limits
      ensures Linked(AtPrice(s, p), at')
    {
      AtPriceUids(s, p);
      var q := AtPrice(s, p);
      assert forall i | 0 <= i < |q| :: q[i].uid in Uids(q);
      LinkedFrame(q, at, at');
    }
  }

  lemma StoredFrame(side: Side, s: seq<Entry>, at: Store, at': Store)
    requires Stored(side, s, at) && Agree(Uids(s), at, at')
    ensures Stored(side, s, at')
  {
    assert forall i | 0 <= i < |s| :: s[i].uid in Uids(s);
  }

  lemma StoredInsert(side: Side, s: seq<Entry>, e: Entry, at: Store, at': Store)
    requires Stored(side, s, at) && e.uid in at' && Shows(at'[e.uid], side, e)
    requires forall u | u in at :: u in at' && SameData(at[u], at'[u])
    ensures Stored(side, Insert(side, s, e), at')
  {
    var k, r := Position(side, s, e.price), Insert(side, s, e);
    assert forall i | 0 <= i < |r| :: r[i] == if i < k then s[i] else if i == k then e else s[i - 1];
  }

  lemma StoredRemoveAt(side: Side, s: seq<Entry>, i: nat, at: Store, at': Store)
    requires i < |s| && Stored(side, s, at)
    requires forall u | u in at :: u in at' && SameData(at[u], at'[u])
    ensures Stored(side, RemoveAt(s, i), at')
  {
    var r := RemoveAt(s, i);
    assert forall j | 0 <= j < |r| :: r[j] == s[if j < i then j else j + 1];
  }

  lemma UnlinkedSameData(at: Store, o: Order)
    ensures Unlinked(at, o).Keys == at.Keys
    ensures forall u | u in at :: SameData(at[u], Unlinked(at, o)[u])
    ensures forall u | u in at && u !in Neighbours(o) :: Unlinked(at, o)[u] == at[u]
  {
  }

  // ---------------------------------------------------------------------------
  // The five ways a side changes
  // ---------------------------------------------------------------------------

  lemma InsertFacts(side: Side, s: seq<Entry>, x: Index, at: Store, e: Entry, at': Store)
    requires IndexOk(side, s, x, at) && e.uid !in Uids(s)
    requires e.uid in at' && Shows(at'[e.uid], side, e)
    requires forall u | u in at :: u in at' && SameData(at[u], at'[u])
    ensures var s' := Insert(side, s, e);
      && Sorted(side, s') && Distinct(s') && Stored(side, s', at') && Volume(s') == Volume(s) + e.quantity
      && BestPrice(s') == if e.price in x.limits then x.best else SetBest(side, x.best, e.price)
  {
    InsertKeepsOrder(side, s, e);
    InsertDistinct(side, s, e);
    VolumeInsert(side, s, e);
    BestAfterInsert(side, s, e);
    StoredInsert(side, s, e, at, at');
  }

  lemma Opened(side: Side, s: seq<Entry>, x: Index, at: Store, e: Entry, x': Index)
    requires IndexOk(side, s, x, at) && e.uid !in Uids(s)
    requires e.uid in at && Shows(at[e.uid], side, e) && at[e.uid].prev == None == at[e.uid].next
    requires e.price !in x.limits
    requires x' == Index(x.limits[e.price := Limit(1, e.quantity, e.uid, e.uid)], Add(x.root, e.price),
                         SetBest(side, x.best, e.price), x.count + 1, x.volume + e.quantity)
    ensures IndexOk(side, Insert(side, s, e), x', at)
  {
    hide Sorted, Distinct, Stored, LevelsOk, IsBst;
    InsertFacts(side, s, x, at, e, at);
    OpenLevel(side, s, x.limits, at, e);
    AddKeys(x.root, e.price);
  }

  lemma Joined(side: Side, s: seq<Entry>, x: Index, at: Store, e: Entry, x': Index, at': Store)
    requires IndexOk(side, s, x, at) && e.uid !in Uids(s)
    requires e.uid in at && Shows(at[e.uid], side, e) && at[e.uid].prev == None == at[e.uid].next
    requires e.price in x.limits && x.limits[e.price].tail in at
    requires var l := x.limits[e.price];
      && at' == Appended(at, l.tail, e.uid)
      && x' == x.(limits := x.limits[e.price := Limit(l.count + 1, l.volume + e.quantity, l.head, e.uid)],
                  count := x.count + 1, volume := x.volume + e.quantity)
    ensures IndexOk(side, Insert(side, s, e), x', at')
  {
    hide Sorted, Distinct, Stored, LevelsOk, IsBst;
    InsertFacts(side, s, x, at, e, at');
    JoinLevel(side, s, x.limits, at, e);
  }

  lemma RemoveFacts(side: Side, s: seq<Entry>, x: Index, at: Store, i: nat, at': Store)
    requires IndexOk(side, s, x, at) && i < |s|
    requires forall u | u in at :: u in at' && SameData(at[u], at'[u])
    ensures var s', p := RemoveAt(s, i), s[i].price;
      && Sorted(side, s') && Distinct(s') && Stored(side, s', at') && Volume(s') == Volume(s) - s[i].quantity
      && BestPrice(s') == if AtPrice(s, p) == [s[i]] && x.best == Some(p)
                          then FindBest(side, x.root, Delete(x.root, p), p) else x.best
  {
    RemoveAtKeepsOrder(side, s, i);
    RemoveAtMembers(s, i);
    VolumeRemoveAt(s, i);
    BestAfterRemove(side, s, i, x.root);
    StoredRemoveAt(side, s, i, at, at');
  }

  lemma Closed(side: Side, s: seq<Entry>, x: Index, at: Store, i: nat, x': Index)
    requires IndexOk(side, s, x, at) && i < |s| && AtPrice(s, s[i].price) == [s[i]]
    requires var p := s[i].price;
      && x'.limits == x.limits - {p} && x'.root == Delete(x.root, p)
      && x'.best == (if x.best == Some(p) then FindBest(side, x.root, x'.root, p) else x.best)
      && x'.count == x.count - 1 && x'.volume == x.volume - s[i].quantity
    ensures IndexOk(side, RemoveAt(s, i), x', at)
  {
    hide Sorted, Distinct, Stored, LevelsOk, IsBst;
    RemoveFacts(side, s, x, at, i, at);
    CloseLevel(s, i, x.limits, at);
    DeleteKeys(x.root, s[i].price);
  }

  lemma Left(side: Side, s: seq<Entry>, x: Index, at: Store, i: nat, x': Index, at': Store)
    requires IndexOk(side, s, x, at) && i < |s| && AtPrice(s, s[i].price) != [s[i]]
    requires s[i].uid in at && at' == Unlinked(at, at[s[i].uid])
    requires s[i].price in x.limits && x.limits[s[i].price].count > 0 && x.limits[s[i].price].volume >= s[i].quantity
    requires at[s[i].uid].quantity == s[i].quantity
    requires x'.limits == x.limits[s[i].price := Shrunk(x.limits[s[i].price], at[s[i].uid])]
    requires x'.root == x.root && x'.best == x.best
    requires x'.count == x.count - 1 && x'.volume == x.volume - s[i].quantity
    ensures IndexOk(side, RemoveAt(s, i), x', at')
  {
    hide Sorted, Distinct, Stored, LevelsOk, IsBst;
    UnlinkedSameData(at, at[s[i].uid]);
    RemoveFacts(side, s, x, at, i, at');
    LeaveLevel(s, i, x.limits, at);
  }

  lemma ReduceFacts(side: Side, s: seq<Entry>, i: nat, e: Entry, at: Store)
    requires i < |s| && Sorted(side, s) && Distinct(s) && Stored(side, s, at)
    requires e == s[i].(quantity := e.quantity)
    ensures Sorted(side, s[i := e]) && Distinct(s[i := e])
    ensures Stored(side, s[i := e], at[e.uid := at[e.uid].(quantity := e.quantity)])
  {
    assert forall j | 0 <= j < |s| :: s[i := e][j].uid == s[j].uid && s[i := e][j].price == s[j].price;
  }

  lemma Reduced(side: Side, s: seq<Entry>, x: Index, at: Store, i: nat, e: Entry, x': Index, at': Store)
    requires IndexOk(side, s, x, at) && i < |s|
    requires e == s[i].(quantity := e.quantity) && e.quantity <= s[i].quantity
    requires e.uid in at && at' == at[e.uid := at[e.uid].(quantity := e.quantity)]
    requires e.price in x.limits
    requires var cut, l := s[i].quantity - e.quantity, x.limits[e.price];
      && l.volume >= cut && x.volume >= cut
      && x' == x.(limits := x.limits[e.price := l.(volume := l.volume - cut)], volume := x.volume - cut)
    ensures IndexOk(side, s[i := e], x', at')
  {
    hide Sorted, Distinct, Stored, LevelsOk, IsBst;
    ReduceLevel(s, i, e, x.limits, at, at');
    VolumeUpdate(s, i, e);
    ReduceFacts(side, s, i, e, at);
  }

  // ---------------------------------------------------------------------------
  // The levels determine the list
  // ---------------------------------------------------------------------------

  /** Two sides with the same queue at every price are the same list, so agreeing limits
      leave no freedom in price-time order. */
  lemma {:induction false} LevelsDetermineList(side: Side, s: seq<Entry>, t: seq<Entry>)
    requires Sorted(side, s) && Sorted(side, t)
    requires forall p: Price :: AtPrice(s, p) == AtPrice(t, p)
    ensures s == t
  {
    assert s != [] ==> AtPrice(t, s[0].price) == AtPrice(s, s[0].price) != [];
    assert t != [] ==> AtPrice(s, t[0].price) == AtPrice(t, t[0].price) != [];
    if s != [] && t != [] {
      PricesIff(s, s[0].price);
      PricesIff(t, s[0].price);
      PricesIff(s, t[0].price);
      PricesIff(t, t[0].price);
      FirstIsBest(side, s);
      FirstIsBest(side, t);
      assert s[0].price == t[0].price;
      assert AtPrice(s, s[0].price) == AtPrice(t, s[0].price);
      assert s[0] == AtPrice(s, s[0].price)[0] == AtPrice(t, s[0].price)[0] == t[0];
      forall p: Price
        ensures AtPrice(s[1..], p) == AtPrice(t[1..], p)
      {
        var head := if s[0].price == p then [s[0]] else [];
        assert AtPrice(s, p) == head + AtPrice(s[1..], p);
        assert AtPrice(t, p) == head + AtPrice(t[1..], p);
        assert AtPrice(s[1..], p) == AtPrice(s, p)[|head|..];
      }
      LevelsDetermineList(side, s[1..], t[1..]);
    }
  }
}
