/**
 One side of the book as a plain list: best price first, and first come first served at
 equal prices. This is the reference against which the indexed limit trees are proved.
 */
module PriceTime {
  import opened MarketTypes

  /** p is a strictly better resting price than q on the given side. */
  predicate Better(side: Side, p: Price, q: Price) {
    if side.Buy? then p > q else p < q
  }

  /** A resting order on `side` at `limit` is acceptable to an incoming order at `market`;
      price 0 is the sentinel for "any price". */
  predicate CanMatch(side: Side, limit: Price, market: Price) {
    market == 0 || if side.Buy? then market <= limit else market >= limit
  }

  predicate Sorted(side: Side, s: seq<Entry>) {
    forall i, j | 0 <= i < j < |s| :: !Better(side, s[j].price, s[i].price)
  }

  predicate Distinct(s: seq<Entry>) {
    forall i, j | 0 <= i < j < |s| :: s[i].uid != s[j].uid
  }

  function Uids(s: seq<Entry>): set<UID> {
    set i | 0 <= i < |s| :: s[i].uid
  }

  function Prices(s: seq<Entry>): set<Price> {
    set i | 0 <= i < |s| :: s[i].price
  }

  function Volume(s: seq<Entry>): nat {
    if s == [] then 0 else s[0].quantity + Volume(s[1..])
  }

  /** The queue of orders at one price, in list order. */
  function AtPrice(s: seq<Entry>, p: Price): seq<Entry> {
    if s == [] then [] else (if s[0].price == p then [s[0]] else []) + AtPrice(s[1..], p)
  }

  /** The index of the first order with this uid, or |s|. */
  function Find(s: seq<Entry>, uid: UID): (i: nat)
    ensures i <= |s|
    ensures i < |s| ==> s[i].uid == uid
    ensures forall j | 0 <= j < i :: s[j].uid != uid
  {
    if s == [] || s[0].uid == uid then 0 else 1 + Find(s[1..], uid)
  }

  /** Where a new order at this price goes: behind every order that is at least as good. */
  function Position(side: Side, s: seq<Entry>, price: Price): (i: nat)
    ensures i <= |s|
    ensures i < |s| ==> Better(side, price, s[i].price)
    ensures forall j | 0 <= j < i :: !Better(side, price, s[j].price)
  {
    if s == [] || Better(side, price, s[0].price) then 0 else 1 + Position(side, s[1..], price)
  }

  function Insert(side: Side, s: seq<Entry>, e: Entry): seq<Entry> {
    var k := Position(side, s, e.price);
    s[..k] + [e] + s[k..]
  }

  function RemoveAt(s: seq<Entry>, i: nat): seq<Entry>
    requires i < |s|
  {
    s[..i] + s[i + 1..]
  }

  function Remove(s: seq<Entry>, uid: UID): seq<Entry> {
    var i := Find(s, uid);
    if i < |s| then RemoveAt(s, i) else s
  }

  /** Take `quantity` off the order with this uid; the order leaves once nothing remains. */
  function Reduce(s: seq<Entry>, uid: UID, quantity: Quantity): seq<Entry> {
    var i := Find(s, uid);
    if i == |s| || s[i].quantity < quantity then s
    else if s[i].quantity == quantity then RemoveAt(s, i)
    else s[i := s[i].(quantity := s[i].quantity - quantity)]
  }

  /** What rests of the order with this uid; nothing if it is not there. */
  function Remaining(s: seq<Entry>, uid: UID): nat {
    if Find(s, uid) < |s| then s[Find(s, uid)].quantity else 0
  }

  // ---------------------------------------------------------------------------
  // Sweeping a side with an incoming order
  // ---------------------------------------------------------------------------

  datatype Sweep = Sweep(rest: seq<Entry>, residual: Quantity, fills: seq<Fill>)

  function HeadFill(e: Entry, quantity: Quantity): Fill {
    var q: Quantity := Min(e.quantity, quantity);
    Fill(e.uid, e.price, q, e.quantity - q, quantity - q)
  }

  function Match(side: Side, s: seq<Entry>, price: Price, quantity: Quantity): Sweep {
    if s == [] || !CanMatch(side, s[0].price, price) then
      Sweep(s, quantity, [])
    else if s[0].quantity >= quantity then
      Sweep(Reduce(s, s[0].uid, quantity), 0, [HeadFill(s[0], quantity)])
    else
      var r := Match(side, s[1..], price, quantity - s[0].quantity);
      Sweep(r.rest, r.residual, [HeadFill(s[0], quantity)] + r.fills)
  }

  // ---------------------------------------------------------------------------
  // Lists, queues and sums
  // ---------------------------------------------------------------------------

  /** A queue of one. */
  lemma Alone(e: Entry, p: Price)
    ensures Volume([e]) == e.quantity
    ensures AtPrice([e], p) == if e.price == p then [e] else []
  {
  }

  lemma {:induction false} VolumeConcat(a: seq<Entry>, b: seq<Entry>)
    ensures Volume(a + b) == Volume(a) + Volume(b)
  {
    if a == [] {
      assert a + b == b;
    } else {
      assert (a + b)[1..] == a[1..] + b;
      VolumeConcat(a[1..], b);
    }
  }

  lemma {:induction false} AtPriceConcat(a: seq<Entry>, b: seq<Entry>, p: Price)
    ensures AtPrice(a + b, p) == AtPrice(a, p) + AtPrice(b, p)
  {
    if a == [] {
      assert a + b == b;
    } else {
      assert (a + b)[1..] == a[1..] + b;
      AtPriceConcat(a[1..], b, p);
      var head, x, y := if a[0].price == p then [a[0]] else [], AtPrice(a[1..], p), AtPrice(b, p);
      assert AtPrice(a + b, p) == head + (x + y);
      assert AtPrice(a, p) == head + x;
    }
  }

  /** The queue at a price holds exactly the list's orders at that price. */
  lemma {:induction false} AtPriceMembers(s: seq<Entry>, p: Price)
    ensures forall e :: e in AtPrice(s, p) <==> e in s && e.price == p
    ensures |AtPrice(s, p)| <= |s|
  {
    if s != [] {
      AtPriceMembers(s[1..], p);
      assert s == [s[0]] + s[1..];
    }
  }

  lemma AtPriceUids(s: seq<Entry>, p: Price)
    ensures Uids(AtPrice(s, p)) <= Uids(s)
  {
    AtPriceMembers(s, p);
    var q := AtPrice(s, p);
    forall i | 0 <= i < |q|
      ensures q[i].uid in Uids(s)
    {
      assert q[i] in s;
    }
  }

  lemma {:induction false} AtPriceDistinct(s: seq<Entry>, p: Price)
    requires Distinct(s)
    ensures Distinct(AtPrice(s, p))
  {
    if s != [] {
      AtPriceDistinct(s[1..], p);
      AtPriceMembers(s[1..], p);
      assert forall e | e in AtPrice(s[1..], p) :: e.uid != s[0].uid;
    }
  }

  lemma {:induction false} AtPriceNone(s: seq<Entry>, p: Price)
    requires p !in Prices(s)
    ensures AtPrice(s, p) == []
  {
    if s != [] {
      assert s[0].price in Prices(s);
      assert forall i | 0 <= i < |s[1..]| :: s[1..][i].price == s[i + 1].price;
      AtPriceNone(s[1..], p);
    }
  }

  lemma {:induction false} PricesIff(s: seq<Entry>, p: Price)
    ensures p in Prices(s) <==> AtPrice(s, p) != []
  {
    AtPriceMembers(s, p);
    if AtPrice(s, p) != [] {
      assert AtPrice(s, p)[0] in s;
    }
    forall i | 0 <= i < |s| && s[i].price == p
      ensures s[i] in AtPrice(s, p)
    {
      assert s[i] in s;
    }
  }

  /** Everyone behind the insertion point is strictly worse, so nobody there shares the price. */
  lemma AtPriceInsert(side: Side, s: seq<Entry>, e: Entry, p: Price)
    requires Sorted(side, s)
    ensures AtPrice(Insert(side, s, e), p) == if p == e.price then AtPrice(s, p) + [e] else AtPrice(s, p)
  {
    hide AtPrice, Volume;
    var k := Position(side, s, e.price);
    var a, b := AtPrice(s[..k], p), AtPrice(s[k..], p);
    Alone(e, p);
    assert AtPrice(s, p) == a + b by {
      AtPriceConcat(s[..k], s[k..], p);
      assert s == s[..k] + s[k..];
    }
    assert AtPrice(Insert(side, s, e), p) == a + AtPrice([e], p) + b by {
      AtPriceConcat(s[..k] + [e], s[k..], p);
      AtPriceConcat(s[..k], [e], p);
    }
    if p == e.price {
      AtPriceNone(s[k..], p);
      assert a + [e] + [] == (a + []) + [e];
    } else {
      assert a + [] + b == a + b;
    }
  }

  lemma SameFind(s: seq<Entry>, r: seq<Entry>, uid: UID)
    requires |s| == |r| && forall j | 0 <= j < |s| :: r[j].uid == s[j].uid
    ensures Find(r, uid) == Find(s, uid)
  {
  }

  /** r is s with e put in at k. */
  predicate IsSpliced(r: seq<Entry>, s: seq<Entry>, k: nat, e: Entry) {
    && k <= |s| && |r| == |s| + 1 && r[k] == e
    && forall i {:trigger r[i]} | 0 <= i < |r| :: r[i] == if i < k then s[i] else if i == k then e else s[i - 1]
  }

  lemma Spliced(s: seq<Entry>, k: nat, e: Entry)
    requires k <= |s|
    ensures IsSpliced(s[..k] + [e] + s[k..], s, k, e)
  {
  }

  lemma Inserted(side: Side, s: seq<Entry>, e: Entry)
    ensures IsSpliced(Insert(side, s, e), s, Position(side, s, e.price), e)
  {
    hide IsSpliced;
    Spliced(s, Position(side, s, e.price), e);
  }

  lemma InsertKeepsOrder(side: Side, s: seq<Entry>, e: Entry)
    requires Sorted(side, s)
    ensures Sorted(side, Insert(side, s, e))
  {
    hide Insert;
    Inserted(side, s, e);
  }

  lemma InsertUids(side: Side, s: seq<Entry>, e: Entry)
    ensures Uids(Insert(side, s, e)) == Uids(s) + {e.uid}
  {
    hide Insert, Position;
    Inserted(side, s, e);
    var k, r := Position(side, s, e.price), Insert(side, s, e);
    assert forall i | 0 <= i < |s| :: s[i] == r[if i < k then i else i + 1];
  }

  lemma InsertPrices(side: Side, s: seq<Entry>, e: Entry)
    ensures Prices(Insert(side, s, e)) == Prices(s) + {e.price}
  {
    hide Insert, Position;
    Inserted(side, s, e);
    var k, r := Position(side, s, e.price), Insert(side, s, e);
    assert forall i | 0 <= i < |s| :: s[i] == r[if i < k then i else i + 1];
  }

  lemma InsertDistinct(side: Side, s: seq<Entry>, e: Entry)
    requires Distinct(s) && e.uid !in Uids(s)
    ensures Distinct(Insert(side, s, e))
  {
    hide Insert, Position;
    Inserted(side, s, e);
    NotListed(s, e.uid);
    hide Uids;
  }

  lemma NotListed(s: seq<Entry>, uid: UID)
    requires uid !in Uids(s)
    ensures forall i | 0 <= i < |s| :: s[i].uid != uid
  {
    assert forall i | 0 <= i < |s| :: s[i].uid in Uids(s);
  }

  lemma VolumeInsert(side: Side, s: seq<Entry>, e: Entry)
    ensures Volume(Insert(side, s, e)) == Volume(s) + e.quantity
  {
    hide Volume;
    var k := Position(side, s, e.price);
    Alone(e, 0);
    VolumeConcat(s[..k] + [e], s[k..]);
    VolumeConcat(s[..k], [e]);
    VolumeConcat(s[..k], s[k..]);
    assert s == s[..k] + s[k..];
  }

  /** Taking one order out removes it from its own queue and leaves every other queue alone. */
  lemma AtPriceRemoveAt(s: seq<Entry>, i: nat, p: Price)
    requires i < |s|
    ensures AtPrice(s, p) == AtPrice(s[..i], p) + (if p == s[i].price then [s[i]] else []) + AtPrice(s[i + 1..], p)
    ensures AtPrice(RemoveAt(s, i), p) == AtPrice(s[..i], p) + AtPrice(s[i + 1..], p)
    ensures p != s[i].price ==> AtPrice(RemoveAt(s, i), p) == AtPrice(s, p)
  {
    hide AtPrice, Volume;
    assert s == (s[..i] + [s[i]]) + s[i + 1..];
    Alone(s[i], p);
    AtPriceConcat(s[..i] + [s[i]], s[i + 1..], p);
    AtPriceConcat(s[..i], [s[i]], p);
    AtPriceConcat(s[..i], s[i + 1..], p);
  }

  lemma RemoveAtKeepsOrder(side: Side, s: seq<Entry>, i: nat)
    requires i < |s| && Sorted(side, s)
    ensures Sorted(side, RemoveAt(s, i))
  {
    var r := RemoveAt(s, i);
    assert forall j | 0 <= j < |r| :: r[j] == s[if j < i then j else j + 1];
  }

  lemma RemoveAtMembers(s: seq<Entry>, i: nat)
    requires i < |s| && Distinct(s)
    ensures Uids(RemoveAt(s, i)) == Uids(s) - {s[i].uid}
    ensures Distinct(RemoveAt(s, i))
  {
    var r := RemoveAt(s, i);
    RemoveAtElements(s, i);
    forall j | 0 <= j < |s| && j != i
      ensures s[j].uid in Uids(r) && s[j].uid != s[i].uid
    {
      assert r[if j < i then j else j - 1] == s[j];
    }
    hide RemoveAt;
    assert forall j | 0 <= j < |r| :: r[j].uid in Uids(s) && r[j].uid != s[i].uid;
  }

  lemma RemoveAtElements(s: seq<Entry>, i: nat)
    requires i < |s|
    ensures |RemoveAt(s, i)| == |s| - 1
    ensures forall j | 0 <= j < |s| - 1 :: RemoveAt(s, i)[j] == s[if j < i then j else j + 1]
  {
  }

  lemma VolumeRemoveAt(s: seq<Entry>, i: nat)
    requires i < |s|
    ensures Volume(RemoveAt(s, i)) == Volume(s) - s[i].quantity
  {
    hide Volume;
    assert s == (s[..i] + [s[i]]) + s[i + 1..];
    Alone(s[i], 0);
    VolumeConcat(s[..i] + [s[i]], s[i + 1..]);
    VolumeConcat(s[..i], [s[i]]);
    VolumeConcat(s[..i], s[i + 1..]);
  }

  /** A changed quantity shows in the order's own queue, at the order's place, and nowhere else. */
  lemma AtPriceUpdate(s: seq<Entry>, i: nat, e: Entry, p: Price)
    requires i < |s| && e.price == s[i].price
    ensures AtPrice(s, p) == AtPrice(s[..i], p) + (if p == s[i].price then [s[i]] else []) + AtPrice(s[i + 1..], p)
    ensures AtPrice(s[i := e], p) == AtPrice(s[..i], p) + (if p == s[i].price then [e] else []) + AtPrice(s[i + 1..], p)
    ensures p != s[i].price ==> AtPrice(s[i := e], p) == AtPrice(s, p)
  {
    AtPriceRemoveAt(s, i, p);
    AtPriceRemoveAt(s[i := e], i, p);
    assert s[i := e][..i] == s[..i] && s[i := e][i + 1..] == s[i + 1..];
  }

  lemma VolumeUpdate(s: seq<Entry>, i: nat, e: Entry)
    requires i < |s|
    ensures Volume(s[i := e]) == Volume(s) - s[i].quantity + e.quantity
  {
    VolumeRemoveAt(s, i);
    VolumeRemoveAt(s[i := e], i);
    assert RemoveAt(s[i := e], i) == RemoveAt(s, i);
  }

  lemma RemainingAt(s: seq<Entry>, i: nat)
    requires Distinct(s) && i < |s|
    ensures Find(s, s[i].uid) == i && Remaining(s, s[i].uid) == s[i].quantity
  {
  }

  lemma RemainingNone(s: seq<Entry>, uid: UID)
    requires uid !in Uids(s)
    ensures Find(s, uid) == |s| && Remaining(s, uid) == 0
  {
    assert forall i | 0 <= i < |s| :: s[i].uid in Uids(s);
  }

  // ---------------------------------------------------------------------------
  // Widths
  // ---------------------------------------------------------------------------

  lemma {:induction false} VolumeFits(s: seq<Entry>)
    ensures Volume(s) <= |s| * (TWO_32 - 1)
    ensures |s| < TWO_32 ==> Volume(s) < TWO_64
  {
    if s != [] {
      VolumeFits(s[1..]);
    }
  }
}
