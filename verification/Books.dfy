/**
 The two-sided book as two price-time lists: what orders do to it, what the data feed says
 about it, and how a receiver rebuilds it from those messages alone.
 */
module Books {
  import opened MarketTypes
  import opened PriceTime
  import opened Sweeps

  datatype Book = Book(sells: seq<Entry>, buys: seq<Entry>) {
    function Of(side: Side): seq<Entry> {
      if side.Sell? then sells else buys
    }

    function With(side: Side, s: seq<Entry>): Book {
      if side.Sell? then this.(sells := s) else this.(buys := s)
    }

    function AllUids(): set<UID> {
      Uids(sells) + Uids(buys)
    }
  }

  const EMPTY: Book := Book([], [])

  /** An order on `side` at this price would trade at once. */
  predicate Crosses(b: Book, side: Side, price: Price) {
    var opposite := b.Of(side.Opposite());
    opposite != [] && if side.Sell? then price <= opposite[0].price else price >= opposite[0].price
  }

  predicate Uncrossed(b: Book) {
    b.sells != [] && b.buys != [] ==> b.buys[0].price < b.sells[0].price
  }

  /** At equal prices, earlier orders are ahead. */
  predicate TimeOrdered(s: seq<Entry>) {
    forall i, j | 0 <= i < j < |s| && s[i].price == s[j].price :: s[i].uid < s[j].uid
  }

  predicate SideOk(side: Side, s: seq<Entry>, next: UID) {
    && Sorted(side, s) && Distinct(s) && TimeOrdered(s)
    && forall i | 0 <= i < |s| :: 0 < s[i].uid < next
  }

  /** Both sides in price-time order, no uid twice, none from the future, and not crossed. */
  predicate BookOk(b: Book, next: UID) {
    && SideOk(Sell, b.sells, next) && SideOk(Buy, b.buys, next)
    && Uids(b.sells) !! Uids(b.buys)
    && Uncrossed(b)
  }

  // ---------------------------------------------------------------------------
  // Submitting orders
  // ---------------------------------------------------------------------------

  datatype Submission = Submission(book: Book, fills: seq<Fill>, residual: Quantity, rested: bool)

  function Swept(b: Book, side: Side, price: Price, quantity: Quantity): Sweep {
    Match(side.Opposite(), b.Of(side.Opposite()), price, quantity)
  }

  function SubmitLimit(b: Book, side: Side, uid: UID, quantity: Quantity, price: Price): Submission {
    var crosses := Crosses(b, side, price);
    var m := if crosses then Swept(b, side, price, quantity) else Sweep(b.Of(side.Opposite()), quantity, []);
    var swept := b.With(side.Opposite(), m.rest);
    if crosses && m.residual == 0 then
      Submission(swept, m.fills, 0, false)
    else
      Submission(swept.With(side, Insert(side, swept.Of(side), Entry(uid, price, m.residual))), m.fills, m.residual,
                 true)
  }

  function SubmitMarket(b: Book, side: Side, quantity: Quantity): Submission {
    var m := Swept(b, side, 0, quantity);
    Submission(b.With(side.Opposite(), m.rest), m.fills, m.residual, false)
  }

  function SideOf(b: Book, uid: UID): Side {
    if uid in Uids(b.sells) then Sell else Buy
  }

  function Resting(b: Book, uid: UID): nat {
    Remaining(b.sells, uid) + Remaining(b.buys, uid)
  }

  function Canceled(b: Book, uid: UID): Book {
    b.With(SideOf(b, uid), Remove(b.Of(SideOf(b, uid)), uid))
  }

  // ---------------------------------------------------------------------------
  // The feed and its replay
  // ---------------------------------------------------------------------------

  function TradeMessages(fills: seq<Fill>, taker: Side): seq<FeedMessage> {
    seq(|fills|, i requires 0 <= i < |fills| => Trade(fills[i].uid, fills[i].price, fills[i].quantity, taker))
  }

  function Messages(x: Submission, side: Side, uid: UID, price: Price): seq<FeedMessage> {
    TradeMessages(x.fills, side) + if x.rested then [AddOrder(uid, price, x.residual, side)] else []
  }

  /** A message a receiver handles without surprise: a new order is new and does not cross, a
      deleted order is there, and a trade hits the front order of its side, at its price and
      for no more than what remains of it. */
  predicate Clean(b: Book, m: FeedMessage) {
    match m
    case AddOrder(uid, price, _, side) => uid !in b.AllUids() && !Crosses(b, side, price)
    case DeleteOrder(uid) => uid in b.AllUids()
    case Trade(uid, price, quantity, side) =>
      var s := b.Of(side.Opposite());
      s != [] && s[0].uid == uid && s[0].price == price && quantity <= s[0].quantity
    case _ => true
  }

  function Apply(b: Book, m: FeedMessage): Book {
    match m
    case AddOrder(uid, price, quantity, side) => b.With(side, Insert(side, b.Of(side), Entry(uid, price, quantity)))
    case DeleteOrder(uid) => Canceled(b, uid)
    case Trade(uid, _, quantity, _) => b.With(SideOf(b, uid), Reduce(b.Of(SideOf(b, uid)), uid, quantity))
    case Clear => EMPTY
    case _ => b
  }

  /** The book after the messages, or None if one of them was not clean when it arrived. */
  function Replay(b: Book, messages: seq<FeedMessage>): Option<Book>
    decreases |messages|
  {
    if messages == [] then Some(b)
    else if !Clean(b, messages[0]) then None
    else Replay(Apply(b, messages[0]), messages[1..])
  }

  /** Whether the trading session is open after a message, and after all of them. */
  function SessionAfter(active: bool, m: FeedMessage): bool {
    if m.StartOfSession? then true else if m.EndOfSession? then false else active
  }

  function SessionAfterAll(active: bool, messages: seq<FeedMessage>): bool
    decreases |messages|
  {
    if messages == [] then active else SessionAfterAll(SessionAfter(active, messages[0]), messages[1..])
  }

  lemma {:induction false} ReplayConcat(b: Book, x: seq<FeedMessage>, y: seq<FeedMessage>)
    ensures Replay(b, x + y) ==
      match Replay(b, x) { case None => None case Some(b') => Replay(b', y) }
    decreases |x|
  {
    if x == [] {
      assert x + y == y;
    } else {
      assert (x + y)[0] == x[0] && (x + y)[1..] == x[1..] + y;
      if Clean(b, x[0]) {
        ReplayConcat(Apply(b, x[0]), x[1..], y);
      }
    }
  }

  lemma ReplayOne(b: Book, x: seq<FeedMessage>, b': Book, m: FeedMessage)
    requires Replay(b, x) == Some(b') && Clean(b', m)
    ensures Replay(b, x + [m]) == Some(Apply(b', m))
  {
    ReplayConcat(b, x, [m]);
    assert Replay(Apply(b', m), [m][1..]) == Some(Apply(b', m));
  }

  // ---------------------------------------------------------------------------
  // A sweep, message by message
  // ---------------------------------------------------------------------------

  lemma AfterUids(s: seq<Entry>, fills: seq<Fill>, k: nat)
    requires k <= |fills| && Follows(s, fills)
    ensures Uids(After(s, fills, k)) <= Uids(s)
  {
    var r := After(s, fills, k);
    forall i | 0 <= i < |r|
      ensures r[i].uid in Uids(s)
    {
      var j := i + |s| - |r|;
      assert r[i].uid == s[j].uid;
    }
  }

  /** After k < |fills| fills the next order to be hit is the k-th, untouched. */
  lemma AfterFront(s: seq<Entry>, fills: seq<Fill>, k: nat)
    requires Follows(s, fills) && k < |fills|
    ensures After(s, fills, k) == s[k..] && s[k..] != [] && s[k..][0] == s[k]
    ensures After(s, fills, k + 1) == Reduce(s[k..], s[k].uid, fills[k].quantity)
  {
    assert k > 0 ==> fills[k - 1].makerLeaves == 0;
    ReduceFront(s[k..], fills[k].quantity);
    assert s[k..][1..] == s[k + 1..];
  }

  /** A trade with the front order is clean and takes effect on the side it belongs to. */
  lemma FrontTrade(b: Book, side: Side, quantity: Quantity)
    requires Uids(b.sells) !! Uids(b.buys)
    requires b.Of(side.Opposite()) != [] && quantity <= b.Of(side.Opposite())[0].quantity
    ensures var s := b.Of(side.Opposite());
      var m := Trade(s[0].uid, s[0].price, quantity, side);
      Clean(b, m) && Apply(b, m) == b.With(side.Opposite(), Reduce(s, s[0].uid, quantity))
  {
    var s := b.Of(side.Opposite());
    assert s[0].uid in Uids(s);
  }

  lemma SweepStart(b: Book, side: Side, fills: seq<Fill>)
    ensures Replay(b, TradeMessages(fills, side)[..0]) ==
            Some(b.With(side.Opposite(), After(b.Of(side.Opposite()), fills, 0)))
  {
    assert TradeMessages(fills, side)[..0] == [];
  }

  lemma NextTrade(s: seq<Entry>, fills: seq<Fill>, side: Side, k: nat)
    requires Follows(s, fills) && k < |fills|
    ensures k < |s| && fills[k].quantity <= s[k].quantity
    ensures |TradeMessages(fills, side)| == |fills|
    ensures TradeMessages(fills, side)[..k + 1] ==
            TradeMessages(fills, side)[..k] + [Trade(s[k].uid, s[k].price, fills[k].quantity, side)]
  {
  }

  /** After every single Trade message of a sweep the receiver's book is the server's. */
  lemma {:induction false} SweepReplay(b: Book, side: Side, fills: seq<Fill>, k: nat)
    requires Uids(b.sells) !! Uids(b.buys)
    requires Follows(b.Of(side.Opposite()), fills) && k <= |fills|
    ensures Replay(b, TradeMessages(fills, side)[..k]) ==
            Some(b.With(side.Opposite(), After(b.Of(side.Opposite()), fills, k)))
  {
    hide Follows, After, Uids, Clean, Apply, Reduce, Replay, TradeMessages;
    var s := b.Of(side.Opposite());
    if k == 0 {
      SweepStart(b, side, fills);
    } else {
      var j := k - 1;
      SweepReplay(b, side, fills, j);
      AfterFront(s, fills, j);
      AfterUids(s, fills, j);
      NextTrade(s, fills, side, j);
      var b' := b.With(side.Opposite(), s[j..]);
      FrontTrade(b', side, fills[j].quantity);
      ReplayOne(b, TradeMessages(fills, side)[..j], b', Trade(s[j].uid, s[j].price, fills[j].quantity, side));
    }
  }

  /** r lists, in order, some of the orders of s, quantities aside. */
  predicate Sublist(r: seq<Entry>, s: seq<Entry>, at: nat -> nat) {
    && (forall i: nat | i < |r| :: at(i) < |s| && r[i].uid == s[at(i)].uid && r[i].price == s[at(i)].price)
    && forall i: nat, j: nat | i < j < |r| :: at(i) < at(j)
  }

  lemma SublistSorted(side: Side, s: seq<Entry>, r: seq<Entry>, at: nat -> nat)
    requires Sorted(side, s) && Sublist(r, s, at)
    ensures Sorted(side, r)
    ensures r != [] ==> s != [] && !Better(side, r[0].price, s[0].price)
  {
    forall i, j | 0 <= i < j < |r|
      ensures !Better(side, r[j].price, r[i].price)
    {
      assert at(i) < at(j) && s[at(i)].price == r[i].price && s[at(j)].price == r[j].price;
    }
    if r != [] {
      assert at(0) < |s| && r[0].price == s[at(0)].price;
    }
  }

  lemma SublistDistinct(s: seq<Entry>, r: seq<Entry>, at: nat -> nat)
    requires Distinct(s) && Sublist(r, s, at)
    ensures Distinct(r)
  {
    forall i, j | 0 <= i < j < |r|
      ensures r[i].uid != r[j].uid
    {
      assert at(i) < at(j) && s[at(i)].uid == r[i].uid && s[at(j)].uid == r[j].uid;
    }
  }

  lemma SublistTimeOrdered(s: seq<Entry>, r: seq<Entry>, at: nat -> nat)
    requires TimeOrdered(s) && Sublist(r, s, at)
    ensures TimeOrdered(r)
  {
    forall i, j | 0 <= i < j < |r| && r[i].price == r[j].price
      ensures r[i].uid < r[j].uid
    {
      assert at(i) < at(j) && s[at(i)].price == s[at(j)].price;
    }
  }

  lemma SublistSideOk(side: Side, s: seq<Entry>, next: UID, r: seq<Entry>, at: nat -> nat)
    requires SideOk(side, s, next) && Sublist(r, s, at)
    ensures SideOk(side, r, next)
    ensures r != [] ==> s != [] && !Better(side, r[0].price, s[0].price)
  {
    hide Sorted, Distinct, TimeOrdered, Better;
    SublistSorted(side, s, r, at);
    SublistDistinct(s, r, at);
    SublistTimeOrdered(s, r, at);
  }

  lemma AfterSublist(s: seq<Entry>, fills: seq<Fill>, k: nat)
    requires k <= |fills| && k <= |s|
    ensures Sublist(After(s, fills, k), s,
                    (i: nat) => if |After(s, fills, k)| <= |s| then i + |s| - |After(s, fills, k)| else 0)
  {
  }

  /** What is left after a sweep. */
  lemma SweptSide(side: Side, s: seq<Entry>, next: UID, fills: seq<Fill>, k: nat)
    requires SideOk(side, s, next) && k <= |fills| && k <= |s|
    ensures SideOk(side, After(s, fills, k), next)
    ensures After(s, fills, k) != [] ==> s != [] && !Better(side, After(s, fills, k)[0].price, s[0].price)
  {
    hide SideOk, Sublist, After, Better;
    AfterSublist(s, fills, k);
    SublistSideOk(side, s, next, After(s, fills, k),
                  (i: nat) => if |After(s, fills, k)| <= |s| then i + |s| - |After(s, fills, k)| else 0);
  }

  lemma SweepKeepsBook(b: Book, next: UID, side: Side, price: Price, quantity: Quantity)
    requires BookOk(b, next)
    ensures BookOk(b.With(side.Opposite(), Swept(b, side, price, quantity).rest), next)
  {
    var o := side.Opposite();
    var m := Swept(b, side, price, quantity);
    SweepShape(o, b.Of(o), price, quantity);
    SweptSide(o, b.Of(o), next, m.fills, |m.fills|);
    AfterUids(b.Of(o), m.fills, |m.fills|);
  }

  /** What remains of a swept limit order can rest without crossing, at any price, 0 included. */
  lemma ResidualDoesNotCross(b: Book, side: Side, price: Price, quantity: Quantity)
    ensures var m := Swept(b, side, price, quantity);
      m.residual > 0 ==> !Crosses(b.With(side.Opposite(), m.rest), side, price)
  {
    SweepConserves(side.Opposite(), b.Of(side.Opposite()), price, quantity);
  }

  lemma InsertTimeOrdered(side: Side, s: seq<Entry>, e: Entry)
    requires Sorted(side, s) && TimeOrdered(s)
    requires forall i | 0 <= i < |s| :: s[i].uid < e.uid
    ensures TimeOrdered(Insert(side, s, e))
  {
    hide Sorted, Insert;
    var k := Position(side, s, e.price);
    InsertBehind(side, s, e.price);
    var r := s[..k] + [e] + s[k..];
    assert r == Insert(side, s, e) by { InsertIs(side, s, e); }
    assert forall i | 0 <= i < |r| :: r[i] == if i < k then s[i] else if i == k then e else s[i - 1];
  }

  lemma InsertIs(side: Side, s: seq<Entry>, e: Entry)
    ensures Insert(side, s, e) == s[..Position(side, s, e.price)] + [e] + s[Position(side, s, e.price)..]
  {
  }

  lemma InsertSideOk(side: Side, s: seq<Entry>, next: UID, e: Entry)
    requires SideOk(side, s, next) && e.uid == next > 0
    ensures SideOk(side, Insert(side, s, e), next + 1)
  {
    hide Sorted, Distinct, TimeOrdered;
    assert e.uid !in Uids(s);
    InsertKeepsOrder(side, s, e);
    InsertDistinct(side, s, e);
    InsertTimeOrdered(side, s, e);
    var k, r := Position(side, s, e.price), Insert(side, s, e);
    assert forall i | 0 <= i < |r| :: r[i] == if i < k then s[i] else if i == k then e else s[i - 1];
  }

  lemma InsertBehind(side: Side, s: seq<Entry>, price: Price)
    requires Sorted(side, s)
    ensures forall j | Position(side, s, price) <= j < |s| :: Better(side, price, s[j].price)
  {
  }

  lemma RestKeepsBook(b: Book, next: UID, side: Side, price: Price, quantity: Quantity)
    requires BookOk(b, next) && next > 0 && !Crosses(b, side, price)
    ensures BookOk(b.With(side, Insert(side, b.Of(side), Entry(next, price, quantity))), next + 1)
  {
    var e := Entry(next, price, quantity);
    var o := side.Opposite();
    InsertSideOk(side, b.Of(side), next, e);
    InsertUids(side, b.Of(side), e);
    assert SideOk(o, b.Of(o), next + 1);
    assert next !in Uids(b.Of(o));
    hide SideOk;
  }

  lemma RemoveSublist(s: seq<Entry>, uid: UID)
    ensures Sublist(Remove(s, uid), s, (j: nat) => if j < Find(s, uid) then j else j + 1)
  {
  }

  lemma RemoveUids(s: seq<Entry>, uid: UID)
    requires Distinct(s)
    ensures Uids(Remove(s, uid)) == Uids(s) - {uid}
  {
    if Find(s, uid) < |s| {
      RemoveAtMembers(s, Find(s, uid));
    }
  }

  lemma RemoveSideOk(side: Side, s: seq<Entry>, next: UID, uid: UID)
    requires SideOk(side, s, next)
    ensures SideOk(side, Remove(s, uid), next)
    ensures Remove(s, uid) != [] ==> s != [] && !Better(side, Remove(s, uid)[0].price, s[0].price)
  {
    hide SideOk, Sublist, Remove, Better;
    RemoveSublist(s, uid);
    SublistSideOk(side, s, next, Remove(s, uid), (j: nat) => if j < Find(s, uid) then j else j + 1);
  }

  lemma CancelKeepsBook(b: Book, next: UID, uid: UID)
    requires BookOk(b, next)
    ensures BookOk(Canceled(b, uid), next)
    ensures Canceled(b, uid).AllUids() == b.AllUids() - {uid}
  {
    RemoveSideOk(SideOf(b, uid), b.Of(SideOf(b, uid)), next, uid);
    RemoveUids(b.Of(SideOf(b, uid)), uid);
  }

  // ---------------------------------------------------------------------------
  // Replaying a whole submission, and the commuting diagram
  // ---------------------------------------------------------------------------

  /** Submitting a limit order keeps the book in order and uncrossed, and a receiver that gets
      only the messages ends with the book that submitting the order to it would give. */
  lemma LimitReplay(b: Book, next: UID, side: Side, quantity: Quantity, price: Price)
    requires BookOk(b, next) && next > 0
    ensures var x := SubmitLimit(b, side, next, quantity, price);
      && Replay(b, Messages(x, side, next, price)) == Some(x.book)
      && BookOk(x.book, next + 1) && (!x.rested ==> BookOk(x.book, next))
  {
    hide SideOk, Uncrossed, Insert, Match;
    var x := SubmitLimit(b, side, next, quantity, price);
    var o := side.Opposite();
    var trades := TradeMessages(x.fills, side);
    var swept := b;
    if Crosses(b, side, price) {
      var m := Swept(b, side, price, quantity);
      swept := b.With(o, m.rest);
      SweepShape(o, b.Of(o), price, quantity);
      SweepReplay(b, side, m.fills, |m.fills|);
      SweepKeepsBook(b, next, side, price, quantity);
      ResidualDoesNotCross(b, side, price, quantity);
      assert trades[..|m.fills|] == trades;
    } else {
      assert trades == [];
      assert swept == b.With(o, b.Of(o));
    }
    assert Replay(b, trades) == Some(swept) && BookOk(swept, next);
    if x.rested {
      RestKeepsBook(swept, next, side, price, x.residual);
      NextIsFresh(swept, next);
      ReplayOne(b, trades, swept, AddOrder(next, price, x.residual, side));
    } else {
      assert trades + [] == trades;
      LaterIsOk(x.book, next);
    }
  }

  lemma NextIsFresh(b: Book, next: UID)
    requires BookOk(b, next)
    ensures next !in b.AllUids()
  {
  }

  lemma LaterIsOk(b: Book, next: UID)
    requires BookOk(b, next)
    ensures BookOk(b, next + 1)
  {
  }

  lemma MarketReplay(b: Book, next: UID, side: Side, quantity: Quantity)
    requires BookOk(b, next)
    ensures var x := SubmitMarket(b, side, quantity);
      && Replay(b, TradeMessages(x.fills, side)) == Some(x.book) && BookOk(x.book, next)
  {
    var o := side.Opposite();
    var m := Swept(b, side, 0, quantity);
    SweepShape(o, b.Of(o), 0, quantity);
    SweepReplay(b, side, m.fills, |m.fills|);
    SweepKeepsBook(b, next, side, 0, quantity);
    assert TradeMessages(m.fills, side)[..|m.fills|] == TradeMessages(m.fills, side);
  }

  lemma CancelReplay(b: Book, next: UID, uid: UID)
    requires BookOk(b, next) && uid in b.AllUids()
    ensures Replay(b, [DeleteOrder(uid)]) == Some(Canceled(b, uid))
    ensures BookOk(Canceled(b, uid), next) && Canceled(b, uid).AllUids() == b.AllUids() - {uid}
  {
    hide BookOk, Canceled;
    CancelKeepsBook(b, next, uid);
    ReplayOne(b, [], b, DeleteOrder(uid));
    assert [] + [DeleteOrder(uid)] == [DeleteOrder(uid)];
  }

  // ---------------------------------------------------------------------------
  // Order IDs on the feed
  // ---------------------------------------------------------------------------

  /** The published order IDs are positive, strictly increase and have not reached `next`; the
      book is never cleared. */
  predicate Orderly(messages: seq<FeedMessage>, next: UID) {
    && (forall i | 0 <= i < |messages| :: !messages[i].Clear?)
    && (forall i | 0 <= i < |messages| && messages[i].AddOrder? :: 0 < messages[i].uid < next)
    && forall i, j | 0 <= i < j < |messages| && messages[i].AddOrder? && messages[j].AddOrder? ::
         messages[i].uid < messages[j].uid
  }

  lemma AddsAfterOthers(messages: seq<FeedMessage>, next: UID, more: seq<FeedMessage>)
    requires Orderly(messages, next)
    requires forall i | 0 <= i < |more| :: !more[i].AddOrder? && !more[i].Clear?
    ensures Orderly(messages + more, next)
  {
  }

  lemma AddsAfterAdd(messages: seq<FeedMessage>, next: UID, price: Price, quantity: Quantity, side: Side)
    requires Orderly(messages, next) && next > 0
    ensures Orderly(messages + [AddOrder(next, price, quantity, side)], next + 1)
  {
  }

  lemma AddsAfterSubmission(messages: seq<FeedMessage>, next: UID, x: Submission, side: Side, price: Price)
    requires Orderly(messages, next) && next > 0
    ensures Orderly(messages + Messages(x, side, next, price), if x.rested then next + 1 else next)
  {
    hide Orderly;
    var trades := TradeMessages(x.fills, side);
    AddsAfterOthers(messages, next, trades);
    if x.rested {
      AddsAfterAdd(messages + trades, next, price, x.residual, side);
      assert messages + (trades + [AddOrder(next, price, x.residual, side)]) ==
             (messages + trades) + [AddOrder(next, price, x.residual, side)];
    } else {
      assert trades + [] == trades;
    }
  }

  // ---------------------------------------------------------------------------
  // The limit price, and the one way past it
  // ---------------------------------------------------------------------------

  /** An execution at this price is no worse than the limit of an order on `side`. */
  predicate Respects(side: Side, executed: Price, limit: Price) {
    if side.Buy? then executed <= limit else executed >= limit
  }

  predicate LimitRespected(b: Book, side: Side, uid: UID, quantity: Quantity, price: Price) {
    var fills := SubmitLimit(b, side, uid, quantity, price).fills;
    forall i | 0 <= i < |fills| :: Respects(side, fills[i].price, price)
  }

  /** A buy order with limit 0 that crosses a sell resting at 0 is treated as a market order;
      it trades through its limit when the sells at 0 cannot fill it and dearer ones rest. */
  predicate TradesThrough(b: Book, side: Side, quantity: Quantity, price: Price) {
    var free := AtPrice(b.sells, 0);
    side.Buy? && price == 0 && free != [] && |free| < |b.sells| && Volume(free) < quantity
  }

  /** Nothing of a submitted order is lost: it is traded, rests, or (only a market order) goes
      unfilled, and the other side gives exactly what is traded. */
  lemma SubmissionConserves(b: Book, side: Side, uid: UID, quantity: Quantity, price: Price)
    ensures var x := SubmitLimit(b, side, uid, quantity, price);
      && Traded(x.fills) + x.residual == quantity && (!x.rested ==> x.residual == 0)
      && Volume(x.book.Of(side)) == Volume(b.Of(side)) + x.residual
      && Volume(x.book.Of(side.Opposite())) == Volume(b.Of(side.Opposite())) - Traded(x.fills)
    ensures var x := SubmitMarket(b, side, quantity);
      && Traded(x.fills) + x.residual == quantity && x.book.Of(side) == b.Of(side)
      && Volume(x.book.Of(side.Opposite())) == Volume(b.Of(side.Opposite())) - Traded(x.fills)
      && (x.residual > 0 ==> x.book.Of(side.Opposite()) == [])
  {
    hide Match, Insert, Volume;
    var o := side.Opposite();
    SweepConserves(o, b.Of(o), price, quantity);
    SweepConserves(o, b.Of(o), 0, quantity);
    assert Traded([]) == 0;
    VolumeInsert(side, b.Of(side), Entry(uid, price, SubmitLimit(b, side, uid, quantity, price).residual));
  }

  /** The orders at price 0 are the front of the sell side. */
  lemma {:induction false} ZeroPrefix(s: seq<Entry>)
    requires Sorted(Sell, s)
    ensures |AtPrice(s, 0)| <= |s| && s[..|AtPrice(s, 0)|] == AtPrice(s, 0)
    ensures forall i | 0 <= i < |s| :: s[i].price == 0 <==> i < |AtPrice(s, 0)|
  {
    if s == [] {
    } else if s[0].price == 0 {
      assert Sorted(Sell, s[1..]);
      ZeroPrefix(s[1..]);
      assert s[..|AtPrice(s, 0)|] == [s[0]] + s[1..][..|AtPrice(s[1..], 0)|];
      assert forall i | 1 <= i < |s| :: s[i] == s[1..][i - 1];
    } else {
      assert forall i | 0 < i < |s| :: !Better(Sell, s[i].price, s[0].price);
      AtPriceNone(s, 0);
    }
  }

  lemma {:induction false} FillsAcceptable(side: Side, s: seq<Entry>, price: Price, quantity: Quantity, i: nat)
    requires Sorted(side, s) && i < |Match(side, s, price, quantity).fills|
    ensures i < |s| && Match(side, s, price, quantity).fills[i].price == s[i].price
    ensures CanMatch(side, s[i].price, price)
  {
    SweepShape(side, s, price, quantity);
    SweepClosedForm(side, s, price, quantity, i);
  }

  /** Every execution of a limit order is at the resting price and no worse than the limit,
      unless the order is a buy at price 0 that trades through; then one execution is worse. */
  lemma LimitRespectedIff(b: Book, side: Side, uid: UID, quantity: Quantity, price: Price)
    requires Sorted(Sell, b.sells) && Sorted(Buy, b.buys)
    ensures LimitRespected(b, side, uid, quantity, price) <==> !TradesThrough(b, side, quantity, price)
  {
    hide Match, Insert, Sorted;
    var o := side.Opposite();
    var s := b.Of(o);
    var fills := SubmitLimit(b, side, uid, quantity, price).fills;
    if Crosses(b, side, price) {
      forall i | 0 <= i < |fills|
        ensures i < |s| && fills[i].price == s[i].price && CanMatch(o, s[i].price, price)
      {
        FillsAcceptable(o, s, price, quantity, i);
      }
      if price == 0 && side.Buy? {
        CrossingAtZero(s, quantity);
      }
    } else if price == 0 && side.Buy? && s != [] {
      ZeroPrefix(s);
    }
  }

  lemma CrossingAtZero(s: seq<Entry>, quantity: Quantity)
    requires Sorted(Sell, s) && s != [] && s[0].price == 0
    ensures var fills := Match(Sell, s, 0, quantity).fills;
      (forall i | 0 <= i < |fills| :: fills[i].price == 0) <==>
      !(|AtPrice(s, 0)| < |s| && Volume(AtPrice(s, 0)) < quantity)
  {
    hide Match, After, Sorted, Volume, AtPrice;
    var fills := Match(Sell, s, 0, quantity).fills;
    var n := |AtPrice(s, 0)|;
    ZeroPrefix(s);
    SweepShape(Sell, s, 0, quantity);
    assert n > 0;
    if n < |s| {
      SweepClosedForm(Sell, s, 0, quantity, n);
      assert n < |fills| ==> fills[n].price == s[n].price > 0;
    }
  }

  /** A sell rests at 0 and another at 5; a buy limited to 0 does not get its limit respected. */
  lemma LimitZeroExample()
    ensures !LimitRespected(Book([Entry(1, 0, 10), Entry(2, 5, 10)], []), Buy, 3, 15, 0)
  {
    hide SubmitLimit, LimitRespected;
    var s := [Entry(1, 0, 10), Entry(2, 5, 10)];
    assert s[1..] == [Entry(2, 5, 10)];
    assert AtPrice(s[1..], 0) == [] by { AtPriceNone(s[1..], 0); }
    assert AtPrice(s, 0) == [Entry(1, 0, 10)];
    assert Volume(AtPrice(s, 0)) == 10;
    LimitRespectedIff(Book(s, []), Buy, 3, 15, 0);
  }
}
