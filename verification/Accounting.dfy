/**
 Every share of every order: traded, deleted, unfilled or resting, message by message and over
 whole runs.
 */
module Accounting {
  import opened MarketTypes
  import opened PriceTime
  import opened Sweeps
  import opened Books
  import opened Protocol
  import opened Venues
  import opened VenueInvariant
  import opened Trails
  import opened FeedTheorems

  function Added(messages: seq<FeedMessage>, uid: UID): nat {
    if messages == [] then 0
    else
      var added := if messages[0].AddOrder? && messages[0].uid == uid then messages[0].quantity else 0;
      added + Added(messages[1..], uid)
  }

  function TradedOf(messages: seq<FeedMessage>, uid: UID): nat {
    if messages == [] then 0
    else
      var traded := if messages[0].Trade? && messages[0].uid == uid then messages[0].quantity else 0;
      traded + TradedOf(messages[1..], uid)
  }

  /** What was left of the order when it was deleted. */
  function Deleted(b: Book, messages: seq<FeedMessage>, uid: UID): nat
    decreases |messages|
  {
    if messages == [] then 0
    else
      var deleted := if messages[0] == DeleteOrder(uid) then Resting(b, uid) else 0;
      deleted + Deleted(Apply(b, messages[0]), messages[1..], uid)
  }

  predicate NoDuplicates(b: Book) {
    Distinct(b.sells) && Distinct(b.buys) && Uids(b.sells) !! Uids(b.buys)
  }

  lemma RemainingInsert(side: Side, s: seq<Entry>, e: Entry, uid: UID)
    requires Distinct(s) && e.uid !in Uids(s)
    ensures Remaining(Insert(side, s, e), uid) == if uid == e.uid then e.quantity else Remaining(s, uid)
  {
    hide Distinct, Remaining;
    InsertDistinct(side, s, e);
    InsertUids(side, s, e);
    var k, r := Position(side, s, e.price), Insert(side, s, e);
    if uid == e.uid {
      assert r[k] == e;
      RemainingAt(r, k);
    } else if uid in Uids(s) {
      var j :| 0 <= j < |s| && s[j].uid == uid;
      assert r[if j < k then j else j + 1] == s[j];
      RemainingAt(s, j);
      RemainingAt(r, if j < k then j else j + 1);
    } else {
      RemainingNone(s, uid);
      RemainingNone(r, uid);
    }
  }

  lemma RemainingRemove(s: seq<Entry>, i: nat, uid: UID)
    requires Distinct(s) && i < |s|
    ensures Remaining(RemoveAt(s, i), uid) == if uid == s[i].uid then 0 else Remaining(s, uid)
  {
    hide Distinct, Remaining;
    RemoveAtMembers(s, i);
    var r := RemoveAt(s, i);
    if uid in Uids(s) && uid != s[i].uid {
      var j :| 0 <= j < |s| && s[j].uid == uid;
      assert r[if j < i then j else j - 1] == s[j];
      RemainingAt(s, j);
      RemainingAt(r, if j < i then j else j - 1);
    } else {
      RemainingNone(r, uid);
      if uid != s[i].uid { RemainingNone(s, uid); }
    }
  }

  lemma ReduceRemaining(s: seq<Entry>, u: UID, quantity: Quantity, uid: UID)
    requires Distinct(s) && Find(s, u) < |s| && quantity <= s[Find(s, u)].quantity
    ensures Remaining(Reduce(s, u, quantity), uid) == Remaining(s, uid) - if uid == u then quantity else 0
    ensures Distinct(Reduce(s, u, quantity)) && Uids(Reduce(s, u, quantity)) <= Uids(s)
  {
    hide Distinct, Remaining, Uids, RemoveAt;
    var i := Find(s, u);
    if s[i].quantity == quantity {
      RemainingRemove(s, i, uid);
      RemoveAtMembers(s, i);
      if uid == u { RemainingAt(s, i); }
    } else {
      UpdateRemaining(s, i, quantity, uid);
    }
  }

  lemma UpdateRemaining(s: seq<Entry>, i: nat, quantity: Quantity, uid: UID)
    requires Distinct(s) && i < |s| && quantity <= s[i].quantity
    ensures var r := s[i := s[i].(quantity := s[i].quantity - quantity)];
      && Remaining(r, uid) == Remaining(s, uid) - (if uid == s[i].uid then quantity else 0)
      && Distinct(r) && Uids(r) == Uids(s)
  {
    hide Uids;
    var r := s[i := s[i].(quantity := s[i].quantity - quantity)];
    assert forall j | 0 <= j < |s| :: r[j].uid == s[j].uid;
    SameFind(s, r, uid);
    UidsSame(r, s);
    if uid == s[i].uid { RemainingAt(s, i); }
  }

  lemma FindFront(s: seq<Entry>)
    requires s != []
    ensures Find(s, s[0].uid) == 0 && s[0].uid in Uids(s)
  {
  }

  lemma FindMember(s: seq<Entry>, uid: UID)
    requires uid in Uids(s)
    ensures Find(s, uid) < |s|
  {
  }

  /** One clean message changes what rests of an order by exactly what it says. */
  lemma ApplyAccounts(b: Book, m: FeedMessage, uid: UID)
    requires NoDuplicates(b) && Clean(b, m) && !m.Clear?
    ensures NoDuplicates(Apply(b, m))
    ensures Resting(Apply(b, m), uid) ==
      Resting(b, uid)
      + (if m.AddOrder? && m.uid == uid then m.quantity else 0)
      - (if m.Trade? && m.uid == uid then m.quantity else 0)
      - (if m == DeleteOrder(uid) then Resting(b, uid) else 0)
  {
    hide Distinct, Remaining, Insert, Reduce, Uids;
    match m
    case AddOrder(u, price, quantity, side) =>
      var e := Entry(u, price, quantity);
      RemainingInsert(side, b.Of(side), e, uid);
      InsertDistinct(side, b.Of(side), e);
      InsertUids(side, b.Of(side), e);
      RemainingNone(b.sells, u);
      RemainingNone(b.buys, u);
    case DeleteOrder(u) =>
      var side := SideOf(b, u);
      FindMember(b.Of(side), u);
      RemainingRemove(b.Of(side), Find(b.Of(side), u), uid);
      RemoveAtMembers(b.Of(side), Find(b.Of(side), u));
      RemainingNone(b.Of(side.Opposite()), u);
    case Trade(u, price, quantity, side) =>
      var s := b.Of(side.Opposite());
      FindFront(s);
      ReduceRemaining(s, u, quantity, uid);
    case _ =>
  }

  /** Over any clean feed, for every order: what was added is what was traded, what was deleted
      and what still rests. */
  lemma {:induction false} FeedAccounts(b: Book, messages: seq<FeedMessage>, uid: UID)
    requires NoDuplicates(b) && Replay(b, messages).Some? && Clear !in messages
    ensures Resting(b, uid) + Added(messages, uid) ==
            TradedOf(messages, uid) + Deleted(b, messages, uid) + Resting(Replay(b, messages).value, uid)
    decreases |messages|
  {
    hide NoDuplicates, Clean, Apply, Resting;
    if messages != [] {
      ApplyAccounts(b, messages[0], uid);
      FeedAccounts(Apply(b, messages[0]), messages[1..], uid);
    }
  }

  /** In every run, for every order ever published: published quantity equals traded plus
      cancelled plus still resting. */
  lemma RunAccounts(v: Venue, steps: seq<Step>, uid: UID)
    requires Initial(v)
    ensures var w := Run(v, steps);
      Added(Published(w), uid) == TradedOf(Published(w), uid) + Deleted(EMPTY, Published(w), uid) + Resting(w.book, uid)
  {
    hide Run, Replay, BookOk;
    ReplicaAgrees(v, steps);
    FeedAccounts(EMPTY, Published(Run(v, steps)), uid);
  }

  // ---------------------------------------------------------------------------
  // From the request on
  // ---------------------------------------------------------------------------

  /** Everything a batch of messages reports as traded. */
  function AllTraded(messages: seq<FeedMessage>): nat {
    if messages == [] then 0
    else (if messages[0].Trade? then messages[0].quantity else 0) + AllTraded(messages[1..])
  }

  lemma {:induction false} AllTradedConcat(x: seq<FeedMessage>, y: seq<FeedMessage>)
    ensures AllTraded(x + y) == AllTraded(x) + AllTraded(y)
  {
    if x == [] {
      assert x + y == y;
    } else {
      assert (x + y)[1..] == x[1..] + y;
      AllTradedConcat(x[1..], y);
    }
  }

  lemma {:induction false} FillsTraded(fills: seq<Fill>, side: Side)
    ensures AllTraded(TradeMessages(fills, side)) == Traded(fills)
  {
    if fills != [] {
      assert TradeMessages(fills, side)[1..] == TradeMessages(fills[1..], side);
      FillsTraded(fills[1..], side);
    }
  }

  lemma LimitTraded(b: Book, side: Side, uid: UID, quantity: Quantity, price: Price)
    ensures AllTraded(LimitMessages(b, side, uid, quantity, price)) ==
            Traded(SubmitLimit(b, side, uid, quantity, price).fills)
  {
    hide SubmitLimit, TradeMessages;
    var x := SubmitLimit(b, side, uid, quantity, price);
    var last := if x.rested then [AddOrder(uid, price, x.residual, side)] else [];
    FillsTraded(x.fills, side);
    AllTradedConcat(TradeMessages(x.fills, side), last);
  }

  lemma {:induction false} AddedConcat(x: seq<FeedMessage>, y: seq<FeedMessage>, uid: UID)
    ensures Added(x + y, uid) == Added(x, uid) + Added(y, uid)
  {
    if x == [] {
      assert x + y == y;
    } else {
      assert (x + y)[1..] == x[1..] + y;
      AddedConcat(x[1..], y, uid);
    }
  }

  lemma {:induction false} AddedNever(messages: seq<FeedMessage>, uid: UID)
    requires forall i | 0 <= i < |messages| && messages[i].AddOrder? :: messages[i].uid != uid
    ensures Added(messages, uid) == 0
  {
    if messages != [] {
      AddedNever(messages[1..], uid);
    }
  }

  /** An order ID is published at most once, so what was added under it is that one message. */
  lemma AddedOnce(messages: seq<FeedMessage>, next: UID, i: nat)
    requires Orderly(messages, next) && i < |messages| && messages[i].AddOrder?
    ensures Added(messages, messages[i].uid) == messages[i].quantity
  {
    var m := messages[i];
    assert messages == messages[..i] + ([m] + messages[i + 1..]);
    AddedConcat(messages[..i], [m] + messages[i + 1..], m.uid);
    AddedNever(messages[..i], m.uid);
    AddedNever(messages[i + 1..], m.uid);
    assert ([m] + messages[i + 1..])[1..] == messages[i + 1..];
  }

  /** What a request for a new order does to the book it meets; a replace first frees the old order. */
  function Entered(u: Venue, request: Request): Submission
    requires request.OrderRequest? || request.ReplaceRequest?
  {
    match request
    case OrderRequest(side, quantity, price) =>
      if price == 0 then SubmitMarket(u.book, side, quantity)
      else SubmitLimit(u.book, side, u.sequence, quantity, price)
    case ReplaceRequest(orderId, side, quantity, price) =>
      SubmitLimit(if orderId in u.owner then Canceled(u.book, orderId) else u.book, side, u.sequence, quantity, price)
  }

  /** A request that asks for a new order and is not refused. */
  predicate Accepts(u: Venue, c: ConnectionId, request: Request) {
    && Acting(u, c).Some?
    && match request
       case OrderRequest(_, _, _) => true
       case ReplaceRequest(orderId, _, _, _) => orderId in u.owner ==> u.owner[orderId] == Acting(u, c).value
       case _ => false
  }

  lemma EnteredConserves(u: Venue, c: ConnectionId, request: Request)
    requires Accepts(u, c, request)
    ensures var x := Entered(u, request);
      && request.quantity == AllTraded(Posted(u, Receive(c, request))) + x.residual
      && (!x.rested && x.residual > 0 ==>
            request.OrderRequest? && request.price == 0 && x.book.Of(request.side.Opposite()) == [])
  {
    hide SubmitLimit, SubmitMarket, TradeMessages, Canceled, Messages, AllTraded, LimitMessages;
    match request
    case OrderRequest(side, quantity, price) =>
      SubmissionConserves(u.book, side, u.sequence, quantity, price);
      if price == 0 {
        FillsTraded(SubmitMarket(u.book, side, quantity).fills, side);
      } else {
        LimitTraded(u.book, side, u.sequence, quantity, price);
      }
    case ReplaceRequest(orderId, side, quantity, price) =>
      var b := if orderId in u.owner then Canceled(u.book, orderId) else u.book;
      SubmissionConserves(b, side, u.sequence, quantity, price);
      LimitTraded(b, side, u.sequence, quantity, price);
      OneDeletion(orderId, LimitMessages(b, side, u.sequence, quantity, price));
  }

  lemma OneDeletion(uid: UID, messages: seq<FeedMessage>)
    ensures AllTraded([DeleteOrder(uid)] + messages) == AllTraded(messages)
  {
    assert ([DeleteOrder(uid)] + messages)[1..] == messages;
  }

  /** An order that rests is published last, under the next order ID, with what is left of it. */
  lemma EnteredPublishes(u: Venue, c: ConnectionId, request: Request)
    requires Accepts(u, c, request) && Entered(u, request).rested
    ensures var messages := Posted(u, Receive(c, request));
      && messages != []
      && var last := messages[|messages| - 1];
         last.AddOrder? && last.uid == u.sequence && last.quantity == Entered(u, request).residual
  {
    hide SubmitLimit, SubmitMarket, TradeMessages, Canceled;
    MarketRestsNot(u.book);
  }

  lemma MarketRestsNot(b: Book)
    ensures forall side, quantity :: !SubmitMarket(b, side, quantity).rested
  {
  }

  lemma AddedByRequest(published: seq<FeedMessage>, posted: seq<FeedMessage>, later: seq<FeedMessage>, next: UID)
    requires Orderly(published + posted + later, next) && posted != [] && posted[|posted| - 1].AddOrder?
    ensures var last := posted[|posted| - 1];
      Added(published + posted + later, last.uid) == last.quantity
  {
    hide Orderly, Added;
    var i := |published| + |posted| - 1;
    assert (published + posted + later)[i] == posted[|posted| - 1];
    AddedOnce(published + posted + later, next, i);
  }

  /** From the request on, at every later point of every run: all of a submitted order is traded on
      entry, traded later as a resting order, deleted, still resting, or, for a market order that
      emptied the other side, unfilled. An order that is filled on entry trades its whole quantity. */
  lemma RunSubmitted(v: Venue, before: seq<Step>, c: ConnectionId, request: Request, after: seq<Step>)
    requires Initial(v) && Accepts(Run(v, before), c, request)
    ensures
      var u := Run(v, before);
      var x, taken := Entered(u, request), AllTraded(Posted(u, Receive(c, request)));
      var w := Run(Next(u, Receive(c, request)), after);
      && (x.rested ==>
            request.quantity == taken + TradedOf(Published(w), u.sequence)
                                + Deleted(EMPTY, Published(w), u.sequence) + Resting(w.book, u.sequence))
      && (!x.rested ==> request.quantity == taken + x.residual)
      && (!x.rested && x.residual > 0 ==>
            request.OrderRequest? && request.price == 0 && x.book.Of(request.side.Opposite()) == [])
  {
    hide Inv, Run, Next, Posted, Published, Entered, Orderly, AllTraded, TradedOf, Deleted, Resting, Added;
    var u, step := Run(v, before), Receive(c, request);
    var w := Run(Next(u, step), after);
    EnteredConserves(u, c, request);
    if Entered(u, request).rested {
      EnteredPublishes(u, c, request);
      StepPublishes(u, step);
      RunPublishes(Next(u, step), after);
      RunThrough(v, before, step, after);
      ReplicaAgrees(v, before + [step] + after);
      AddedByRequest(Published(u), Posted(u, step), PostedBy(Next(u, step), after), w.sequence);
      RunAccounts(v, before + [step] + after, u.sequence);
    }
  }
}
