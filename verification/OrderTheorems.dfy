/**
 Orders and balances over whole runs: totals never change, an order leaves the book only by
 being filled or by its own account's wish, and a refused request changes nothing.
 */
module OrderTheorems {
  import opened MarketTypes
  import opened PriceTime
  import opened Sweeps
  import opened Books
  import opened Outboxes
  import opened Desks
  import opened Protocol
  import opened Venues
  import opened VenueInvariant
  import opened Trails
  import opened Accounting

  // ---------------------------------------------------------------------------
  // Conservation
  // ---------------------------------------------------------------------------

  predicate SameBalances(d: Desk, d': Desk) {
    && d'.accounts.Keys == d.accounts.Keys
    && forall a | a in d.accounts ::
         d'.accounts[a].shares == d.accounts[a].shares && d'.accounts[a].capital == d.accounts[a].capital
  }

  lemma {:induction false} SumsAgree(names: seq<Username>, m: map<Username, Account>, m': map<Username, Account>)
    requires forall i | 0 <= i < |names| :: names[i] in m && names[i] in m'
    requires forall a | a in m && a in m' :: m'[a].shares == m[a].shares && m'[a].capital == m[a].capital
    ensures TotalShares(names, m') == TotalShares(names, m) && TotalCapital(names, m') == TotalCapital(names, m)
  {
    if names != [] {
      SumsAgree(names[1..], m, m');
    }
  }

  lemma SameBalancesTotals(names: seq<Username>, d: Desk, d': Desk)
    requires Roster(names, d.accounts) && SameBalances(d, d')
    ensures SameTotals(names, d, d') && ExactTotals(names, d, d')
  {
    SumsAgree(names, d.accounts, d'.accounts);
  }

  lemma SameTotalsTransitive(names: seq<Username>, d: Desk, d': Desk, d'': Desk)
    requires SameTotals(names, d, d') && SameTotals(names, d', d'')
    ensures SameTotals(names, d, d'')
    ensures ExactTotals(names, d, d') && ExactTotals(names, d', d'') ==> ExactTotals(names, d, d'')
  {
    hide Roster, TotalShares, TotalCapital;
  }

  lemma TotalsRoster(names: seq<Username>, d: Desk, d': Desk)
    requires SameTotals(names, d, d')
    ensures Roster(names, d'.accounts)
  {
  }

  lemma {:induction false} CancelAllBalances(v: Venue, picks: seq<UID>)
    ensures SameBalances(v.desk, CancelAll(v, picks).desk)
  {
    hide Canceled, Send;
    if picks != [] {
      CancelAllBalances(v, picks[..|picks| - 1]);
    }
  }

  /** The venue a request for a new order meets: a replace has freed the old order by then. */
  function Met(v: Venue, request: Request): Venue {
    if request.ReplaceRequest? && request.orderId in v.owner then CancelOrder(v, request.orderId) else v
  }

  predicate Trades(v: Venue, step: Step) {
    step.Receive? && Accepts(v, step.c, step.request)
  }

  /** The desk once the executions of a step are booked. */
  function Settlement(v: Venue, step: Step): Desk {
    if !Trades(v, step) then v.desk
    else
      var u, name := Met(v, step.request), Acting(v, step.c).value;
      ApplyFills(u.desk, name, step.request.side, u.owner, Entered(v, step.request).fills)
  }

  /** No booking of the step leaves 64 bits. */
  predicate StepFits(v: Venue, step: Step) {
    Trades(v, step) ==>
      var u, name := Met(v, step.request), Acting(v, step.c).value;
      FillsFit(u.desk, name, step.request.side, u.owner, Entered(v, step.request).fills)
  }

  predicate RunFits(v: Venue, steps: seq<Step>)
    decreases |steps|
  {
    steps == [] || (StepFits(v, steps[0]) && RunFits(Next(v, steps[0]), steps[1..]))
  }

  /** Executions are booked between accounts that exist. */
  lemma ExecutionsKnown(v: Venue, step: Step)
    requires Inv(v) && Trades(v, step)
    ensures var u, fills := Met(v, step.request), Entered(v, step.request).fills;
      && Acting(v, step.c).value in u.desk.accounts && SameBalances(v.desk, u.desk)
      && forall i | 0 <= i < |fills| :: fills[i].uid in u.owner && u.owner[fills[i].uid] in u.desk.accounts
  {
    hide Inv, BookOk, Canceled, SubmitLimit, SubmitMarket, Send, SameSessions, DistinctFills, UsedUp, Uids;
    var u, request := Met(v, step.request), step.request;
    AccountExists(v, step.c);
    if request.ReplaceRequest? && request.orderId in v.owner {
      CancelOrderKeepsInv(v, request.orderId);
    }
    InvBook(u);
    OwnersExist(u);
    if request.OrderRequest? && request.price == 0 {
      MarketFillsListed(u, request.side, request.quantity);
    } else {
      SubmissionUids(u.book, u.sequence, request.side, request.quantity, request.price);
    }
  }

  lemma OwnersExist(v: Venue)
    requires Inv(v)
    ensures forall u | u in v.owner :: v.owner[u] in v.desk.accounts
  {
    hide BookOk, SessionsOk, Replay, Orderly;
  }

  lemma MarketFillsListed(v: Venue, side: Side, quantity: Quantity)
    requires BookOk(v.book, v.sequence)
    ensures var fills := SubmitMarket(v.book, side, quantity).fills;
      forall i | 0 <= i < |fills| :: fills[i].uid in v.book.AllUids()
  {
    hide BookOk, Match, DistinctFills, UsedUp, Uids;
    SweptOwners(v.book, v.sequence, side, 0, quantity);
  }

  lemma PlacedBalances(v: Venue, name: Username, side: Side, quantity: Quantity, price: Price)
    ensures var fills := SubmitLimit(v.book, side, v.sequence, quantity, price).fills;
      SameBalances(ApplyFills(v.desk, name, side, v.owner, fills), PlaceLimit(v, name, side, quantity, price).0.desk)
    ensures var fills := SubmitMarket(v.book, side, quantity).fills;
      SameBalances(ApplyFills(v.desk, name, side, v.owner, fills), PlaceMarket(v, name, side, quantity).desk)
  {
    hide SubmitLimit, SubmitMarket, ApplyFills, SendAll, Send, UsedUp;
  }

  lemma AnswerBalances(v: Venue, c: ConnectionId, r: Response)
    ensures Answer(v, c, r).desk.accounts == v.desk.accounts
  {
    hide Send;
  }

  lemma RequestBalances(v: Venue, c: ConnectionId, request: Request)
    requires Acting(v, c).Some?
    ensures SameBalances(Settlement(v, Receive(c, request)), HandleRequest(v, c, request).desk)
  {
    hide SubmitLimit, SubmitMarket, PlaceLimit, PlaceMarket, ApplyFills, SendAll, Send, UsedUp, Canceled, CancelAll,
      Enumerates, Answer;
    var name := Acting(v, c).value;
    forall w, r
      ensures Answer(w, c, r).desk.accounts == w.desk.accounts
    {
      AnswerBalances(w, c, r);
    }
    match request
    case OrderRequest(side, quantity, price) =>
      PlacedBalances(v, name, side, quantity, price);
    case ReplaceRequest(orderId, side, quantity, price) =>
      PlacedBalances(Met(v, request), name, side, quantity, price);
    case PurgeRequest(picks) =>
      CancelAllBalances(v, picks);
    case _ =>
  }

  /** Beyond booking its executions a step moves nobody's shares or capital. */
  lemma StepBalances(v: Venue, step: Step)
    ensures SameBalances(Settlement(v, step), Next(v, step).desk)
  {
    hide HandleRequest, ApplyFills, Complete, Send, Entered, Met;
    if step.Receive? {
      if Acting(v, step.c).Some? {
        RequestBalances(v, step.c, step.request);
      } else {
        OutsiderBalances(v, step.c, step.request);
      }
    }
  }

  lemma OutsiderBalances(v: Venue, c: ConnectionId, request: Request)
    requires Acting(v, c).None?
    ensures SameBalances(v.desk, Next(v, Receive(c, request)).desk)
  {
    hide Send;
  }

  lemma NextTotals(names: seq<Username>, v: Venue, step: Step)
    requires Inv(v) && Roster(names, v.desk.accounts)
    ensures SameTotals(names, v.desk, Next(v, step).desk)
    ensures StepFits(v, step) ==> ExactTotals(names, v.desk, Next(v, step).desk)
  {
    hide Inv, SameTotals, ExactTotals, Roster, Next, ApplyFills, SameBalances, Met, Entered, FillsFit;
    var booked, next := Settlement(v, step), Next(v, step).desk;
    StepBalances(v, step);
    if Trades(v, step) {
      var u, name := Met(v, step.request), Acting(v, step.c).value;
      ExecutionsKnown(v, step);
      SameBalancesTotals(names, v.desk, u.desk);
      TotalsRoster(names, v.desk, u.desk);
      FillsSameTotals(names, u.desk, name, step.request.side, u.owner, Entered(v, step.request).fills);
      SameTotalsTransitive(names, v.desk, u.desk, booked);
      TotalsRoster(names, v.desk, booked);
      SameBalancesTotals(names, booked, next);
      SameTotalsTransitive(names, v.desk, booked, next);
    } else {
      SameBalancesTotals(names, v.desk, next);
    }
  }

  /** In every run the total of shares and the total of capital over all accounts stay what they
      were, as 64-bit arithmetic sees them, self-trades included; and exactly what they were if no
      booking on the way leaves 64 bits. */
  lemma {:induction false} RunTotals(names: seq<Username>, v: Venue, steps: seq<Step>)
    requires Inv(v) && Roster(names, v.desk.accounts)
    ensures SameTotals(names, v.desk, Run(v, steps).desk)
    ensures RunFits(v, steps) ==> ExactTotals(names, v.desk, Run(v, steps).desk)
    decreases |steps|
  {
    hide Inv, SameTotals, ExactTotals, Roster, Next, StepFits;
    if steps == [] {
      SameBalancesTotals(names, v.desk, v.desk);
    } else {
      var w := Next(v, steps[0]);
      NextTotals(names, v, steps[0]);
      NextKeepsInv(v, steps[0]);
      TotalsRoster(names, v.desk, w.desk);
      RunTotals(names, w, steps[1..]);
      SameTotalsTransitive(names, v.desk, w.desk, Run(w, steps[1..]).desk);
    }
  }

  // ---------------------------------------------------------------------------
  // How an order leaves the book
  // ---------------------------------------------------------------------------

  /** The messages contain a trade of the order for all that remained of it. */
  predicate TradedOut(b: Book, messages: seq<FeedMessage>, uid: UID) {
    exists i | 0 <= i < |messages| ::
      messages[i].Trade? && messages[i].uid == uid && messages[i].quantity == Resting(b, uid)
  }

  /** The request asks for the order's removal. */
  predicate AsksFor(request: Request, uid: UID) {
    || request == CancelRequest(uid)
    || (request.ReplaceRequest? && request.orderId == uid)
    || request.PurgeRequest?
  }

  lemma UsedUpTraded(b: Book, next: UID, side: Side, price: Price, quantity: Quantity, uid: UID)
    requires BookOk(b, next) && uid in UsedUp(Swept(b, side, price, quantity).fills)
    ensures TradedOut(b, TradeMessages(Swept(b, side, price, quantity).fills, side), uid)
  {
    hide Match, After, Sorted, TimeOrdered;
    var o := side.Opposite();
    var s := b.Of(o);
    var fills := Swept(b, side, price, quantity).fills;
    SweepShape(o, s, price, quantity);
    var i :| 0 <= i < |fills| && fills[i].makerLeaves == 0 && fills[i].uid == uid;
    RemainingAt(s, i);
    assert s[i].uid in Uids(s);
    RemainingNone(b.Of(side), uid);
    assert TradeMessages(fills, side)[i].quantity == Resting(b, uid);
  }

  lemma TradedOutLater(b: Book, messages: seq<FeedMessage>, uid: UID, before: seq<FeedMessage>, after: seq<FeedMessage>)
    requires TradedOut(b, messages, uid)
    ensures TradedOut(b, before + messages + after, uid)
  {
    var i :| 0 <= i < |messages| && messages[i].Trade? && messages[i].uid == uid
      && messages[i].quantity == Resting(b, uid);
    assert (before + messages + after)[|before| + i] == messages[i];
  }

  lemma LimitExit(v: Venue, name: Username, side: Side, quantity: Quantity, price: Price, uid: UID)
    requires Inv(v) && name in v.desk.accounts && uid in v.owner
    requires uid !in PlaceLimit(v, name, side, quantity, price).0.owner
    ensures TradedOut(v.book, LimitMessages(v.book, side, v.sequence, quantity, price), uid)
  {
    hide Inv, SubmitLimit, ApplyFills, Send, SendAll, UsedUp, TradedOut, Uids, TradeMessages;
    var x := SubmitLimit(v.book, side, v.sequence, quantity, price);
    var trades := TradeMessages(x.fills, side);
    InvBook(v);
    LimitFills(v.book, side, v.sequence, quantity, price);
    UsedUpNone();
    assert uid in UsedUp(x.fills);
    UsedUpTraded(v.book, v.sequence, side, price, quantity, uid);
    var last := if x.rested then [AddOrder(v.sequence, price, x.residual, side)] else [];
    TradedOutLater(v.book, trades, uid, [], last);
    assert [] + trades + last == trades + last;
  }

  lemma LimitFills(b: Book, side: Side, uid: UID, quantity: Quantity, price: Price)
    ensures SubmitLimit(b, side, uid, quantity, price).fills ==
            if Crosses(b, side, price) then Swept(b, side, price, quantity).fills else []
  {
  }

  lemma MarketExit(v: Venue, name: Username, side: Side, quantity: Quantity, uid: UID)
    requires Inv(v) && uid in v.owner && uid !in PlaceMarket(v, name, side, quantity).owner
    ensures TradedOut(v.book, MarketMessages(v.book, side, quantity), uid)
  {
    hide Inv, Match, ApplyFills, SendAll, UsedUp, TradedOut, Uids, TradeMessages;
    InvBook(v);
    UsedUpTraded(v.book, v.sequence, side, 0, quantity, uid);
  }

  /** A replace that first cancels: the cancellation comes first on the feed and leaves others alone. */
  lemma FreedExit(v: Venue, name: Username, orderId: UID, side: Side, quantity: Quantity, price: Price, uid: UID)
    requires Inv(v) && name in v.desk.accounts && orderId in v.owner && uid in v.owner && uid != orderId
    requires uid !in PlaceLimit(CancelOrder(v, orderId), name, side, quantity, price).0.owner
    ensures TradedOut(v.book, [DeleteOrder(orderId)] +
                              LimitMessages(Canceled(v.book, orderId), side, v.sequence, quantity, price), uid)
  {
    hide Inv, PlaceLimit, Send, TradedOut, SameSessions, Canceled, Resting, LimitMessages;
    var freed := CancelOrder(v, orderId);
    var more := LimitMessages(freed.book, side, v.sequence, quantity, price);
    CancelOrderKeepsInv(v, orderId);
    AccountsStay(v.desk, freed.desk);
    LimitExit(freed, name, side, quantity, price, uid);
    InvBook(v);
    CancelLeavesOthers(v.book, v.sequence, orderId, uid);
    SameResting(v.book, freed.book, more, uid);
    TradedOutLater(v.book, more, uid, [DeleteOrder(orderId)], []);
    assert [DeleteOrder(orderId)] + more + [] == [DeleteOrder(orderId)] + more;
  }

  lemma SameResting(b: Book, b': Book, messages: seq<FeedMessage>, uid: UID)
    requires Resting(b', uid) == Resting(b, uid) && TradedOut(b', messages, uid)
    ensures TradedOut(b, messages, uid)
  {
  }

  lemma CancelLeavesOthers(b: Book, next: UID, orderId: UID, uid: UID)
    requires BookOk(b, next) && uid != orderId
    ensures Resting(Canceled(b, orderId), uid) == Resting(b, uid)
  {
    hide Remaining, Sorted, TimeOrdered;
    var s := b.Of(SideOf(b, orderId));
    if Find(s, orderId) < |s| {
      RemainingRemove(s, Find(s, orderId), uid);
    }
  }

  /** An order that a step takes off the book was filled completely in that step, or its own
      account asked for its removal. */
  lemma OrderExit(v: Venue, step: Step, uid: UID)
    requires Inv(v) && uid in v.owner && uid !in Next(v, step).owner
    ensures step.Receive? && Acting(v, step.c).Some?
    ensures || TradedOut(v.book, Posted(v, step), uid)
            || (Acting(v, step.c).value == v.owner[uid] && AsksFor(step.request, uid))
  {
    hide Inv, PlaceLimit, PlaceMarket, CancelAll, Canceled, Send, TradedOut, SameSessions, Enumerates, LimitMessages,
      MarketMessages, Deletions;
    var c := step.c;
    var name := v.desk.connections[c].account.value;
    AccountExists(v, c);
    match step.request
    case OrderRequest(side, quantity, price) =>
      if price == 0 {
        MarketExit(v, name, side, quantity, uid);
      } else {
        LimitExit(v, name, side, quantity, price, uid);
      }
    case CancelRequest(_) =>
    case ReplaceRequest(orderId, side, quantity, price) =>
      if orderId !in v.owner {
        LimitExit(v, name, side, quantity, price, uid);
      } else if uid != orderId && v.owner[orderId] == name {
        FreedExit(v, name, orderId, side, quantity, price, uid);
      }
    case PurgeRequest(picks) =>
      EnumerationOwned(v, name, picks);
      CancelAllKeepsInv(v, picks);
      assert uid in Members(picks);
      assert uid in picks;
    case _ =>
  }

  // ---------------------------------------------------------------------------
  // Refused requests
  // ---------------------------------------------------------------------------

  predicate IsRejection(r: Response) {
    match r
    case LoginResponse(login) => !login.LoginAccepted?
    case OrderResponse(_, status) => status.Rejected?
    case CancelResponse(_, status) => status.Rejected?
    case ReplaceResponse(_, _, status) => status.Rejected?
    case PurgeResponse(status) => status.Rejected?
    case _ => false
  }

  /** The last response queued for a connection. */
  function LastAnswer(v: Venue, c: ConnectionId): Option<Response> {
    if c in v.desk.connections && v.desk.connections[c].outbox.enqueued != []
    then Some(v.desk.connections[c].outbox.enqueued[|v.desk.connections[c].outbox.enqueued| - 1].body) else None
  }

  lemma AnswerIsLast(v: Venue, c: ConnectionId, r: Response)
    requires c in v.desk.connections
    ensures LastAnswer(Answer(v, c, r), c) == Some(r)
  {
  }

  lemma PlacedConnection(v: Venue, name: Username, side: Side, quantity: Quantity, price: Price, c: ConnectionId)
    requires Inv(v) && name in v.desk.accounts && c in v.desk.connections
    ensures c in PlaceLimit(v, name, side, quantity, price).0.desk.connections
    ensures c in PlaceMarket(v, name, side, quantity).desk.connections
  {
    hide Inv, PlaceLimit, PlaceMarket, SameSessions;
    PlaceLimitKeepsInv(v, name, side, quantity, price);
    PlaceMarketKeepsInv(v, name, side, quantity);
    AccountsStay(v.desk, PlaceLimit(v, name, side, quantity, price).0.desk);
    AccountsStay(v.desk, PlaceMarket(v, name, side, quantity).desk);
  }

  /** If a request is answered with a rejection, that answer is all that happened: book,
      accounts, feed and every other connection are as before. */
  lemma RejectedUnchanged(v: Venue, c: ConnectionId, request: Request)
    requires Inv(v) && c in v.desk.connections && v.desk.connections[c].open
    requires HandleRequest(v, c, request) != v
    requires LastAnswer(HandleRequest(v, c, request), c).Some?
    requires IsRejection(LastAnswer(HandleRequest(v, c, request), c).value)
    ensures HandleRequest(v, c, request) == Answer(v, c, LastAnswer(HandleRequest(v, c, request), c).value)
  {
    hide Inv, PlaceLimit, PlaceMarket, CancelAll, CancelOrder, Answer, LastAnswer, SameSessions, Enumerates, LogIn,
      LogOut, SessionsOk;
    var account := v.desk.connections[c].account;
    InvSessions(v);
    LogOutSessions(v, c);
    forall w: Venue, r | c in w.desk.connections
      ensures LastAnswer(Answer(w, c, r), c) == Some(r)
    {
      AnswerIsLast(w, c, r);
    }
    if request.LoginRequest? && request.username in v.desk.accounts {
      LogInConnections(v, c, request.username);
    }
    if account.Some? {
      AccountExists(v, c);
      match request
      case OrderRequest(side, quantity, price) =>
        PlacedConnection(v, account.value, side, quantity, price, c);
      case CancelRequest(orderId) =>
        if orderId in v.owner {
          CancelOrderKeepsInv(v, orderId);
          AccountsStay(v.desk, CancelOrder(v, orderId).desk);
        }
      case ReplaceRequest(orderId, side, quantity, price) =>
        PlacedConnection(v, account.value, side, quantity, price, c);
        if orderId in v.owner {
          CancelOrderKeepsInv(v, orderId);
          AccountsStay(v.desk, CancelOrder(v, orderId).desk);
          PlacedConnection(CancelOrder(v, orderId), account.value, side, quantity, price, c);
        }
      case PurgeRequest(picks) =>
        if Enumerates(picks, v.desk.accounts[account.value].orders) {
          EnumerationOwned(v, account.value, picks);
          CancelAllKeepsInv(v, picks);
          AccountsStay(v.desk, CancelAll(v, picks).desk);
        }
      case _ =>
    }
  }

  lemma LogInConnections(v: Venue, c: ConnectionId, name: Username)
    requires c in v.desk.connections && name in v.desk.accounts
    ensures c in LogIn(v, c, name).desk.connections
  {
  }

  // ---------------------------------------------------------------------------
  // Purges
  // ---------------------------------------------------------------------------

  /** The list without the given orders, everyone else in the same order. */
  function Without(s: seq<Entry>, gone: set<UID>): seq<Entry> {
    if s == [] then [] else (if s[0].uid in gone then [] else [s[0]]) + Without(s[1..], gone)
  }

  lemma {:induction false} WithoutNone(s: seq<Entry>, gone: set<UID>)
    requires forall i | 0 <= i < |s| :: s[i].uid !in gone
    ensures Without(s, gone) == s
  {
    if s != [] {
      WithoutNone(s[1..], gone);
    }
  }

  lemma {:induction false} WithoutTwice(s: seq<Entry>, gone: set<UID>, more: set<UID>)
    ensures Without(Without(s, gone), more) == Without(s, gone + more)
  {
    if s != [] {
      WithoutTwice(s[1..], gone, more);
      var rest := Without(s[1..], gone);
      if s[0].uid in gone {
        assert Without(s, gone) == rest;
        assert Without(s, gone + more) == Without(s[1..], gone + more);
      } else {
        assert ([s[0]] + rest)[1..] == rest;
      }
    }
  }

  lemma {:induction false} RemoveIsWithout(s: seq<Entry>, uid: UID)
    requires Distinct(s)
    ensures Remove(s, uid) == Without(s, {uid})
  {
    if s == [] {
    } else if s[0].uid == uid {
      WithoutNone(s[1..], {uid});
      assert Remove(s, uid) == s[1..];
    } else {
      RemoveIsWithout(s[1..], uid);
      var i := Find(s[1..], uid);
      assert Find(s, uid) == i + 1;
      if i < |s[1..]| {
        assert RemoveAt(s, i + 1) == [s[0]] + RemoveAt(s[1..], i);
      } else {
        assert s == [s[0]] + s[1..];
      }
    }
  }

  lemma CanceledWithout(b: Book, next: UID, uid: UID)
    requires BookOk(b, next)
    ensures Canceled(b, uid) == Book(Without(b.sells, {uid}), Without(b.buys, {uid}))
  {
    hide Sorted, TimeOrdered, Without, Remove;
    RemoveIsWithout(b.sells, uid);
    RemoveIsWithout(b.buys, uid);
    if uid in Uids(b.sells) {
      assert forall i | 0 <= i < |b.buys| :: b.buys[i].uid in Uids(b.buys);
      WithoutNone(b.buys, {uid});
    } else {
      assert forall i | 0 <= i < |b.sells| :: b.sells[i].uid in Uids(b.sells);
      WithoutNone(b.sells, {uid});
    }
  }

  lemma {:induction false} CancelAllWithout(v: Venue, picks: seq<UID>)
    requires Inv(v)
    requires forall i | 0 <= i < |picks| :: picks[i] in v.owner
    requires forall i, j | 0 <= i < j < |picks| :: picks[i] != picks[j]
    ensures CancelAll(v, picks).book == Book(Without(v.book.sells, Members(picks)),
                                             Without(v.book.buys, Members(picks)))
  {
    hide Inv, SameSessions, Without, Canceled, Send, Release;
    if picks == [] {
      assert Members(picks) == {};
      WithoutNone(v.book.sells, {});
      WithoutNone(v.book.buys, {});
    } else {
      var n := |picks| - 1;
      var w := CancelAll(v, picks[..n]);
      CancelAllWithout(v, picks[..n]);
      CancelAllKeepsInv(v, picks[..n]);
      InvBook(w);
      CanceledWithout(w.book, w.sequence, picks[n]);
      WithoutTwice(v.book.sells, Members(picks[..n]), {picks[n]});
      WithoutTwice(v.book.buys, Members(picks[..n]), {picks[n]});
      MembersOne(picks);
    }
  }

  /** A purge takes off exactly the account's own orders, whatever order it walks them in, and
      keeps everyone else's orders in their places. */
  lemma PurgeExact(v: Venue, c: ConnectionId, picks: seq<UID>)
    requires Inv(v) && c in v.desk.connections && v.desk.connections[c].open && v.desk.connections[c].account.Some?
    requires v.desk.connections[c].account.value in v.desk.accounts
    requires Enumerates(picks, v.desk.accounts[v.desk.connections[c].account.value].orders)
    ensures var own := v.desk.accounts[v.desk.connections[c].account.value].orders;
      var w := HandleRequest(v, c, PurgeRequest(picks));
      && w.book == Book(Without(v.book.sells, own), Without(v.book.buys, own))
      && w.owner == v.owner - own
      && Inv(w)
  {
    hide Inv, SameSessions, CancelAll, Without, Send;
    var name := v.desk.connections[c].account.value;
    EnumerationOwned(v, name, picks);
    EnumerationMembers(picks, v.desk.accounts[name].orders);
    CancelAllWithout(v, picks);
    CancelAllKeepsInv(v, picks);
    HandleRequestKeepsInv(v, c, PurgeRequest(picks));
  }

  lemma EnumerationMembers(picks: seq<UID>, uids: set<UID>)
    requires Enumerates(picks, uids)
    ensures Members(picks) == uids
  {
    assert forall u | u in picks :: exists i :: 0 <= i < |picks| && picks[i] == u;
  }
}
