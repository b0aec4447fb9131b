/**
 What every connection is sent by every step, who is let in and who is logged out, what each account's
 balances become and what the console and the completions do: said of the state before the step, the
 message that came and, for an order's ID, whether the order rests afterwards.
 */
module Answers {
  import opened MarketTypes
  import opened PriceTime
  import opened Sweeps
  import opened Books
  import opened Protocol
  import opened Outboxes
  import opened Desks
  import opened Venues
  import opened VenueInvariant
  import opened Trails
  import opened Accounting
  import opened OrderTheorems
  import opened Reports

  // ---------------------------------------------------------------------------
  // The answer to a request
  // ---------------------------------------------------------------------------

  /** The answer to a request that comes in state v and leaves state w. */
  function AnswerTo(v: Venue, w: Venue, c: ConnectionId, request: Request): Response
    requires c in v.desk.connections
  {
    var account := v.desk.connections[c].account;
    match request
    case LoginRequest(username, password) =>
      LoginResponse(
        if account.Some? then AlreadyAuthorized
        else if username !in v.desk.accounts then NotAuthorized
        else if v.desk.accounts[username].password != password then NotAuthorized
        else if v.desk.accounts[username].isConnected then SessionInUse
        else LoginAccepted)
    case LogoutRequest => LogoutResponse(if account.Some? then UserRequested else ProtocolViolation)
    case InvalidRequest => LogoutResponse(ProtocolViolation)
    case OrderRequest(_, _, price) =>
      OrderResponse(if account.Some? && price != 0 && v.sequence in w.owner then v.sequence else 0,
                    if account.Some? then Accepted else Rejected)
    case CancelRequest(orderId) =>
      CancelResponse(orderId, if account.Some? && orderId in v.owner && v.owner[orderId] == account.value
                              then Accepted else Rejected)
    case ReplaceRequest(orderId, _, _, _) =>
      if account.None? || (orderId in v.owner && v.owner[orderId] != account.value)
      then ReplaceResponse(orderId, 0, Rejected)
      else ReplaceResponse(if orderId in v.owner then orderId else 0,
                           if v.sequence in w.owner then v.sequence else 0, Accepted)
    case PurgeRequest(_) => PurgeResponse(if account.Some? then Accepted else Rejected)
  }

  /** The first n orders of the opposite side, and no others, are executed with: those that are acceptable
      and whose turn comes before the incoming quantity is used up. */
  predicate Executes(b: Book, side: Side, crossing: bool, price: Price, quantity: Quantity, n: nat) {
    var s := b.Of(side.Opposite());
    && n <= |s|
    && forall i | 0 <= i < |s| :: i < n <==>
         && crossing
         && (price == 0 || Respects(side, s[i].price, price))
         && (i == 0 || Volume(s[..i]) < quantity)
  }

  // ---------------------------------------------------------------------------
  // Placing orders
  // ---------------------------------------------------------------------------

  lemma AnswerSends(v: Venue, c': ConnectionId, r: Response, c: ConnectionId)
    requires c in v.desk.connections
    ensures var d := Answer(v, c', r).desk;
      && c in d.connections
      && Sent(d.connections[c]) == Sent(v.desk.connections[c]) + if c == c' then [r] else []
  {
    hide Send, Sent;
    SentMore(v.desk.connections[c], r);
    assert Sent(v.desk.connections[c]) + [] == Sent(v.desk.connections[c]);
  }

  lemma SweepExecutes(b: Book, side: Side, price: Price, quantity: Quantity)
    requires Sorted(side.Opposite(), b.Of(side.Opposite()))
    ensures var fills := Swept(b, side, price, quantity).fills;
      && ByList(b.Of(side.Opposite()), quantity, fills)
      && Executes(b, side, true, price, quantity, |fills|)
  {
    hide Match, Sorted, Volume, TradedAt, Coming;
    SweepByList(side.Opposite(), b.Of(side.Opposite()), price, quantity);
  }

  /** The executions of a limit or market order, by the list they hit. */
  lemma EnteredExecutes(v: Venue, c: ConnectionId, request: Request)
    requires Inv(v) && Accepts(v, c, request)
    ensures var u, fills := Met(v, request), Entered(v, request).fills;
      && ByList(u.book.Of(request.side.Opposite()), request.quantity, fills)
      && Executes(u.book, request.side,
                  (request.OrderRequest? && request.price == 0) || Crosses(u.book, request.side, request.price),
                  request.price, request.quantity, |fills|)
  {
    hide Inv, Match, Sorted, Volume, Send, Release, Canceled, Insert, ByList, TradedAt, Coming, SameSessions;
    var u := Met(v, request);
    if request.ReplaceRequest? && request.orderId in v.owner {
      CancelOrderKeepsInv(v, request.orderId);
    }
    InvSorted(u);
    SweepExecutes(u.book, request.side, request.price, request.quantity);
    NothingExecutes(u.book, request.side, request.price, request.quantity);
  }

  lemma InvSorted(v: Venue)
    requires Inv(v)
    ensures Sorted(Sell, v.book.sells) && Sorted(Buy, v.book.buys)
  {
  }

  lemma NothingExecutes(b: Book, side: Side, price: Price, quantity: Quantity)
    ensures ByList(b.Of(side.Opposite()), quantity, []) && Executes(b, side, false, price, quantity, 0)
  {
  }

  lemma PlacedSends(u: Venue, name: Username, side: Side, s: seq<Entry>, quantity: Quantity, fills: seq<Fill>,
                    c: ConnectionId)
    requires ByList(s, quantity, fills) && c in u.desk.connections
    requires forall i | 0 <= i < |fills| :: fills[i].uid in u.owner
    ensures var d := Executed(u, name, side, fills).desk;
      && c in d.connections
      && Sent(d.connections[c]) ==
           Sent(u.desk.connections[c]) + ReportsTo(u.desk, c, name, side, u.owner, s, quantity, |fills|)
  {
    hide ApplyFills, SendAll, UsedUp, Sent, ReportsTo, ByList;
    FillsSend(u.desk, name, side, u.owner, s, quantity, fills, c);
  }

  lemma {:induction false} SameReports(d: Desk, d': Desk, c: ConnectionId, name: Username, side: Side,
                                       owner: map<UID, Username>, s: seq<Entry>, quantity: Quantity, n: nat)
    requires n <= |s| && forall a :: Handles(d', a, c) <==> Handles(d, a, c)
    ensures ReportsTo(d', c, name, side, owner, s, quantity, n) == ReportsTo(d, c, name, side, owner, s, quantity, n)
  {
    hide Handles, TradedAt, Coming;
    if n > 0 {
      SameReports(d, d', c, name, side, owner, s, quantity, n - 1);
    }
  }

  // ---------------------------------------------------------------------------
  // What a request sends
  // ---------------------------------------------------------------------------

  lemma PlaceLimitSends(u: Venue, name: Username, side: Side, s: seq<Entry>, quantity: Quantity, price: Price,
                        c: ConnectionId)
    requires var x := SubmitLimit(u.book, side, u.sequence, quantity, price);
      && ByList(s, quantity, x.fills) && c in u.desk.connections
      && forall i | 0 <= i < |x.fills| :: x.fills[i].uid in u.owner
    ensures var x := SubmitLimit(u.book, side, u.sequence, quantity, price);
      var d := PlaceLimit(u, name, side, quantity, price).0.desk;
      && c in d.connections
      && Sent(d.connections[c]) ==
           Sent(u.desk.connections[c]) + ReportsTo(u.desk, c, name, side, u.owner, s, quantity, |x.fills|)
  {
    hide SubmitLimit, ApplyFills, SendAll, Send, UsedUp, Sent, ReportsTo, ByList;
    PlacedSends(u, name, side, s, quantity, SubmitLimit(u.book, side, u.sequence, quantity, price).fills, c);
  }

  lemma PlaceMarketSends(u: Venue, name: Username, side: Side, s: seq<Entry>, quantity: Quantity, c: ConnectionId)
    requires var x := SubmitMarket(u.book, side, quantity);
      && ByList(s, quantity, x.fills) && c in u.desk.connections
      && forall i | 0 <= i < |x.fills| :: x.fills[i].uid in u.owner
    ensures var x := SubmitMarket(u.book, side, quantity);
      var d := PlaceMarket(u, name, side, quantity).desk;
      && c in d.connections
      && Sent(d.connections[c]) ==
           Sent(u.desk.connections[c]) + ReportsTo(u.desk, c, name, side, u.owner, s, quantity, |x.fills|)
  {
    hide SubmitMarket, ApplyFills, SendAll, Send, UsedUp, Sent, ReportsTo, ByList;
    PlacedSends(u, name, side, s, quantity, SubmitMarket(u.book, side, quantity).fills, c);
  }

  /** The ID a placement returns is the order's if it rests and 0 if not. */
  lemma PlacedId(v: Venue, name: Username, side: Side, quantity: Quantity, price: Price)
    requires v.sequence !in v.owner
    ensures var (w, uid) := PlaceLimit(v, name, side, quantity, price);
      && uid == (if v.sequence in w.owner then v.sequence else 0)
      && (v.sequence in w.owner ==> w.owner[v.sequence] == name && v.sequence in w.book.AllUids())
      && w.sequence == (if v.sequence in w.owner then v.sequence + 1 else v.sequence)
  {
    hide Match, ApplyFills, SendAll, Send, UsedUp, Hold, Uids;
    var x := SubmitLimit(v.book, side, v.sequence, quantity, price);
    if x.rested {
      RestedListed(v.book, side, v.sequence, quantity, price);
    }
  }

  lemma RestedListed(b: Book, side: Side, uid: UID, quantity: Quantity, price: Price)
    requires SubmitLimit(b, side, uid, quantity, price).rested
    ensures uid in SubmitLimit(b, side, uid, quantity, price).book.AllUids()
  {
    hide Match, Insert, Uids;
    var x := SubmitLimit(b, side, uid, quantity, price);
    var swept := if Crosses(b, side, price) then Swept(b, side, price, quantity).rest else b.Of(side.Opposite());
    InsertUids(side, b.Of(side), Entry(uid, price, x.residual));
  }

  lemma SequenceFresh(v: Venue)
    requires Inv(v)
    ensures v.sequence !in v.owner && v.sequence > 0
  {
    NextIsFresh(v.book, v.sequence);
  }

  /** What a request that trades sends to connection c: the reports of its executions, n of them, and
      to the requesting connection the answer. */
  predicate Sends(v: Venue, w: Venue, c': ConnectionId, request: Request, c: ConnectionId, n: nat)
    requires c' in v.desk.connections && Accepts(v, c', request)
  {
    var u := Met(v, request);
    var s := u.book.Of(request.side.Opposite());
    && Executes(u.book, request.side,
                (request.OrderRequest? && request.price == 0) || Crosses(u.book, request.side, request.price),
                request.price, request.quantity, n)
    && c in v.desk.connections && c in w.desk.connections
    && Sent(w.desk.connections[c]) ==
         Sent(v.desk.connections[c])
         + ReportsTo(v.desk, c, Acting(v, c').value, request.side, u.owner, s, request.quantity, n)
         + (if c == c' then [AnswerTo(v, w, c', request)] else [])
  }

  lemma OrderSends(v: Venue, c': ConnectionId, request: Request, c: ConnectionId)
    requires Inv(v) && Accepts(v, c', request) && request.OrderRequest? && c in v.desk.connections
    ensures Sends(v, Next(v, Receive(c', request)), c', request, c, |Entered(v, request).fills|)
  {
    hide Inv, SubmitLimit, SubmitMarket, PlaceLimit, PlaceMarket, ReportsTo, Sent, ByList, Answer, SameBalances;
    var name, s := Acting(v, c').value, v.book.Of(request.side.Opposite());
    EnteredExecutes(v, c', request);
    ExecutionsKnown(v, Receive(c', request));
    SequenceFresh(v);
    if request.price == 0 {
      PlaceMarketSends(v, name, request.side, s, request.quantity, c);
      AnswerSends(PlaceMarket(v, name, request.side, request.quantity), c', OrderResponse(0, Accepted), c);
    } else {
      var (w, uid) := PlaceLimit(v, name, request.side, request.quantity, request.price);
      PlaceLimitSends(v, name, request.side, s, request.quantity, request.price, c);
      PlacedId(v, name, request.side, request.quantity, request.price);
      AnswerSends(w, c', OrderResponse(uid, Accepted), c);
      AnswerKeepsOwners(w, c', OrderResponse(uid, Accepted));
    }
  }

  lemma ReplaceSends(v: Venue, c': ConnectionId, request: Request, c: ConnectionId)
    requires Inv(v) && Accepts(v, c', request) && request.ReplaceRequest? && c in v.desk.connections
    ensures Sends(v, Next(v, Receive(c', request)), c', request, c, |Entered(v, request).fills|)
  {
    hide Inv, SubmitLimit, PlaceLimit, ReportsTo, Sent, ByList, Answer, SameBalances, CancelOrder, SameSessions;
    var u, name, orderId := Met(v, request), Acting(v, c').value, request.orderId;
    var s := u.book.Of(request.side.Opposite());
    EnteredExecutes(v, c', request);
    ExecutionsKnown(v, Receive(c', request));
    if orderId in v.owner {
      CancelOrderKeepsInv(v, orderId);
      FreedStays(v, orderId);
      SameReports(v.desk, u.desk, c, name, request.side, u.owner, s, request.quantity, |Entered(v, request).fills|);
    }
    SequenceFresh(u);
    var (w, uid) := PlaceLimit(u, name, request.side, request.quantity, request.price);
    var r := ReplaceResponse(if orderId in v.owner then orderId else 0, uid, Accepted);
    PlaceLimitSends(u, name, request.side, s, request.quantity, request.price, c);
    PlacedId(u, name, request.side, request.quantity, request.price);
    AnswerSends(w, c', r, c);
    AnswerKeepsOwners(w, c', r);
  }

  lemma FreedStays(v: Venue, orderId: UID)
    ensures var u := CancelOrder(v, orderId);
      && u.desk.connections == v.desk.connections && u.sequence == v.sequence
      && u.book == Canceled(v.book, orderId)
      && forall a, c :: Handles(u.desk, a, c) <==> Handles(v.desk, a, c)
  {
    hide Canceled, Send;
  }

  /** Every other request sends its answer to the requesting connection, and nothing else to anyone. */
  lemma OtherSends(v: Venue, c': ConnectionId, request: Request, c: ConnectionId)
    requires Inv(v) && c' in v.desk.connections && v.desk.connections[c'].open && !Accepts(v, c', request)
    requires c in v.desk.connections
    requires request.PurgeRequest? && Acting(v, c').Some? ==>
               Enumerates(request.picks, v.desk.accounts[Acting(v, c').value].orders)
    ensures var w := Next(v, Receive(c', request));
      && c in w.desk.connections
      && Sent(w.desk.connections[c]) ==
           Sent(v.desk.connections[c]) + if c == c' then [AnswerTo(v, w, c', request)] else []
  {
    hide Inv, PlaceLimit, PlaceMarket, Sent, Answer, AnswerTo, LogIn, LogOut, CancelOrder, CancelAll, Enumerates;
    var u, r := QuietRequest(v, c', request, c);
    AnswerSends(u, c', r, c);
  }

  /** Such a request changes the venue to u without sending anything, and then answers r. */
  lemma QuietRequest(v: Venue, c': ConnectionId, request: Request, c: ConnectionId) returns (u: Venue, r: Response)
    requires Inv(v) && c' in v.desk.connections && v.desk.connections[c'].open && !Accepts(v, c', request)
    requires c in v.desk.connections
    requires request.PurgeRequest? && Acting(v, c').Some? ==>
               Enumerates(request.picks, v.desk.accounts[Acting(v, c').value].orders)
    ensures c in u.desk.connections && Sent(u.desk.connections[c]) == Sent(v.desk.connections[c])
    ensures Next(v, Receive(c', request)) == Answer(u, c', r)
    ensures r == AnswerTo(v, Next(v, Receive(c', request)), c', request)
  {
    hide Inv, PlaceLimit, PlaceMarket, CancelAll, Canceled, Enumerates, Sent, Answer, Send, LogIn, LogOut, Release;
    LogInSent(v, c', c);
    var account := v.desk.connections[c'].account;
    u := v;
    r := AnswerTo(v, v, c', request);
    if account.Some? {
      AccountExists(v, c');
    }
    if request.LoginRequest? {
      if r == LoginResponse(LoginAccepted) {
        u := LogIn(v, c', request.username);
      }
    } else if request.InvalidRequest? || (request.LogoutRequest? && account.Some?) {
      u := LogOut(v, c');
    } else if account.Some? && request.CancelRequest? && r.status.Accepted? {
      FreedStays(v, request.orderId);
      u := CancelOrder(v, request.orderId);
    } else if account.Some? && request.PurgeRequest? {
      PurgeSent(v, request.picks);
      u := CancelAll(v, request.picks);
    }
  }

  lemma LogInSent(v: Venue, c': ConnectionId, c: ConnectionId)
    requires c in v.desk.connections && c' in v.desk.connections
    ensures forall name | name in v.desk.accounts ::
      && c in LogIn(v, c', name).desk.connections
      && Sent(LogIn(v, c', name).desk.connections[c]) == Sent(v.desk.connections[c])
    ensures c in LogOut(v, c').desk.connections
    ensures Sent(LogOut(v, c').desk.connections[c]) == Sent(v.desk.connections[c])
  {
    hide Bodies;
  }

  lemma {:induction false} PurgeSent(v: Venue, picks: seq<UID>)
    ensures CancelAll(v, picks).desk.connections == v.desk.connections
  {
    hide Canceled, Send;
    if picks != [] {
      PurgeSent(v, picks[..|picks| - 1]);
    }
  }

  /** What every request of an open connection sends to every connection, executions of others included;
      only a purge that does not walk the account's orders is no request of the system. */
  lemma RequestSends(v: Venue, c': ConnectionId, request: Request, c: ConnectionId) returns (n: nat)
    requires Inv(v) && c' in v.desk.connections && v.desk.connections[c'].open && c in v.desk.connections
    requires request.PurgeRequest? && Acting(v, c').Some? ==>
               Enumerates(request.picks, v.desk.accounts[Acting(v, c').value].orders)
    ensures var w := Next(v, Receive(c', request));
      if Accepts(v, c', request) then Sends(v, w, c', request, c, n)
      else
        && c in w.desk.connections
        && Sent(w.desk.connections[c]) ==
             Sent(v.desk.connections[c]) + if c == c' then [AnswerTo(v, w, c', request)] else []
  {
    hide Inv, Next, Sends, Sent, Enumerates, AnswerTo, Entered;
    n := 0;
    if Accepts(v, c', request) {
      n := |Entered(v, request).fills|;
      if request.OrderRequest? {
        OrderSends(v, c', request, c);
      } else {
        ReplaceSends(v, c', request, c);
      }
    } else {
      OtherSends(v, c', request, c);
    }
  }

  /** The last answer to every request that trades, and to every other one, is the one described. */
  lemma LastAnswerIs(v: Venue, c: ConnectionId, request: Request)
    requires Inv(v) && c in v.desk.connections && v.desk.connections[c].open
    requires request.PurgeRequest? && Acting(v, c).Some? ==>
               Enumerates(request.picks, v.desk.accounts[Acting(v, c).value].orders)
    ensures var w := Next(v, Receive(c, request));
      LastAnswer(w, c) == Some(AnswerTo(v, w, c, request))
  {
    hide Inv, Next, Enumerates, AnswerTo, ReportsTo, Executes, LastAnswer, Sent;
    var n := RequestSends(v, c, request, c);
    LastSent(Next(v, Receive(c, request)), c);
  }

  lemma LastSent(v: Venue, c: ConnectionId)
    requires c in v.desk.connections
    ensures var sent := Sent(v.desk.connections[c]);
      LastAnswer(v, c) == if sent == [] then None else Some(sent[|sent| - 1])
  {
  }

  lemma AnswerKeepsOwners(v: Venue, c: ConnectionId, r: Response)
    ensures var w := Answer(v, c, r);
      w.owner == v.owner && w.book == v.book && w.feed == v.feed && w.sequence == v.sequence
      && w.sessionActive == v.sessionActive && w.desk.accounts == v.desk.accounts
      && w.desk.connections.Keys == v.desk.connections.Keys
      && forall k | k in v.desk.connections ::
           && w.desk.connections[k].account == v.desk.connections[k].account
           && w.desk.connections[k].open == v.desk.connections[k].open
  {
    hide Send;
  }

  // ---------------------------------------------------------------------------
  // Order IDs
  // ---------------------------------------------------------------------------

  /** A step uses up the next order ID exactly when an order rests under it afterwards; an order that is
      filled on entry leaves its ID to the next one. */
  lemma IdsUsed(v: Venue, step: Step)
    requires Inv(v)
    ensures var w := Next(v, step);
      w.sequence == if v.sequence in w.owner then v.sequence + 1 else v.sequence
  {
    hide Inv, PlaceLimit, ApplyFills, SubmitMarket, SendAll, Send, UsedUp, Canceled, CancelAll, Respond, Release,
      Complete, Enumerates;
    SequenceFresh(v);
    if step.Receive? && Acting(v, step.c).Some? {
      var name := Acting(v, step.c).value;
      match step.request
      case OrderRequest(side, quantity, price) =>
        PlacedId(v, name, side, quantity, price);
      case ReplaceRequest(orderId, side, quantity, price) =>
        PlacedId(Met(v, step.request), name, side, quantity, price);
      case PurgeRequest(picks) =>
        PurgeKeepsIds(v, picks);
      case _ =>
    }
  }

  lemma {:induction false} PurgeKeepsIds(v: Venue, picks: seq<UID>)
    ensures CancelAll(v, picks).sequence == v.sequence && CancelAll(v, picks).owner.Keys <= v.owner.Keys
  {
    hide Canceled, Send, Release;
    if picks != [] {
      PurgeKeepsIds(v, picks[..|picks| - 1]);
    }
  }

  // ---------------------------------------------------------------------------
  // Balances
  // ---------------------------------------------------------------------------

  /** Every balance is a 64-bit number. */
  predicate AllInWidth(d: Desk) {
    forall a | a in d.accounts :: InWidth(d.accounts[a])
  }

  /** What a request that trades does to an account's balances, n being the number of its executions. */
  predicate Moves(v: Venue, w: Venue, c: ConnectionId, request: Request, a: Username, n: nat)
    requires Accepts(v, c, request)
  {
    var u, name := Met(v, request), Acting(v, c).value;
    var s := u.book.Of(request.side.Opposite());
    && Executes(u.book, request.side,
                (request.OrderRequest? && request.price == 0) || Crosses(u.book, request.side, request.price),
                request.price, request.quantity, n)
    && a in v.desk.accounts && a in w.desk.accounts
    && Shows64(w.desk.accounts[a].shares,
               v.desk.accounts[a].shares + SharesGained(a, name, request.side, u.owner, s, request.quantity, n))
    && Shows64(w.desk.accounts[a].capital,
               v.desk.accounts[a].capital + CapitalGained(a, name, request.side, u.owner, s, request.quantity, n))
  }

  /** Every step moves every account's shares and capital by what its executions trade, in plain
      arithmetic as long as that fits 64 bits; a step that does not trade moves nothing. */
  lemma StepMoves(v: Venue, step: Step, a: Username) returns (n: nat)
    requires Inv(v) && AllInWidth(v.desk) && a in v.desk.accounts
    ensures var w := Next(v, step);
      if Trades(v, step) then Moves(v, w, step.c, step.request, a, n)
      else a in w.desk.accounts && w.desk.accounts[a].shares == v.desk.accounts[a].shares
           && w.desk.accounts[a].capital == v.desk.accounts[a].capital
  {
    hide Inv, Next, Entered, Executes, SharesGained, CapitalGained, Shows64, ApplyFills, ByList;
    n := 0;
    StepBalances(v, step);
    if Trades(v, step) {
      var request, fills := step.request, Entered(v, step.request).fills;
      var u := Met(v, request);
      n := |fills|;
      EnteredExecutes(v, step.c, request);
      ExecutionsKnown(v, step);
      FillsMove(u.desk, Acting(v, step.c).value, request.side, u.owner, u.book.Of(request.side.Opposite()),
                request.quantity, fills, a);
    }
  }

  lemma StepKeepsWidth(v: Venue, step: Step)
    requires Inv(v) && AllInWidth(v.desk)
    ensures AllInWidth(Next(v, step).desk)
  {
    hide Inv, Next, Moves, Shows64;
    AccountsOfStep(v, step);
    forall a | a in Next(v, step).desk.accounts
      ensures InWidth(Next(v, step).desk.accounts[a])
    {
      var n := StepMoves(v, step, a);
      if Trades(v, step) {
        MovedInWidth(v, Next(v, step), step.c, step.request, a, n);
      }
    }
  }

  lemma MovedInWidth(v: Venue, w: Venue, c: ConnectionId, request: Request, a: Username, n: nat)
    requires Accepts(v, c, request) && Moves(v, w, c, request, a, n)
    ensures InWidth(w.desk.accounts[a])
  {
    hide SharesGained, CapitalGained, Executes;
  }

  lemma AccountsOfStep(v: Venue, step: Step)
    requires Inv(v)
    ensures Next(v, step).desk.accounts.Keys == v.desk.accounts.Keys
  {
    hide Inv, Next, ApplyFills, Entered;
    StepBalances(v, step);
    if Trades(v, step) {
      var u := Met(v, step.request);
      ExecutionsKnown(v, step);
      FillsSameSessions(u.desk, Acting(v, step.c).value, step.request.side, u.owner, Entered(v, step.request).fills);
    }
  }

  // ---------------------------------------------------------------------------
  // Who is let in
  // ---------------------------------------------------------------------------

  /** Everyone else's session is as it was. */
  predicate OthersStay(v: Venue, w: Venue, c: ConnectionId, name: Option<Username>) {
    && w.book == v.book && w.owner == v.owner && w.sequence == v.sequence && w.feed == v.feed
    && w.sessionActive == v.sessionActive
    && w.desk.connections.Keys == v.desk.connections.Keys && w.desk.accounts.Keys == v.desk.accounts.Keys
    && (forall k | k in v.desk.connections && k != c :: w.desk.connections[k] == v.desk.connections[k])
    && (forall a | a in v.desk.accounts && name != Some(a) :: w.desk.accounts[a] == v.desk.accounts[a])
  }

  /** Exactly a right password for an account that nobody is connected to lets a connection in that
      is not logged in, and the four answers say which of the four cases it was. */
  lemma LoginLetsIn(v: Venue, c: ConnectionId, username: Username, password: string)
    requires Inv(v) && c in v.desk.connections && v.desk.connections[c].open
    ensures var w := Next(v, Receive(c, LoginRequest(username, password)));
      var held := v.desk.connections[c].account;
      var right := username in v.desk.accounts && v.desk.accounts[username].password == password;
      var free := username in v.desk.accounts && !v.desk.accounts[username].isConnected;
      var letIn := held.None? && right && free;
      && OthersStay(v, w, c, Some(username)) && w.desk.connections[c].open
      && (forall a :: w.desk.connections[c].account == Some(a) <==> held == Some(a) || (letIn && a == username))
      && (username in v.desk.accounts ==>
            w.desk.accounts[username] ==
              if letIn then v.desk.accounts[username].(handler := Some(c), isConnected := true)
              else v.desk.accounts[username])
      && (LastAnswer(w, c) == Some(LoginResponse(LoginAccepted)) <==> letIn)
      && (LastAnswer(w, c) == Some(LoginResponse(AlreadyAuthorized)) <==> held.Some?)
      && (LastAnswer(w, c) == Some(LoginResponse(NotAuthorized)) <==> held.None? && !right)
      && (LastAnswer(w, c) == Some(LoginResponse(SessionInUse)) <==> held.None? && right && !free)
  {
    hide Inv, Send, LastAnswer;
    LastAnswerIs(v, c, LoginRequest(username, password));
  }

  // ---------------------------------------------------------------------------
  // Who is logged out
  // ---------------------------------------------------------------------------

  /** A logout request and a message with an unknown ID both end the session: the connection stays open
      and holds no account, and the account it held is free again. */
  lemma LogoutEnds(v: Venue, c: ConnectionId, request: Request)
    requires Inv(v) && c in v.desk.connections && v.desk.connections[c].open
    requires request.LogoutRequest? || request.InvalidRequest?
    ensures var w, held := Next(v, Receive(c, request)), v.desk.connections[c].account;
      && OthersStay(v, w, c, held) && w.desk.connections[c].open && w.desk.connections[c].account.None?
      && (held.Some? ==>
            && held.value in w.desk.accounts
            && w.desk.accounts[held.value] == v.desk.accounts[held.value].(handler := None, isConnected := false))
      && LastAnswer(w, c) == Some(LogoutResponse(
           if request.LogoutRequest? && held.Some? then UserRequested else ProtocolViolation))
  {
    hide Send, LastAnswer, BookOk, HoldingsOk, Replay, Orderly;
    LastAnswerIs(v, c, request);
  }

  /** The end of a connection ends its session without a word. */
  lemma HangUpEnds(v: Venue, c: ConnectionId)
    requires Inv(v) && c in v.desk.connections
    ensures var w, held := Next(v, HangUp(c)), v.desk.connections[c].account;
      && OthersStay(v, w, c, held)
      && w.desk.connections[c] == v.desk.connections[c].(open := false, account := None)
      && (held.Some? ==>
            && held.value in w.desk.accounts
            && w.desk.accounts[held.value] == v.desk.accounts[held.value].(handler := None, isConnected := false))
  {
    hide BookOk, HoldingsOk, Replay, Orderly;
  }

  /** A new connection is open, holds no account and has been sent nothing. */
  lemma AcceptStarts(v: Venue, c: ConnectionId)
    requires c !in v.desk.connections
    ensures var w := Next(v, Accept(c));
      && w == v.(desk := v.desk.(connections := w.desk.connections))
      && w.desk.connections.Keys == v.desk.connections.Keys + {c}
      && (forall k | k in v.desk.connections :: w.desk.connections[k] == v.desk.connections[k])
      && w.desk.connections[c].open && w.desk.connections[c].account.None? && Sent(w.desk.connections[c]) == []
  {
  }

  // ---------------------------------------------------------------------------
  // The book
  // ---------------------------------------------------------------------------

  /** A cancel that is accepted takes exactly its order off the book and publishes exactly that; one
      that is rejected leaves book and feed alone. */
  lemma CancelTakesOff(v: Venue, c: ConnectionId, orderId: UID)
    requires Inv(v) && c in v.desk.connections && v.desk.connections[c].open
    ensures var w, held := Next(v, Receive(c, CancelRequest(orderId))), v.desk.connections[c].account;
      var own := held.Some? && orderId in v.owner && v.owner[orderId] == held.value;
      var gone := if own then {orderId} else {};
      && w.book == Book(Without(v.book.sells, gone), Without(v.book.buys, gone))
      && w.owner == v.owner - gone && w.sequence == v.sequence
      && Published(w) == Published(v) + (if own then [DeleteOrder(orderId)] else [])
      && LastAnswer(w, c) == Some(CancelResponse(orderId, if own then Accepted else Rejected))
  {
    hide Inv, Send, LastAnswer, Canceled, Without, Release, Bodies;
    LastAnswerIs(v, c, CancelRequest(orderId));
    StepPublishes(v, Receive(c, CancelRequest(orderId)));
    InvBook(v);
    CanceledWithout(v.book, v.sequence, orderId);
    WithoutNone(v.book.sells, {});
    WithoutNone(v.book.buys, {});
  }

  /** Where an order goes: if it does not trade all of its quantity on entry it joins the back of the
      queue at its price with the rest, and every other queue of its side is as it was. */
  lemma LimitQueues(b: Book, side: Side, uid: UID, quantity: Quantity, price: Price, p: Price)
    requires Sorted(side, b.Of(side))
    ensures var x := SubmitLimit(b, side, uid, quantity, price);
      && Traded(x.fills) <= quantity
      && (x.rested <==> !Crosses(b, side, price) || Traded(x.fills) < quantity)
      && AtPrice(x.book.Of(side), p) ==
           AtPrice(b.Of(side), p)
           + if x.rested && p == price then [Entry(uid, price, quantity - Traded(x.fills))] else []
  {
    hide Match, Insert, AtPrice, Volume, Sorted;
    var x := SubmitLimit(b, side, uid, quantity, price);
    SubmissionConserves(b, side, uid, quantity, price);
    AtPriceInsert(side, b.Of(side), Entry(uid, price, x.residual), p);
    assert AtPrice(b.Of(side), p) + [] == AtPrice(b.Of(side), p);
  }

  // ---------------------------------------------------------------------------
  // The console and the completions
  // ---------------------------------------------------------------------------

  /** The console opens or closes the session, and says so exactly when that changes it. */
  lemma ConsoleSets(v: Venue, start: bool)
    ensures var w := Next(v, Console(start));
      && w.sessionActive == start && w.book == v.book && w.owner == v.owner && w.desk == v.desk
      && Published(w) == Published(v) +
           if start == v.sessionActive then [] else if start then [StartOfSession] else [EndOfSession]
  {
    hide Bodies, Send;
    StepPublishes(v, Console(start));
  }

  /** A completed write moves exactly the front response onto the wire and starts the next one. */
  lemma WriteMovesOn(v: Venue, c: ConnectionId)
    requires c in v.desk.connections && Healthy(v.desk.connections[c].outbox, 0)
    requires 0 < |v.desk.connections[c].outbox.queue| <= TWO_32
    ensures var w := Next(v, Written(c));
      && c in w.desk.connections
      && MovedOn(v.desk.connections[c].outbox, w.desk.connections[c].outbox)
      && w == v.(desk := v.desk.(connections := w.desk.connections))
      && w.desk.connections ==
           v.desk.connections[c := v.desk.connections[c].(outbox := w.desk.connections[c].outbox)]
  {
    hide Complete, Healthy, MovedOn;
    CompleteMovesOn(v.desk.connections[c].outbox, 0);
  }

  lemma FeedMovesOn(v: Venue)
    requires Healthy(v.feed, 1) && 0 < |v.feed.queue| <= TWO_32
    ensures var w := Next(v, FeedWritten);
      MovedOn(v.feed, w.feed) && w == v.(feed := w.feed)
  {
    hide Complete, Healthy, MovedOn;
    CompleteMovesOn(v.feed, 1);
  }
}
