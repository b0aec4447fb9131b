/** What every step of the venue keeps, and hence what holds in every reachable state. */
module VenueInvariant {
  import opened MarketTypes
  import opened PriceTime
  import opened Sweeps
  import opened Books
  import opened Protocol
  import opened Outboxes
  import opened Desks
  import opened Venues

  ghost predicate Inv(v: Venue) {
    && v.sequence > 0 && BookOk(v.book, v.sequence)
    && v.owner.Keys == v.book.AllUids()
    && HoldingsOk(v.desk, v.owner)
    && SessionsOk(v.desk)
    && Replay(EMPTY, Published(v)) == Some(v.book)
    && Orderly(Published(v), v.sequence)
  }

  // ---------------------------------------------------------------------------
  // Executions
  // ---------------------------------------------------------------------------

  lemma SweptOwners(b: Book, next: UID, side: Side, price: Price, quantity: Quantity)
    requires BookOk(b, next)
    ensures var m := Swept(b, side, price, quantity);
      && DistinctFills(m.fills)
      && (forall i | 0 <= i < |m.fills| :: m.fills[i].uid in b.AllUids())
      && b.With(side.Opposite(), m.rest).AllUids() == b.AllUids() - UsedUp(m.fills)
  {
    hide Match, After, Sorted, TimeOrdered, DistinctFills, UsedUp;
    var o := side.Opposite();
    var m := Swept(b, side, price, quantity);
    SweepShape(o, b.Of(o), price, quantity);
    FollowsDistinct(b.Of(o), m.fills);
    SweptUids(b.Of(o), m.fills);
    UsedUpIsPrefix(b.Of(o), m.fills);
    PrefixUids(b.Of(o), Gone(m.fills));
  }

  lemma ExecutedFacts(v: Venue, taker: Username, side: Side, fills: seq<Fill>)
    requires Inv(v) && DistinctFills(fills)
    requires forall i | 0 <= i < |fills| :: fills[i].uid in v.book.AllUids()
    ensures var w := Executed(v, taker, side, fills);
      && w.owner.Keys == v.book.AllUids() - UsedUp(fills)
      && HoldingsOk(w.desk, w.owner)
      && SameSessions(v.desk, w.desk) && SessionsOk(w.desk)
      && Published(w) == Published(v) + TradeMessages(fills, side)
  {
    hide BookOk, HoldingsOk, SessionsOk, SameSessions, ApplyFills, UsedUp, SendAll, Bodies, Orderly, DistinctFills;
    FillsKeepHoldings(v.desk, taker, side, v.owner, fills);
    FillsSameSessions(v.desk, taker, side, v.owner, fills);
    SameSessionsOk(v.desk, ApplyFills(v.desk, taker, side, v.owner, fills));
    SendAllEnqueues(v.feed, TradeMessages(fills, side));
  }

  // ---------------------------------------------------------------------------
  // Orders
  // ---------------------------------------------------------------------------

  lemma SubmissionUids(b: Book, next: UID, side: Side, quantity: Quantity, price: Price)
    requires BookOk(b, next)
    ensures var x := SubmitLimit(b, side, next, quantity, price);
      && DistinctFills(x.fills)
      && (forall i | 0 <= i < |x.fills| :: x.fills[i].uid in b.AllUids())
      && x.book.AllUids() == b.AllUids() - UsedUp(x.fills) + (if x.rested then {next} else {})
  {
    hide BookOk, Match, Insert, Uids, UsedUp;
    var x := SubmitLimit(b, side, next, quantity, price);
    UsedUpNone();
    SweptOwners(b, next, side, price, quantity);
    if x.rested {
      var swept := if Crosses(b, side, price) then b.With(side.Opposite(), Swept(b, side, price, quantity).rest) else b;
      InsertUids(side, swept.Of(side), Entry(next, price, x.residual));
    }
  }

  lemma HoldKeepsHoldings(d: Desk, owner: map<UID, Username>, name: Username, uid: UID)
    requires HoldingsOk(d, owner) && name in d.accounts && uid !in owner
    ensures HoldingsOk(Hold(d, name, uid), owner[uid := name])
    ensures SameSessions(d, Hold(d, name, uid))
  {
  }

  lemma PlaceLimitKeepsInv(v: Venue, taker: Username, side: Side, quantity: Quantity, price: Price)
    requires Inv(v) && taker in v.desk.accounts
    ensures Inv(PlaceLimit(v, taker, side, quantity, price).0)
    ensures SameSessions(v.desk, PlaceLimit(v, taker, side, quantity, price).0.desk)
  {
    hide BookOk, SubmitLimit, HoldingsOk, SessionsOk, SameSessions, Executed, Hold, Replay, Bodies, TradeMessages,
      Send, Orderly, DistinctFills, UsedUp, Uids;
    var x := SubmitLimit(v.book, side, v.sequence, quantity, price);
    var w := Executed(v, taker, side, x.fills);
    var (placed, uid) := PlaceLimit(v, taker, side, quantity, price);
    SubmissionUids(v.book, v.sequence, side, quantity, price);
    ExecutedFacts(v, taker, side, x.fills);
    NextIsFresh(v.book, v.sequence);
    LimitReplay(v.book, v.sequence, side, quantity, price);
    ReplayConcat(EMPTY, Published(v), Messages(x, side, v.sequence, price));
    AddsAfterSubmission(Published(v), v.sequence, x, side, price);
    ExecutedSequence(v, taker, side, x.fills);
    if x.rested {
      AccountsStay(v.desk, w.desk);
      HoldKeepsHoldings(w.desk, w.owner, taker, v.sequence);
      SameSessionsOk(w.desk, Hold(w.desk, taker, v.sequence));
      SameSessionsTransitive(v.desk, w.desk, Hold(w.desk, taker, v.sequence));
      SendEnqueues(w.feed, AddOrder(v.sequence, price, x.residual, side));
      assert Published(placed) == Published(v) + Messages(x, side, v.sequence, price);
    } else {
      assert Messages(x, side, v.sequence, price) == TradeMessages(x.fills, side);
    }
  }

  lemma ExecutedSequence(v: Venue, taker: Username, side: Side, fills: seq<Fill>)
    ensures Executed(v, taker, side, fills).sequence == v.sequence
  {
  }

  lemma AccountsStay(d: Desk, d': Desk)
    requires SameSessions(d, d')
    ensures d'.accounts.Keys == d.accounts.Keys && d'.connections.Keys == d.connections.Keys
  {
  }

  lemma PlaceMarketKeepsInv(v: Venue, taker: Username, side: Side, quantity: Quantity)
    requires Inv(v)
    ensures Inv(PlaceMarket(v, taker, side, quantity))
    ensures SameSessions(v.desk, PlaceMarket(v, taker, side, quantity).desk)
  {
    hide BookOk, Match, HoldingsOk, SessionsOk, SameSessions, Executed, Replay, Bodies, Uids, Orderly, DistinctFills,
      UsedUp;
    var x := SubmitMarket(v.book, side, quantity);
    SweptOwners(v.book, v.sequence, side, 0, quantity);
    ExecutedFacts(v, taker, side, x.fills);
    MarketReplay(v.book, v.sequence, side, quantity);
    ReplayConcat(EMPTY, Published(v), TradeMessages(x.fills, side));
    AddsAfterOthers(Published(v), v.sequence, TradeMessages(x.fills, side));
    ExecutedSequence(v, taker, side, x.fills);
  }

  lemma ReleaseKeepsHoldings(d: Desk, owner: map<UID, Username>, uid: UID)
    requires HoldingsOk(d, owner) && uid in owner
    ensures HoldingsOk(Release(d, owner[uid], uid), owner - {uid})
    ensures SameSessions(d, Release(d, owner[uid], uid))
  {
  }

  lemma CancelOrderKeepsInv(v: Venue, uid: UID)
    requires Inv(v) && uid in v.owner
    ensures Inv(CancelOrder(v, uid)) && SameSessions(v.desk, CancelOrder(v, uid).desk)
    ensures CancelOrder(v, uid).owner == v.owner - {uid}
  {
    hide BookOk, HoldingsOk, SessionsOk, SameSessions, Release, Replay, Bodies, Send, Canceled, Uids, Orderly;
    CancelReplay(v.book, v.sequence, uid);
    ReleaseKeepsHoldings(v.desk, v.owner, uid);
    SameSessionsOk(v.desk, Release(v.desk, v.owner[uid], uid));
    SendEnqueues(v.feed, DeleteOrder(uid));
    ReplayConcat(EMPTY, Published(v), [DeleteOrder(uid)]);
    AddsAfterOthers(Published(v), v.sequence, [DeleteOrder(uid)]);
  }

  function Members(picks: seq<UID>): set<UID> {
    set u | u in picks
  }

  lemma MembersOne(picks: seq<UID>)
    requires picks != []
    ensures Members(picks) == Members(picks[..|picks| - 1]) + {picks[|picks| - 1]}
  {
    assert picks == picks[..|picks| - 1] + [picks[|picks| - 1]];
  }

  /** Walking through a set of own orders and cancelling each one works whatever the order. */
  lemma {:induction false} CancelAllKeepsInv(v: Venue, picks: seq<UID>)
    requires Inv(v)
    requires forall i | 0 <= i < |picks| :: picks[i] in v.owner
    requires forall i, j | 0 <= i < j < |picks| :: picks[i] != picks[j]
    ensures Inv(CancelAll(v, picks)) && SameSessions(v.desk, CancelAll(v, picks).desk)
    ensures CancelAll(v, picks).owner == v.owner - Members(picks)
  {
    hide Inv, SameSessions, CancelOrder;
    if picks == [] {
      SameSessionsReflexive(v.desk);
      assert v.owner - Members(picks) == v.owner;
    } else {
      var n := |picks| - 1;
      var w := CancelAll(v, picks[..n]);
      CancelAllKeepsInv(v, picks[..n]);
      MembersOne(picks);
      assert picks[n] !in picks[..n];
      CancelOrderKeepsInv(w, picks[n]);
      SameSessionsTransitive(v.desk, w.desk, CancelOrder(w, picks[n]).desk);
      assert v.owner - Members(picks) == (v.owner - Members(picks[..n])) - {picks[n]};
    }
  }

  /** Before it is cancelled, the last pick still rests. */
  lemma LastPickRests(v: Venue, picks: seq<UID>)
    requires Inv(v) && picks != []
    requires forall i | 0 <= i < |picks| :: picks[i] in v.owner
    requires forall i, j | 0 <= i < j < |picks| :: picks[i] != picks[j]
    ensures var n := |picks| - 1;
      Inv(CancelAll(v, picks[..n])) && picks[n] in CancelAll(v, picks[..n]).book.AllUids()
  {
    hide CancelAll, BookOk, SessionsOk, HoldingsOk, Replay, Orderly, SameSessions;
    var n := |picks| - 1;
    CancelAllKeepsInv(v, picks[..n]);
    assert picks[n] !in Members(picks[..n]);
  }

  // ---------------------------------------------------------------------------
  // Sessions
  // ---------------------------------------------------------------------------

  /** The desk changed, but no holding did and sessions are still in order. */
  lemma DeskKeepsInv(v: Venue, d: Desk)
    requires Inv(v) && SessionsOk(d) && d.accounts.Keys == v.desk.accounts.Keys
    requires forall a | a in d.accounts :: d.accounts[a].orders == v.desk.accounts[a].orders
    ensures Inv(v.(desk := d))
  {
    hide BookOk, SessionsOk, Replay, Orderly;
  }

  lemma AnswerKeepsInv(v: Venue, c: ConnectionId, r: Response)
    requires Inv(v)
    ensures Inv(Answer(v, c, r)) && SameSessions(v.desk, Answer(v, c, r).desk)
  {
    hide SessionsOk, Inv, SameSessions;
    RespondSameSessions(v.desk, c, r);
    InvSessions(v);
    SameSessionsOk(v.desk, Respond(v.desk, c, r));
    DeskKeepsInv(v, Respond(v.desk, c, r));
  }

  lemma InvBook(v: Venue)
    requires Inv(v)
    ensures BookOk(v.book, v.sequence) && v.sequence > 0 && v.owner.Keys == v.book.AllUids()
  {
  }

  lemma InvSessions(v: Venue)
    requires Inv(v)
    ensures SessionsOk(v.desk)
  {
  }

  lemma LogInSessions(v: Venue, c: ConnectionId, name: Username)
    requires SessionsOk(v.desk) && c in v.desk.connections && name in v.desk.accounts
    requires v.desk.connections[c].open && v.desk.connections[c].account.None? && !v.desk.accounts[name].isConnected
    ensures SessionsOk(LogIn(v, c, name).desk)
  {
  }

  lemma LogOutSessions(v: Venue, c: ConnectionId)
    requires SessionsOk(v.desk) && c in v.desk.connections
    ensures SessionsOk(LogOut(v, c).desk)
    ensures c in LogOut(v, c).desk.connections && LogOut(v, c).desk.connections[c].account.None?
  {
  }

  lemma HandleLoginKeepsInv(v: Venue, c: ConnectionId, username: Username, password: string)
    requires Inv(v) && c in v.desk.connections && v.desk.connections[c].open
    ensures Inv(HandleLogin(v, c, username, password))
  {
    hide Inv, SessionsOk, Answer;
    InvSessions(v);
    forall w, r | Inv(w)
      ensures Inv(Answer(w, c, r))
    {
      AnswerKeepsInv(w, c, r);
    }
    if v.desk.connections[c].account.None? && username in v.desk.accounts && !v.desk.accounts[username].isConnected {
      LogInSessions(v, c, username);
      DeskKeepsInv(v, LogIn(v, c, username).desk);
    }
  }

  lemma LogOutKeepsInv(v: Venue, c: ConnectionId)
    requires Inv(v) && c in v.desk.connections
    ensures Inv(LogOut(v, c))
  {
    hide Inv, SessionsOk;
    InvSessions(v);
    LogOutSessions(v, c);
    DeskKeepsInv(v, LogOut(v, c).desk);
  }

  // ---------------------------------------------------------------------------
  // Every step
  // ---------------------------------------------------------------------------

  /** A logged-in connection's account exists. */
  lemma AccountExists(v: Venue, c: ConnectionId)
    requires Inv(v) && c in v.desk.connections && v.desk.connections[c].account.Some?
    ensures v.desk.connections[c].account.value in v.desk.accounts
  {
  }

  lemma HandleReplaceKeepsInv(v: Venue, c: ConnectionId, name: Username,
                              orderId: UID, side: Side, quantity: Quantity, price: Price)
    requires Inv(v) && name in v.desk.accounts
    ensures Inv(HandleReplace(v, c, name, orderId, side, quantity, price))
    ensures SameSessions(v.desk, HandleReplace(v, c, name, orderId, side, quantity, price).desk)
  {
    hide Inv, SameSessions, Answer, PlaceLimit, CancelOrder;
    if orderId in v.owner && v.owner[orderId] != name {
      AnswerKeepsInv(v, c, ReplaceResponse(orderId, 0, Rejected));
    } else {
      var freed := if orderId in v.owner then CancelOrder(v, orderId) else v;
      SameSessionsReflexive(v.desk);
      if orderId in v.owner {
        CancelOrderKeepsInv(v, orderId);
      }
      AccountsStay(v.desk, freed.desk);
      PlaceLimitKeepsInv(freed, name, side, quantity, price);
      var (placed, uid) := PlaceLimit(freed, name, side, quantity, price);
      var r := ReplaceResponse(if orderId in v.owner then orderId else 0, uid, Accepted);
      AnswerKeepsInv(placed, c, r);
      SameSessionsTransitive(v.desk, freed.desk, placed.desk);
      SameSessionsTransitive(v.desk, placed.desk, Answer(placed, c, r).desk);
    }
  }

  lemma HandleOrderKeepsInv(v: Venue, c: ConnectionId, name: Username, side: Side, quantity: Quantity, price: Price)
    requires Inv(v) && name in v.desk.accounts
    ensures Inv(HandleOrder(v, c, name, side, quantity, price))
    ensures SameSessions(v.desk, HandleOrder(v, c, name, side, quantity, price).desk)
  {
    hide Inv, SameSessions, Answer, PlaceLimit, PlaceMarket;
    if price == 0 {
      var placed := PlaceMarket(v, name, side, quantity);
      PlaceMarketKeepsInv(v, name, side, quantity);
      AnswerKeepsInv(placed, c, OrderResponse(0, Accepted));
      SameSessionsTransitive(v.desk, placed.desk, Answer(placed, c, OrderResponse(0, Accepted)).desk);
    } else {
      var (placed, uid) := PlaceLimit(v, name, side, quantity, price);
      PlaceLimitKeepsInv(v, name, side, quantity, price);
      AnswerKeepsInv(placed, c, OrderResponse(uid, Accepted));
      SameSessionsTransitive(v.desk, placed.desk, Answer(placed, c, OrderResponse(uid, Accepted)).desk);
    }
  }

  lemma HandleCancelKeepsInv(v: Venue, c: ConnectionId, name: Username, orderId: UID)
    requires Inv(v)
    ensures Inv(HandleCancel(v, c, name, orderId))
    ensures SameSessions(v.desk, HandleCancel(v, c, name, orderId).desk)
  {
    hide Inv, SameSessions, Answer, CancelOrder;
    if orderId !in v.owner || v.owner[orderId] != name {
      AnswerKeepsInv(v, c, CancelResponse(orderId, Rejected));
    } else {
      var w := CancelOrder(v, orderId);
      CancelOrderKeepsInv(v, orderId);
      AnswerKeepsInv(w, c, CancelResponse(orderId, Accepted));
      SameSessionsTransitive(v.desk, w.desk, Answer(w, c, CancelResponse(orderId, Accepted)).desk);
    }
  }

  /** An enumeration of an account's orders lists orders it owns, each once. */
  lemma EnumerationOwned(v: Venue, name: Username, picks: seq<UID>)
    requires Inv(v) && name in v.desk.accounts && Enumerates(picks, v.desk.accounts[name].orders)
    ensures forall i | 0 <= i < |picks| :: picks[i] in v.owner && v.owner[picks[i]] == name
    ensures forall i, j | 0 <= i < j < |picks| :: picks[i] != picks[j]
    ensures forall u :: u in picks <==> u in v.owner && v.owner[u] == name
  {
  }

  lemma HandlePurgeKeepsInv(v: Venue, c: ConnectionId, name: Username, picks: seq<UID>)
    requires Inv(v) && name in v.desk.accounts && Enumerates(picks, v.desk.accounts[name].orders)
    ensures Inv(Answer(CancelAll(v, picks), c, PurgeResponse(Accepted)))
    ensures SameSessions(v.desk, Answer(CancelAll(v, picks), c, PurgeResponse(Accepted)).desk)
  {
    hide Inv, SameSessions, Answer, CancelAll;
    EnumerationOwned(v, name, picks);
    CancelAllKeepsInv(v, picks);
    var w := CancelAll(v, picks);
    AnswerKeepsInv(w, c, PurgeResponse(Accepted));
    SameSessionsTransitive(v.desk, w.desk, Answer(w, c, PurgeResponse(Accepted)).desk);
  }

  lemma HandleRequestKeepsInv(v: Venue, c: ConnectionId, request: Request)
    requires Inv(v) && c in v.desk.connections && v.desk.connections[c].open
    ensures Inv(HandleRequest(v, c, request))
  {
    hide Inv, SameSessions, Answer, CancelAll, Enumerates, HandleLogin, HandleOrder, HandleCancel, HandleReplace,
      LogOut, Refusal;
    var account := v.desk.connections[c].account;
    if account.Some? {
      AccountExists(v, c);
    }
    match request
    case LoginRequest(username, password) =>
      HandleLoginKeepsInv(v, c, username, password);
    case InvalidRequest =>
      LogOutKeepsInv(v, c);
      AnswerKeepsInv(LogOut(v, c), c, LogoutResponse(ProtocolViolation));
    case LogoutRequest =>
      AnswerKeepsInv(v, c, Refusal(request));
      LogOutKeepsInv(v, c);
      AnswerKeepsInv(LogOut(v, c), c, LogoutResponse(UserRequested));
    case OrderRequest(side, quantity, price) =>
      AnswerKeepsInv(v, c, Refusal(request));
      if account.Some? { HandleOrderKeepsInv(v, c, account.value, side, quantity, price); }
    case CancelRequest(orderId) =>
      AnswerKeepsInv(v, c, Refusal(request));
      if account.Some? { HandleCancelKeepsInv(v, c, account.value, orderId); }
    case ReplaceRequest(orderId, side, quantity, price) =>
      AnswerKeepsInv(v, c, Refusal(request));
      if account.Some? { HandleReplaceKeepsInv(v, c, account.value, orderId, side, quantity, price); }
    case PurgeRequest(picks) =>
      AnswerKeepsInv(v, c, Refusal(request));
      if account.Some? && Enumerates(picks, v.desk.accounts[account.value].orders) {
        HandlePurgeKeepsInv(v, c, account.value, picks);
      }
  }

  lemma AcceptKeepsInv(v: Venue, c: ConnectionId)
    requires Inv(v)
    ensures Inv(Next(v, Accept(c)))
  {
    hide BookOk, Replay, Orderly;
    if c !in v.desk.connections {
      DeskKeepsInv(v, Next(v, Accept(c)).desk);
    }
  }

  lemma HangUpKeepsInv(v: Venue, c: ConnectionId)
    requires Inv(v)
    ensures Inv(Next(v, HangUp(c)))
  {
    hide Inv, LogOut;
    if c in v.desk.connections {
      var out := LogOut(v, c);
      LogOutKeepsInv(v, c);
      InvSessions(v);
      LogOutSessions(v, c);
      InvSessions(out);
      DeskKeepsInv(out, Next(v, HangUp(c)).desk);
    }
  }

  lemma WrittenKeepsInv(v: Venue, c: ConnectionId)
    requires Inv(v)
    ensures Inv(Next(v, Written(c)))
  {
    hide Inv, Complete;
    if c in v.desk.connections {
      InvSessions(v);
      SameSessionsOk(v.desk, Next(v, Written(c)).desk);
      DeskKeepsInv(v, Next(v, Written(c)).desk);
    }
  }

  lemma FeedStepKeepsInv(v: Venue, step: Step)
    requires Inv(v) && (step.FeedWritten? || step.Console?)
    ensures Inv(Next(v, step))
  {
    hide BookOk, SessionsOk, Replay, HoldingsOk, Bodies, Orderly;
    if step.Console? {
      var m := if step.start then StartOfSession else EndOfSession;
      SendEnqueues(v.feed, m);
      ReplayOne(EMPTY, Published(v), v.book, m);
      AddsAfterOthers(Published(v), v.sequence, [m]);
    }
  }

  /** The invariant holds after every step. */
  lemma NextKeepsInv(v: Venue, step: Step)
    requires Inv(v)
    ensures Inv(Next(v, step))
  {
    hide Inv;
    match step
    case Accept(c) => AcceptKeepsInv(v, c);
    case Receive(c, request) =>
      if c in v.desk.connections && v.desk.connections[c].open {
        HandleRequestKeepsInv(v, c, request);
      }
    case HangUp(c) => HangUpKeepsInv(v, c);
    case Written(c) => WrittenKeepsInv(v, c);
    case FeedWritten => FeedStepKeepsInv(v, step);
    case Console(_) => FeedStepKeepsInv(v, step);
  }

  lemma InitialInv(v: Venue)
    requires Initial(v)
    ensures Inv(v)
  {
    assert Published(v) == [];
  }

  lemma {:induction false} RunKeepsInv(v: Venue, steps: seq<Step>)
    requires Inv(v)
    ensures Inv(Run(v, steps))
    decreases |steps|
  {
    hide Inv, Next;
    if steps != [] {
      NextKeepsInv(v, steps[0]);
      RunKeepsInv(Next(v, steps[0]), steps[1..]);
    }
  }

  predicate Holds(d: Desk, c: ConnectionId, name: Username) {
    c in d.connections && d.connections[c].account == Some(name)
  }

  /** In every reachable state an account is marked connected exactly when a connection holds it;
      that connection is its handler and no other one holds it. */
  lemma RunExclusive(v: Venue, steps: seq<Step>, name: Username)
    requires Initial(v) && name in Run(v, steps).desk.accounts
    ensures var d := Run(v, steps).desk;
      && (d.accounts[name].isConnected <==> exists c :: Holds(d, c, name))
      && (forall c: ConnectionId :: Holds(d, c, name) <==> d.accounts[name].handler == Some(c))
      && (forall c: ConnectionId, c': ConnectionId :: Holds(d, c, name) && Holds(d, c', name) ==> c == c')
  {
    hide Run, HoldingsOk, BookOk, Orderly, Replay;
    InitialInv(v);
    RunKeepsInv(v, steps);
    var d := Run(v, steps).desk;
    forall c: ConnectionId
      ensures Holds(d, c, name) <==> d.accounts[name].handler == Some(c)
    {
    }
    if d.accounts[name].isConnected {
      assert Holds(d, d.accounts[name].handler.value, name);
    }
  }
}
