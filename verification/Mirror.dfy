/**
 The client's picture of its account, once the responses still on their way are counted in:
 it shows exactly the account's resting orders except those the client was never told of, and
 its shares and capital stay a constant away from the account's.
 */
module Mirror {
  import opened MarketTypes
  import opened PriceTime
  import opened Sweeps
  import opened Books
  import opened Protocol
  import opened Outboxes
  import opened Clients
  import opened Desks
  import opened Venues
  import opened VenueInvariant

  /** `unseen` are orders the client was not told of; on `transit` the two may disagree while a
      request is being handled. The client keeps 32-bit shares and 64-bit capital. */
  ghost predicate Mirrors(s: ClientState, a: Account, unseen: set<UID>, transit: set<UID>, ds: int, dc: int) {
    && s.isAuthorized
    && (forall u | u !in transit :: u in s.activeOrders <==> u in a.orders && u !in unseen)
    && Congruent(s.shares - a.shares, ds, TWO_32)
    && Congruent(s.capital - a.capital, dc, TWO_64)
  }

  function LoggedIn(d: Desk, c: ConnectionId): Option<Username> {
    if c in d.connections && d.connections[c].account.Some? && d.connections[c].account.value in d.accounts
    then d.connections[c].account else None
  }

  /** The client behind connection c after every response sent to it. */
  function Told(d: Desk, c: ConnectionId, init: ClientState): ClientState
    requires c in d.connections
  {
    Fold(init, Sent(d.connections[c]))
  }

  ghost predicate MirrorOn(d: Desk, c: ConnectionId, init: ClientState, unseen: set<UID>, transit: set<UID>, ds: int,
                           dc: int) {
    && LoggedIn(d, c).Some?
    && Mirrors(Told(d, c, init), d.accounts[LoggedIn(d, c).value], unseen, transit, ds, dc)
  }

  // ---------------------------------------------------------------------------
  // Executions
  // ---------------------------------------------------------------------------

  lemma SharesMove(s: int, a: int, ds: int, x: int)
    requires Congruent(s - a, ds, TWO_32)
    ensures Congruent(Signed32(s + x) - Signed64(a + x), ds, TWO_32)
  {
    Signed32Congruent(s + x, 0);
    NarrowCongruent(a + x);
    hide Signed32, Signed64;
    var i := Apart(Signed32(s + x), s + x, TWO_32);
    var j := Apart(Signed64(a + x), a + x, TWO_32);
    var k := Apart(s - a, ds, TWO_32);
    Together32(Signed32(s + x) - Signed64(a + x), ds, i - j + k);
  }

  lemma CapitalMoves(s: int, a: int, dc: int, x: int)
    requires Congruent(s - a, dc, TWO_64)
    ensures Congruent(Signed64(s + x) - Signed64(a + x), dc, TWO_64)
  {
    Signed64Congruent(s + x, 0);
    Signed64Congruent(a + x, 0);
    hide Signed64;
    var i := Apart(Signed64(s + x), s + x, TWO_64);
    var j := Apart(Signed64(a + x), a + x, TWO_64);
    var k := Apart(s - a, dc, TWO_64);
    Together64(Signed64(s + x) - Signed64(a + x), dc, i - j + k);
  }

  /** The client books the report exactly as the server booked the trade. */
  lemma ReportMirrors(s: ClientState, a: Account, side: Side, r: Response, release: bool,
                      unseen: set<UID>, transit: set<UID>, ds: int, dc: int)
    requires Mirrors(s, a, unseen, transit, ds, dc)
    requires r.TradeResponse? && r.side == side && (release <==> r.orderId != 0 && r.leaves == 0)
    ensures var kept := if release then a.(orders := a.orders - {r.orderId}) else a;
      Mirrors(Handle(s, r), Booked(kept, side, r.quantity, r.price), unseen, transit, ds, dc)
  {
    hide Signed32, Signed64, Cost, Congruent;
    var sign := if side.Buy? then 1 else -1;
    SharesMove(s.shares, a.shares, ds, sign * r.quantity);
    CapitalMoves(s.capital, a.capital, dc, -sign * Cost(r.quantity, r.price));
  }

  lemma RespondClient(d: Desk, c: ConnectionId, r: Response, init: ClientState)
    requires c in d.connections
    ensures c in Respond(d, c, r).connections && Told(Respond(d, c, r), c, init) == Handle(Told(d, c, init), r)
  {
    SendEnqueues(d.connections[c].outbox, r);
    FoldOne(init, Sent(d.connections[c]), r);
  }

  lemma LegKeepsMirror(d: Desk, name: Username, side: Side, r: Response, release: bool,
                       c: ConnectionId, init: ClientState, unseen: set<UID>, transit: set<UID>, ds: int, dc: int)
    requires SessionsOk(d) && MirrorOn(d, c, init, unseen, transit, ds, dc)
    requires r.TradeResponse? && r.side == side && (release <==> r.orderId != 0 && r.leaves == 0)
    ensures MirrorOn(Leg(d, name, side, r, release), c, init, unseen, transit, ds, dc)
  {
    hide Mirrors, Booked, Handle, Send, Fold, Bodies;
    if name in d.accounts {
      var a := d.accounts[name];
      var kept := if release then a.(orders := a.orders - {r.orderId}) else a;
      var d' := SetAccount(d, name, Booked(kept, side, r.quantity, r.price));
      BookedKeeps(kept, side, r.quantity, r.price);
      if LoggedIn(d, c) == Some(name) {
        assert a.handler == Some(c);
        ReportMirrors(Told(d, c, init), a, side, r, release, unseen, transit, ds, dc);
        RespondClient(d', c, r, init);
      } else {
        assert a.handler != Some(c);
      }
    }
  }

  lemma BookedKeeps(a: Account, side: Side, quantity: Quantity, price: Price)
    ensures Booked(a, side, quantity, price).handler == a.handler
  {
  }

  lemma FillKeepsMirror(d: Desk, taker: Username, side: Side, maker: Username, f: Fill,
                        c: ConnectionId, init: ClientState, unseen: set<UID>, transit: set<UID>, ds: int, dc: int)
    requires SessionsOk(d) && MirrorOn(d, c, init, unseen, transit, ds, dc) && f.uid > 0
    ensures MirrorOn(ApplyFill(d, taker, side, maker, f), c, init, unseen, transit, ds, dc)
  {
    hide SessionsOk, MirrorOn, Leg, SameSessions;
    var d' := Leg(d, taker, side, TakerReport(side, f), false);
    LegKeepsMirror(d, taker, side, TakerReport(side, f), false, c, init, unseen, transit, ds, dc);
    LegSameSessions(d, taker, side, TakerReport(side, f), false);
    SameSessionsOk(d, d');
    LegKeepsMirror(d', maker, side.Opposite(), MakerReport(side, f), f.makerLeaves == 0, c, init, unseen, transit, ds,
                   dc);
  }

  lemma {:induction false} FillsKeepMirror(
      d: Desk, taker: Username, side: Side, owner: map<UID, Username>, fills: seq<Fill>,
      c: ConnectionId, init: ClientState, unseen: set<UID>, transit: set<UID>, ds: int, dc: int)
    requires SessionsOk(d) && MirrorOn(d, c, init, unseen, transit, ds, dc)
    requires forall i | 0 <= i < |fills| :: fills[i].uid > 0
    ensures MirrorOn(ApplyFills(d, taker, side, owner, fills), c, init, unseen, transit, ds, dc)
  {
    hide SessionsOk, MirrorOn, ApplyFill, SameSessions;
    if fills != [] {
      var n := |fills| - 1;
      var before := ApplyFills(d, taker, side, owner, fills[..n]);
      FillsKeepMirror(d, taker, side, owner, fills[..n], c, init, unseen, transit, ds, dc);
      FillsSameSessions(d, taker, side, owner, fills[..n]);
      SameSessionsOk(d, before);
      FillKeepsMirror(before, taker, side, OwnerOf(owner, fills[n].uid), fills[n], c, init, unseen, transit, ds, dc);
    }
  }

  // ---------------------------------------------------------------------------
  // Orders: while a request is handled the client lags by the orders in transit
  // ---------------------------------------------------------------------------

  lemma HoldKeepsMirror(d: Desk, name: Username, uid: UID,
                        c: ConnectionId, init: ClientState, unseen: set<UID>, transit: set<UID>, ds: int, dc: int)
    requires MirrorOn(d, c, init, unseen, transit, ds, dc)
    ensures MirrorOn(Hold(d, name, uid), c, init, unseen,
                     if LoggedIn(d, c) == Some(name) then transit + {uid} else transit, ds, dc)
  {
    hide Fold, Bodies, Congruent;
  }

  lemma ReleaseKeepsMirror(d: Desk, name: Username, uid: UID,
                           c: ConnectionId, init: ClientState, unseen: set<UID>, transit: set<UID>, ds: int, dc: int)
    requires MirrorOn(d, c, init, unseen, transit, ds, dc)
    ensures MirrorOn(Release(d, name, uid), c, init, unseen,
                     if LoggedIn(d, c) == Some(name) then transit + {uid} else transit, ds, dc)
  {
    hide Fold, Bodies, Congruent;
  }

  /** What a limit order puts in transit for the client of its own account. */
  function Transit(mine: bool, transit: set<UID>, uid: UID): set<UID> {
    if mine && uid != 0 then transit + {uid} else transit
  }

  lemma LimitKeepsMirror(v: Venue, name: Username, side: Side, quantity: Quantity, price: Price,
                         c: ConnectionId, init: ClientState, unseen: set<UID>, transit: set<UID>, ds: int, dc: int)
    requires Inv(v) && MirrorOn(v.desk, c, init, unseen, transit, ds, dc)
    ensures var (placed, uid) := PlaceLimit(v, name, side, quantity, price);
      && MirrorOn(placed.desk, c, init, unseen, Transit(LoggedIn(v.desk, c) == Some(name), transit, uid), ds, dc)
      && (uid == 0 || uid == v.sequence)
  {
    hide Inv, MirrorOn, SubmitLimit, ApplyFills, Hold, SendAll, Send, SameSessions, UsedUp, DistinctFills, LoggedIn;
    var x := SubmitLimit(v.book, side, v.sequence, quantity, price);
    InvSessions(v);
    InvBook(v);
    SubmissionPositive(v.book, v.sequence, side, quantity, price);
    FillsKeepMirror(v.desk, name, side, v.owner, x.fills, c, init, unseen, transit, ds, dc);
    if x.rested {
      var d := ApplyFills(v.desk, name, side, v.owner, x.fills);
      FillsSameSessions(v.desk, name, side, v.owner, x.fills);
      SameLogin(v.desk, d, c);
      HoldKeepsMirror(d, name, v.sequence, c, init, unseen, transit, ds, dc);
    }
  }

  lemma BookPositive(b: Book, next: UID, uid: UID)
    requires BookOk(b, next) && uid in b.AllUids()
    ensures 0 < uid < next
  {
  }

  lemma SubmissionPositive(b: Book, next: UID, side: Side, quantity: Quantity, price: Price)
    requires BookOk(b, next)
    ensures var fills := SubmitLimit(b, side, next, quantity, price).fills;
      forall i | 0 <= i < |fills| :: fills[i].uid > 0
  {
    hide BookOk, SubmitLimit, UsedUp, DistinctFills, Uids;
    var fills := SubmitLimit(b, side, next, quantity, price).fills;
    SubmissionUids(b, next, side, quantity, price);
    forall i | 0 <= i < |fills|
      ensures fills[i].uid > 0
    {
      BookPositive(b, next, fills[i].uid);
    }
  }

  lemma SweptPositive(b: Book, next: UID, side: Side, quantity: Quantity)
    requires BookOk(b, next)
    ensures var fills := SubmitMarket(b, side, quantity).fills;
      forall i | 0 <= i < |fills| :: fills[i].uid > 0
  {
    hide BookOk, Match, UsedUp, DistinctFills, Uids;
    var fills := SubmitMarket(b, side, quantity).fills;
    SweptOwners(b, next, side, 0, quantity);
    forall i | 0 <= i < |fills|
      ensures fills[i].uid > 0
    {
      BookPositive(b, next, fills[i].uid);
    }
  }

  lemma SameLogin(d: Desk, d': Desk, c: ConnectionId)
    requires SameSessions(d, d')
    ensures LoggedIn(d', c) == LoggedIn(d, c)
  {
  }

  lemma MarketKeepsMirror(v: Venue, name: Username, side: Side, quantity: Quantity,
                          c: ConnectionId, init: ClientState, unseen: set<UID>, transit: set<UID>, ds: int, dc: int)
    requires Inv(v) && MirrorOn(v.desk, c, init, unseen, transit, ds, dc)
    ensures MirrorOn(PlaceMarket(v, name, side, quantity).desk, c, init, unseen, transit, ds, dc)
  {
    hide Inv, MirrorOn, SubmitMarket, ApplyFills, SendAll, UsedUp;
    InvSessions(v);
    InvBook(v);
    SweptPositive(v.book, v.sequence, side, quantity);
    FillsKeepMirror(v.desk, name, side, v.owner, SubmitMarket(v.book, side, quantity).fills, c, init, unseen, transit,
                    ds, dc);
  }

  lemma {:induction false} CancelAllMirror(v: Venue, picks: seq<UID>, name: Username,
      c: ConnectionId, init: ClientState, unseen: set<UID>, ds: int, dc: int)
    requires Inv(v) && MirrorOn(v.desk, c, init, unseen, {}, ds, dc)
    requires forall i | 0 <= i < |picks| :: picks[i] in v.owner && v.owner[picks[i]] == name
    requires forall i, j | 0 <= i < j < |picks| :: picks[i] != picks[j]
    ensures MirrorOn(CancelAll(v, picks).desk, c, init, unseen,
                     if LoggedIn(v.desk, c) == Some(name) then Members(picks) else {}, ds, dc)
  {
    hide Inv, MirrorOn, SameSessions, LoggedIn, Release, Canceled, Send;
    if picks == [] {
      assert Members(picks) == {};
    } else {
      var n := |picks| - 1;
      var w := CancelAll(v, picks[..n]);
      CancelAllMirror(v, picks[..n], name, c, init, unseen, ds, dc);
      CancelAllKeepsInv(v, picks[..n]);
      SameLogin(v.desk, w.desk, c);
      assert picks[n] !in picks[..n];
      assert w.owner[picks[n]] == name;
      var before := if LoggedIn(v.desk, c) == Some(name) then Members(picks[..n]) else {};
      ReleaseKeepsMirror(w.desk, name, picks[n], c, init, unseen, before, ds, dc);
      MembersOne(picks);
      assert CancelAll(v, picks).desk == Release(w.desk, name, picks[n]);
    }
  }

  // ---------------------------------------------------------------------------
  // Answers bring the client up to date
  // ---------------------------------------------------------------------------

  /** A response to another connection leaves this client alone; a response to this one is handled. */
  lemma AnswerMirror(v: Venue, c': ConnectionId, r: Response, c: ConnectionId, init: ClientState)
    requires LoggedIn(v.desk, c).Some?
    ensures var d := Answer(v, c', r).desk;
      && LoggedIn(d, c) == LoggedIn(v.desk, c) && d.accounts == v.desk.accounts
      && c in d.connections
      && Told(d, c, init) == if c == c' then Handle(Told(v.desk, c, init), r) else Told(v.desk, c, init)
  {
    hide Handle, Fold, Bodies, Send;
    if c == c' {
      RespondClient(v.desk, c, r, init);
    }
  }

  /** Responses that leave the set of active orders and the balances alone. */
  predicate Neutral(r: Response) {
    match r
    case LoginResponse(login) => login.AlreadyAuthorized?
    case OrderResponse(orderId, status) => status.Rejected? || orderId == 0
    case CancelResponse(_, status) => status.Rejected?
    case ReplaceResponse(_, _, status) => status.Rejected?
    case PurgeResponse(status) => status.Rejected?
    case _ => false
  }

  lemma NeutralAnswer(v: Venue, c': ConnectionId, r: Response,
                      c: ConnectionId, init: ClientState, unseen: set<UID>, ds: int, dc: int)
    requires MirrorOn(v.desk, c, init, unseen, {}, ds, dc) && (c == c' ==> Neutral(r))
    ensures MirrorOn(Answer(v, c', r).desk, c, init, unseen, {}, ds, dc)
  {
    hide Fold, Bodies, Send, Congruent, Answer;
    AnswerMirror(v, c', r, c, init);
  }

  lemma MirrorOrder(v: Venue, c': ConnectionId, name: Username, side: Side, quantity: Quantity, price: Price,
                    c: ConnectionId, init: ClientState, unseen: set<UID>, ds: int, dc: int)
    requires Inv(v) && MirrorOn(v.desk, c, init, unseen, {}, ds, dc)
    requires c == c' <==> LoggedIn(v.desk, c) == Some(name)
    requires v.sequence !in unseen && name in v.desk.accounts
    ensures MirrorOn(HandleOrder(v, c', name, side, quantity, price).desk, c, init, unseen, {}, ds, dc)
  {
    hide Inv, PlaceLimit, PlaceMarket, Fold, Bodies, Congruent, Answer, SameSessions;
    if price == 0 {
      MarketKeepsMirror(v, name, side, quantity, c, init, unseen, {}, ds, dc);
      NeutralAnswer(PlaceMarket(v, name, side, quantity), c', OrderResponse(0, Accepted), c, init, unseen, ds, dc);
    } else {
      var (placed, uid) := PlaceLimit(v, name, side, quantity, price);
      LimitKeepsMirror(v, name, side, quantity, price, c, init, unseen, {}, ds, dc);
      AnswerMirror(placed, c', OrderResponse(uid, Accepted), c, init);
      NewOrderHeld(v, name, side, quantity, price);
      PlaceLimitKeepsInv(v, name, side, quantity, price);
      SameLogin(v.desk, placed.desk, c);
    }
  }

  /** A limit order that rests is in its account's set. */
  lemma NewOrderHeld(v: Venue, name: Username, side: Side, quantity: Quantity, price: Price)
    requires Inv(v) && name in v.desk.accounts
    ensures var (placed, uid) := PlaceLimit(v, name, side, quantity, price);
      && name in placed.desk.accounts
      && (uid != 0 ==> uid == v.sequence && uid in placed.desk.accounts[name].orders)
  {
    hide Inv, SubmitLimit, ApplyFills, SendAll, Send, UsedUp;
    FillsSameSessions(v.desk, name, side, v.owner, SubmitLimit(v.book, side, v.sequence, quantity, price).fills);
  }

  lemma MirrorCancel(v: Venue, c': ConnectionId, name: Username, orderId: UID,
                     c: ConnectionId, init: ClientState, unseen: set<UID>, ds: int, dc: int)
    requires Inv(v) && MirrorOn(v.desk, c, init, unseen, {}, ds, dc)
    requires c == c' <==> LoggedIn(v.desk, c) == Some(name)
    ensures MirrorOn(HandleCancel(v, c', name, orderId).desk, c, init, unseen, {}, ds, dc)
  {
    hide Inv, Fold, Bodies, Congruent, Answer, Canceled, Send;
    if orderId !in v.owner || v.owner[orderId] != name {
      NeutralAnswer(v, c', CancelResponse(orderId, Rejected), c, init, unseen, ds, dc);
    } else {
      ReleaseKeepsMirror(v.desk, name, orderId, c, init, unseen, {}, ds, dc);
      AnswerMirror(CancelOrder(v, orderId), c', CancelResponse(orderId, Accepted), c, init);
    }
  }

  lemma MirrorPurge(v: Venue, c': ConnectionId, name: Username, picks: seq<UID>,
                    c: ConnectionId, init: ClientState, unseen: set<UID>, ds: int, dc: int)
    requires Inv(v) && MirrorOn(v.desk, c, init, unseen, {}, ds, dc)
    requires c == c' <==> LoggedIn(v.desk, c) == Some(name)
    requires name in v.desk.accounts && Enumerates(picks, v.desk.accounts[name].orders)
    ensures MirrorOn(Answer(CancelAll(v, picks), c', PurgeResponse(Accepted)).desk, c, init, unseen, {}, ds, dc)
    ensures var d := CancelAll(v, picks).desk; name in d.accounts && d.accounts[name].orders == {}
  {
    hide Inv, Fold, Bodies, Congruent, Answer, CancelAll, SameSessions, Enumerates;
    EnumerationOwned(v, name, picks);
    CancelAllMirror(v, picks, name, c, init, unseen, ds, dc);
    CancelAllKeepsInv(v, picks);
    var w := CancelAll(v, picks);
    SameLogin(v.desk, w.desk, c);
    AccountsStay(v.desk, w.desk);
    NothingHeld(w, name);
    AnswerMirror(w, c', PurgeResponse(Accepted), c, init);
  }

  lemma NothingHeld(v: Venue, name: Username)
    requires Inv(v) && name in v.desk.accounts && forall u | u in v.owner :: v.owner[u] != name
    ensures v.desk.accounts[name].orders == {}
  {
    forall u
      ensures u !in v.desk.accounts[name].orders
    {
      assert u in v.desk.accounts[name].orders <==> u in v.owner && v.owner[u] == name;
    }
  }

  lemma MirrorReplace(v: Venue, c': ConnectionId, name: Username, orderId: UID, side: Side, quantity: Quantity,
                      price: Price, c: ConnectionId, init: ClientState, unseen: set<UID>, ds: int, dc: int)
    requires Inv(v) && MirrorOn(v.desk, c, init, unseen, {}, ds, dc)
    requires c == c' <==> LoggedIn(v.desk, c) == Some(name)
    requires v.sequence !in unseen && name in v.desk.accounts
    ensures MirrorOn(HandleReplace(v, c', name, orderId, side, quantity, price).desk, c, init, unseen, {}, ds, dc)
  {
    hide Inv, PlaceLimit, Fold, Bodies, Congruent, Answer, CancelOrder, SameSessions, MirrorOn;
    if orderId in v.owner && v.owner[orderId] != name {
      NeutralAnswer(v, c', ReplaceResponse(orderId, 0, Rejected), c, init, unseen, ds, dc);
    } else if orderId in v.owner {
      var freed := CancelOrder(v, orderId);
      CancelMirror(v, name, orderId, c, init, unseen, ds, dc);
      CancelOrderKeepsInv(v, orderId);
      SameLogin(v.desk, freed.desk, c);
      AccountsStay(v.desk, freed.desk);
      ReplaceTail(freed, c', name, orderId, side, quantity, price, c, init, unseen,
                  if c == c' then {orderId} else {}, ds, dc);
    } else {
      ReplaceTail(v, c', name, 0, side, quantity, price, c, init, unseen, {}, ds, dc);
    }
  }

  lemma CancelMirror(v: Venue, name: Username, orderId: UID,
                     c: ConnectionId, init: ClientState, unseen: set<UID>, ds: int, dc: int)
    requires Inv(v) && orderId in v.owner && v.owner[orderId] == name
    requires MirrorOn(v.desk, c, init, unseen, {}, ds, dc)
    ensures var w := CancelOrder(v, orderId);
      && MirrorOn(w.desk, c, init, unseen, if LoggedIn(v.desk, c) == Some(name) then {orderId} else {}, ds, dc)
      && w.sequence == v.sequence && 0 < orderId < v.sequence
      && (forall a | a in w.desk.accounts :: orderId !in w.desk.accounts[a].orders)
  {
    hide MirrorOn, Canceled, Send, BookOk, Replay, Orderly, SessionsOk;
    ReleaseKeepsMirror(v.desk, name, orderId, c, init, unseen, {}, ds, dc);
    BookPositive(v.book, v.sequence, orderId);
    assert {} + {orderId} == {orderId};
  }

  /** Placing the new order and answering the replace brings the client up to date. */
  lemma ReplaceTail(w: Venue, c': ConnectionId, name: Username, canceled: UID, side: Side, quantity: Quantity,
                    price: Price, c: ConnectionId, init: ClientState, unseen: set<UID>, transit: set<UID>,
                    ds: int, dc: int)
    requires Inv(w) && MirrorOn(w.desk, c, init, unseen, transit, ds, dc)
    requires c == c' <==> LoggedIn(w.desk, c) == Some(name)
    requires w.sequence !in unseen && name in w.desk.accounts
    requires transit == if c == c' && canceled != 0 then {canceled} else {}
    requires canceled != 0 ==> canceled < w.sequence && canceled !in w.desk.accounts[name].orders
    ensures var (placed, uid) := PlaceLimit(w, name, side, quantity, price);
      MirrorOn(Answer(placed, c', ReplaceResponse(canceled, uid, Accepted)).desk, c, init, unseen, {}, ds, dc)
  {
    hide Inv, PlaceLimit, Fold, Bodies, Congruent, Answer, SameSessions;
    var (placed, uid) := PlaceLimit(w, name, side, quantity, price);
    LimitKeepsMirror(w, name, side, quantity, price, c, init, unseen, transit, ds, dc);
    AnswerMirror(placed, c', ReplaceResponse(canceled, uid, Accepted), c, init);
    NewOrderHeld(w, name, side, quantity, price);
    PlaceLimitKeepsInv(w, name, side, quantity, price);
    SameLogin(w.desk, placed.desk, c);
    if canceled != 0 {
      CanceledStaysOut(w, name, side, quantity, price, canceled);
    }
  }

  /** A limit order adds nothing to its account's set but its own ID. */
  lemma CanceledStaysOut(v: Venue, name: Username, side: Side, quantity: Quantity, price: Price, uid: UID)
    requires Inv(v) && name in v.desk.accounts && uid !in v.desk.accounts[name].orders && uid != v.sequence
    ensures var (placed, _) := PlaceLimit(v, name, side, quantity, price);
      name in placed.desk.accounts && uid !in placed.desk.accounts[name].orders
  {
    hide Inv, SubmitLimit, ApplyFills, SendAll, Send, UsedUp;
    FillsShrink(v.desk, name, side, v.owner, SubmitLimit(v.book, side, v.sequence, quantity, price).fills, name);
  }

  lemma {:induction false} FillsShrink(d: Desk, taker: Username, side: Side, owner: map<UID, Username>,
                                       fills: seq<Fill>, a: Username)
    requires a in d.accounts
    ensures var d' := ApplyFills(d, taker, side, owner, fills);
      a in d'.accounts && d'.accounts[a].orders <= d.accounts[a].orders
  {
    hide ApplyFill;
    if fills != [] {
      var n := |fills| - 1;
      FillsShrink(d, taker, side, owner, fills[..n], a);
      FillOrders(ApplyFills(d, taker, side, owner, fills[..n]), taker, side, OwnerOf(owner, fills[n].uid), fills[n], a);
    }
  }
}
