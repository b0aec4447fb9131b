/** The mirror over whole runs: from login to logout, under any interleaving of other steps. */
module SessionMirror {
  import opened MarketTypes
  import opened Sweeps
  import opened Books
  import opened Protocol
  import opened Outboxes
  import opened Clients
  import opened Desks
  import opened Venues
  import opened VenueInvariant
  import opened Mirror

  /** Nothing the client of connection c could notice has changed. */
  predicate SameView(d: Desk, d': Desk, c: ConnectionId) {
    && c in d.connections && c in d'.connections
    && d'.connections[c].account == d.connections[c].account
    && d'.connections[c].open == d.connections[c].open
    && d'.connections[c].outbox.enqueued == d.connections[c].outbox.enqueued
    && d'.accounts.Keys == d.accounts.Keys
    && (LoggedIn(d, c).Some? ==>
          var a, a' := d.accounts[LoggedIn(d, c).value], d'.accounts[LoggedIn(d, c).value];
          a'.orders == a.orders && a'.shares == a.shares && a'.capital == a.capital)
  }

  lemma SameViewMirror(d: Desk, d': Desk, c: ConnectionId, init: ClientState, unseen: set<UID>, ds: int, dc: int)
    requires MirrorOn(d, c, init, unseen, {}, ds, dc) && SameView(d, d', c)
    ensures MirrorOn(d', c, init, unseen, {}, ds, dc) && LoggedIn(d', c) == LoggedIn(d, c)
  {
    hide Fold, Bodies, Congruent;
  }

  /** Another connection logging in or out does not touch this one or its account. */
  lemma OtherSession(v: Venue, c': ConnectionId, name: Username, c: ConnectionId)
    requires SessionsOk(v.desk) && c != c' && c in v.desk.connections && c' in v.desk.connections
    ensures SameView(v.desk, LogOut(v, c').desk, c)
    ensures name in v.desk.accounts ==> SameView(v.desk, LogIn(v, c', name).desk, c)
  {
    hide SameView, LogOut, LogIn;
    OtherLogsOut(v, c', c);
    OtherLogsIn(v, c', name, c);
  }

  lemma OtherLogsOut(v: Venue, c': ConnectionId, c: ConnectionId)
    requires SessionsOk(v.desk) && c != c' && c in v.desk.connections && c' in v.desk.connections
    ensures SameView(v.desk, LogOut(v, c').desk, c)
  {
  }

  lemma OtherLogsIn(v: Venue, c': ConnectionId, name: Username, c: ConnectionId)
    requires SessionsOk(v.desk) && c != c' && c in v.desk.connections && c' in v.desk.connections
    ensures name in v.desk.accounts ==> SameView(v.desk, LogIn(v, c', name).desk, c)
  {
  }

  /** Two connections act for the same account only if they are the same connection. */
  lemma SameAccount(v: Venue, c: ConnectionId, c': ConnectionId)
    requires Inv(v) && LoggedIn(v.desk, c).Some? && c' in v.desk.connections && v.desk.connections[c'].account.Some?
    ensures c == c' <==> LoggedIn(v.desk, c) == v.desk.connections[c'].account
    ensures v.desk.connections[c'].account.value in v.desk.accounts
  {
    AccountExists(v, c');
    if LoggedIn(v.desk, c) == v.desk.connections[c'].account {
      SessionsExclusive(v.desk, c, c');
    }
  }

  lemma LoginStepMirror(v: Venue, c': ConnectionId, username: Username, password: string,
                        c: ConnectionId, init: ClientState, unseen: set<UID>, ds: int, dc: int)
    requires Inv(v) && MirrorOn(v.desk, c, init, unseen, {}, ds, dc) && c' in v.desk.connections
    ensures MirrorOn(HandleLogin(v, c', username, password).desk, c, init, unseen, {}, ds, dc)
  {
    hide Inv, MirrorOn, Answer, LogIn, SessionsOk, SameView, BookOk;
    InvSessions(v);
    MirrorLoggedIn(v.desk, c, init, unseen, ds, dc);
    if c == c' {
      NeutralAnswer(v, c', LoginResponse(AlreadyAuthorized), c, init, unseen, ds, dc);
    } else {
      OtherSession(v, c', username, c);
      NeutralAnswer(v, c', LoginResponse(AlreadyAuthorized), c, init, unseen, ds, dc);
      NeutralAnswer(v, c', LoginResponse(NotAuthorized), c, init, unseen, ds, dc);
      NeutralAnswer(v, c', LoginResponse(SessionInUse), c, init, unseen, ds, dc);
      if username in v.desk.accounts {
        SameViewMirror(v.desk, LogIn(v, c', username).desk, c, init, unseen, ds, dc);
        NeutralAnswer(LogIn(v, c', username), c', LoginResponse(LoginAccepted), c, init, unseen, ds, dc);
      }
    }
  }

  lemma MirrorLoggedIn(d: Desk, c: ConnectionId, init: ClientState, unseen: set<UID>, ds: int, dc: int)
    requires MirrorOn(d, c, init, unseen, {}, ds, dc)
    ensures c in d.connections && d.connections[c].account.Some? && LoggedIn(d, c) == d.connections[c].account
  {
  }

  lemma LogoutStepMirror(v: Venue, c': ConnectionId, reason: LogoutReason,
                         c: ConnectionId, init: ClientState, unseen: set<UID>, ds: int, dc: int)
    requires Inv(v) && MirrorOn(v.desk, c, init, unseen, {}, ds, dc) && c' in v.desk.connections && c != c'
    ensures MirrorOn(Answer(LogOut(v, c'), c', LogoutResponse(reason)).desk, c, init, unseen, {}, ds, dc)
  {
    hide Inv, MirrorOn, Answer, LogOut, SessionsOk, SameView;
    InvSessions(v);
    MirrorLoggedIn(v.desk, c, init, unseen, ds, dc);
    OtherSession(v, c', "", c);
    SameViewMirror(v.desk, LogOut(v, c').desk, c, init, unseen, ds, dc);
    NeutralAnswer(LogOut(v, c'), c', LogoutResponse(reason), c, init, unseen, ds, dc);
  }

  lemma LoggedOutAfter(v: Venue, c: ConnectionId, r: Response)
    requires Inv(v) && c in v.desk.connections
    ensures LoggedIn(Answer(LogOut(v, c), c, r).desk, c).None?
  {
    InvSessions(v);
    LogOutSessions(v, c);
  }

  lemma RequestKeepsMirror(v: Venue, c': ConnectionId, request: Request,
                           c: ConnectionId, init: ClientState, unseen: set<UID>, ds: int, dc: int)
    requires Inv(v) && MirrorOn(v.desk, c, init, unseen, {}, ds, dc)
    requires forall u | u in unseen :: u < v.sequence
    requires c' in v.desk.connections
    requires LoggedIn(HandleRequest(v, c', request).desk, c).Some?
    ensures MirrorOn(HandleRequest(v, c', request).desk, c, init, unseen, {}, ds, dc)
  {
    hide Inv, MirrorOn, Answer, CancelAll, Enumerates, HandleLogin, HandleOrder, HandleCancel, HandleReplace, LogOut,
      Refusal, LoggedIn;
    var account := v.desk.connections[c'].account;
    MirrorLoggedIn(v.desk, c, init, unseen, ds, dc);
    if account.Some? {
      SameAccount(v, c, c');
    } else if !request.LoginRequest? && !request.InvalidRequest? {
      NeutralAnswer(v, c', Refusal(request), c, init, unseen, ds, dc);
    }
    match request
    case LoginRequest(username, password) =>
      LoginStepMirror(v, c', username, password, c, init, unseen, ds, dc);
    case InvalidRequest =>
      LoggedOutAfter(v, c', LogoutResponse(ProtocolViolation));
      if c != c' { LogoutStepMirror(v, c', ProtocolViolation, c, init, unseen, ds, dc); }
    case LogoutRequest =>
      LoggedOutAfter(v, c', LogoutResponse(UserRequested));
      if c != c' { LogoutStepMirror(v, c', UserRequested, c, init, unseen, ds, dc); }
    case OrderRequest(side, quantity, price) =>
      if account.Some? { MirrorOrder(v, c', account.value, side, quantity, price, c, init, unseen, ds, dc); }
    case CancelRequest(orderId) =>
      if account.Some? { MirrorCancel(v, c', account.value, orderId, c, init, unseen, ds, dc); }
    case ReplaceRequest(orderId, side, quantity, price) =>
      if account.Some? { MirrorReplace(v, c', account.value, orderId, side, quantity, price, c, init, unseen, ds, dc); }
    case PurgeRequest(picks) =>
      if account.Some? && Enumerates(picks, v.desk.accounts[account.value].orders) {
        MirrorPurge(v, c', account.value, picks, c, init, unseen, ds, dc);
      }
  }

  lemma OtherStepView(v: Venue, step: Step, c: ConnectionId)
    requires Inv(v) && c in v.desk.connections && !step.Receive?
    requires step == HangUp(c) ==> LoggedIn(v.desk, c).None? && !v.desk.connections[c].open
    ensures SameView(v.desk, Next(v, step).desk, c)
  {
    hide Inv, BookOk;
    InvSessions(v);
    if step.HangUp? && step.c in v.desk.connections && step.c != c {
      OtherSession(v, step.c, "", c);
      LogOutSessions(v, step.c);
    }
  }

  lemma HangUpLogsOut(v: Venue, c: ConnectionId)
    requires Inv(v)
    ensures LoggedIn(Next(v, HangUp(c)).desk, c).None?
    ensures c in Next(v, HangUp(c)).desk.connections ==> !Next(v, HangUp(c)).desk.connections[c].open
  {
    InvSessions(v);
    if c in v.desk.connections {
      LogOutSessions(v, c);
    }
  }

  /** As long as the connection stays logged in, every step keeps the mirror, with the same
      unseen orders and the same distances. */
  lemma NextKeepsMirror(v: Venue, step: Step, c: ConnectionId, init: ClientState, unseen: set<UID>, ds: int, dc: int)
    requires Inv(v) && MirrorOn(v.desk, c, init, unseen, {}, ds, dc)
    requires forall u | u in unseen :: u < v.sequence
    requires LoggedIn(Next(v, step).desk, c).Some?
    ensures MirrorOn(Next(v, step).desk, c, init, unseen, {}, ds, dc)
  {
    hide Inv, MirrorOn, HandleRequest, LoggedIn, SameView;
    MirrorLoggedIn(v.desk, c, init, unseen, ds, dc);
    if step.Receive? {
      if step.c in v.desk.connections && v.desk.connections[step.c].open {
        RequestKeepsMirror(v, step.c, step.request, c, init, unseen, ds, dc);
      }
    } else {
      HangUpLogsOut(v, c);
      OtherStepView(v, step, c);
      SameViewMirror(v.desk, Next(v, step).desk, c, init, unseen, ds, dc);
    }
  }

  // ---------------------------------------------------------------------------
  // Order IDs are never given twice
  // ---------------------------------------------------------------------------

  lemma LimitSequence(v: Venue, name: Username, side: Side, quantity: Quantity, price: Price)
    ensures PlaceLimit(v, name, side, quantity, price).0.sequence >= v.sequence
  {
    hide SubmitLimit, ApplyFills, SendAll, Send, UsedUp;
  }

  lemma {:induction false} CancelAllSequence(v: Venue, picks: seq<UID>)
    ensures CancelAll(v, picks).sequence == v.sequence
  {
    if picks != [] {
      CancelAllSequence(v, picks[..|picks| - 1]);
    }
  }

  lemma RequestSequence(v: Venue, c: ConnectionId, request: Request)
    requires c in v.desk.connections
    ensures HandleRequest(v, c, request).sequence >= v.sequence
  {
    hide PlaceLimit, CancelAll, Enumerates, ApplyFills, SendAll, UsedUp, Canceled, SubmitMarket, Respond;
    var account := v.desk.connections[c].account;
    if account.Some? {
      match request
      case OrderRequest(side, quantity, price) => LimitSequence(v, account.value, side, quantity, price);
      case ReplaceRequest(orderId, side, quantity, price) =>
        LimitSequence(v, account.value, side, quantity, price);
        LimitSequence(CancelOrder(v, orderId), account.value, side, quantity, price);
      case PurgeRequest(picks) => CancelAllSequence(v, picks);
      case _ =>
    }
  }

  lemma NextSequence(v: Venue, step: Step)
    ensures Next(v, step).sequence >= v.sequence
  {
    hide HandleRequest;
    if step.Receive? && step.c in v.desk.connections {
      RequestSequence(v, step.c, step.request);
    }
  }

  // ---------------------------------------------------------------------------
  // A whole session
  // ---------------------------------------------------------------------------

  predicate StaysLoggedIn(v: Venue, steps: seq<Step>, c: ConnectionId)
    decreases |steps|
  {
    LoggedIn(v.desk, c).Some? && (steps == [] || StaysLoggedIn(Next(v, steps[0]), steps[1..], c))
  }

  /** Through any run in which the connection stays logged in, its client, once everything sent
      has been delivered, shows exactly the account's resting orders minus those unseen at the
      start, and its shares and capital keep their distance from the account's. */
  lemma {:induction false} SessionKeepsMirror(
      v: Venue, steps: seq<Step>, c: ConnectionId, init: ClientState, unseen: set<UID>, ds: int, dc: int)
    requires Inv(v) && MirrorOn(v.desk, c, init, unseen, {}, ds, dc)
    requires forall u | u in unseen :: u < v.sequence
    requires StaysLoggedIn(v, steps, c)
    ensures MirrorOn(Run(v, steps).desk, c, init, unseen, {}, ds, dc)
    decreases |steps|
  {
    hide Inv, MirrorOn, Next, LoggedIn;
    if steps != [] {
      NextKeepsMirror(v, steps[0], c, init, unseen, ds, dc);
      NextKeepsInv(v, steps[0]);
      NextSequence(v, steps[0]);
      SessionKeepsMirror(Next(v, steps[0]), steps[1..], c, init, unseen, ds, dc);
    }
  }

  // ---------------------------------------------------------------------------
  // Outside a session
  // ---------------------------------------------------------------------------

  predicate Quiet(s: ClientState) {
    !s.isAuthorized && s.activeOrders == {}
  }

  /** The client of a logged-out connection shows nothing; that of a logged-in one shows only
      resting orders of its account. */
  ghost predicate Tracks(d: Desk, c: ConnectionId, init: ClientState) {
    c in d.connections ==>
      && (d.connections[c].open && LoggedIn(d, c).None? ==> Quiet(Told(d, c, init)))
      && (LoggedIn(d, c).Some? ==>
            && Told(d, c, init).isAuthorized
            && Told(d, c, init).activeOrders <= d.accounts[LoggedIn(d, c).value].orders)
  }

  lemma TracksMirror(d: Desk, c: ConnectionId, init: ClientState)
    requires Tracks(d, c, init) && LoggedIn(d, c).Some?
    ensures var s, a := Told(d, c, init), d.accounts[LoggedIn(d, c).value];
      MirrorOn(d, c, init, a.orders - s.activeOrders, {}, s.shares - a.shares, s.capital - a.capital)
  {
    hide Fold, Bodies;
  }

  lemma MirrorTracks(d: Desk, c: ConnectionId, init: ClientState, unseen: set<UID>, ds: int, dc: int)
    requires MirrorOn(d, c, init, unseen, {}, ds, dc)
    ensures Tracks(d, c, init)
  {
    hide Fold, Bodies, Congruent;
  }

  lemma AnswerOut(v: Venue, c: ConnectionId, r: Response, init: ClientState)
    requires c in v.desk.connections
    ensures var d := Answer(v, c, r).desk;
      && c in d.connections && d.connections[c].account == v.desk.connections[c].account
      && d.accounts == v.desk.accounts
      && Told(d, c, init) == Handle(Told(v.desk, c, init), r)
  {
    hide Handle, Fold, Bodies, Send;
    RespondClient(v.desk, c, r, init);
  }

  /** A login that succeeds starts the mirror with the orders that rest at that moment unseen. */
  lemma LoginMirror(v: Venue, c: ConnectionId, name: Username, init: ClientState)
    requires Inv(v) && c in v.desk.connections && name in v.desk.accounts
    requires LoggedIn(v.desk, c).None? && Quiet(Told(v.desk, c, init))
    ensures var d := Answer(LogIn(v, c, name), c, LoginResponse(LoginAccepted)).desk;
      && LoggedIn(d, c) == Some(name) && d.accounts[name].orders == v.desk.accounts[name].orders
      && MirrorOn(d, c, init, v.desk.accounts[name].orders, {},
                  Told(v.desk, c, init).shares - v.desk.accounts[name].shares,
                  Told(v.desk, c, init).capital - v.desk.accounts[name].capital)
  {
    hide Inv, Fold, Bodies, Send, Answer;
    AnswerOut(LogIn(v, c, name), c, LoginResponse(LoginAccepted), init);
  }

  lemma OwnRequestTracks(v: Venue, c: ConnectionId, request: Request, init: ClientState)
    requires Inv(v) && c in v.desk.connections && v.desk.connections[c].open && Tracks(v.desk, c, init)
    requires v.desk.connections[c].account.None? || LoggedIn(HandleRequest(v, c, request).desk, c).None?
    ensures Tracks(HandleRequest(v, c, request).desk, c, init)
  {
    hide Inv, Fold, Bodies, Send, Answer, SessionsOk, HandleOrder, HandleCancel, HandleReplace, CancelAll, Enumerates;
    InvSessions(v);
    var account := v.desk.connections[c].account;
    if request.LoginRequest? && account.None? {
      AnswerOut(v, c, LoginResponse(NotAuthorized), init);
      AnswerOut(v, c, LoginResponse(SessionInUse), init);
      if request.username in v.desk.accounts {
        LoginMirror(v, c, request.username, init);
        MirrorTracksLogin(v, c, request.username, init);
      }
    } else if request.InvalidRequest? || (request.LogoutRequest? && account.Some?) {
      LogOutSessions(v, c);
      AnswerOut(LogOut(v, c), c, LogoutResponse(ProtocolViolation), init);
      AnswerOut(LogOut(v, c), c, LogoutResponse(UserRequested), init);
    } else if account.None? {
      AnswerOut(v, c, Refusal(request), init);
    } else {
      StillLoggedIn(v, c, request);
    }
  }

  lemma MirrorTracksLogin(v: Venue, c: ConnectionId, name: Username, init: ClientState)
    requires Inv(v) && c in v.desk.connections && name in v.desk.accounts
    requires LoggedIn(v.desk, c).None? && Quiet(Told(v.desk, c, init))
    ensures Tracks(Answer(LogIn(v, c, name), c, LoginResponse(LoginAccepted)).desk, c, init)
  {
    hide Inv, MirrorOn, Answer, LogIn, LoggedIn, Told, Tracks;
    LoginMirror(v, c, name, init);
    MirrorTracks(Answer(LogIn(v, c, name), c, LoginResponse(LoginAccepted)).desk, c, init,
                 v.desk.accounts[name].orders,
                 Told(v.desk, c, init).shares - v.desk.accounts[name].shares,
                 Told(v.desk, c, init).capital - v.desk.accounts[name].capital);
  }

  /** Apart from logging out, no request of its own ends a session. */
  lemma StillLoggedIn(v: Venue, c: ConnectionId, request: Request)
    requires Inv(v) && c in v.desk.connections && v.desk.connections[c].account.Some?
    requires !request.InvalidRequest? && !request.LogoutRequest?
    ensures LoggedIn(HandleRequest(v, c, request).desk, c).Some?
  {
    hide Inv, SameSessions, Answer, CancelAll, Enumerates, HandleOrder, HandleCancel, HandleReplace, LoggedIn;
    AccountExists(v, c);
    LoggedInFrom(v.desk, c);
    var name := v.desk.connections[c].account.value;
    var d := HandleRequest(v, c, request).desk;
    match request
    case LoginRequest(_, _) =>
      AnswerKeepsInv(v, c, LoginResponse(AlreadyAuthorized));
      SameLogin(v.desk, d, c);
    case OrderRequest(side, quantity, price) =>
      HandleOrderKeepsInv(v, c, name, side, quantity, price);
      SameLogin(v.desk, d, c);
    case CancelRequest(orderId) =>
      HandleCancelKeepsInv(v, c, name, orderId);
      SameLogin(v.desk, d, c);
    case ReplaceRequest(orderId, side, quantity, price) =>
      HandleReplaceKeepsInv(v, c, name, orderId, side, quantity, price);
      SameLogin(v.desk, d, c);
    case PurgeRequest(picks) =>
      if Enumerates(picks, v.desk.accounts[name].orders) {
        HandlePurgeKeepsInv(v, c, name, picks);
        SameLogin(v.desk, d, c);
      }
  }

  lemma LoggedInFrom(d: Desk, c: ConnectionId)
    requires c in d.connections && d.connections[c].account.Some? && d.connections[c].account.value in d.accounts
    ensures LoggedIn(d, c) == d.connections[c].account
  {
  }

  /** Nothing is ever sent to a connection that is not logged in except answers to its requests. */
  lemma LegSilent(d: Desk, name: Username, side: Side, r: Response, release: bool, c: ConnectionId)
    requires r.TradeResponse? && SessionsOk(d) && c in d.connections && d.connections[c].account.None?
    ensures var d' := Leg(d, name, side, r, release); c in d'.connections && d'.connections[c] == d.connections[c]
  {
    hide Booked, Send;
    if name in d.accounts {
      assert d.accounts[name].handler != Some(c);
      BookedKeeps(if release then d.accounts[name].(orders := d.accounts[name].orders - {r.orderId})
                  else d.accounts[name],
                  side, r.quantity, r.price);
    }
  }

  lemma FillSilent(d: Desk, taker: Username, side: Side, maker: Username, f: Fill, c: ConnectionId)
    requires SessionsOk(d) && c in d.connections && d.connections[c].account.None?
    ensures var d' := ApplyFill(d, taker, side, maker, f); c in d'.connections && d'.connections[c] == d.connections[c]
  {
    hide Leg, SessionsOk, SameSessions;
    var d' := Leg(d, taker, side, TakerReport(side, f), false);
    LegSilent(d, taker, side, TakerReport(side, f), false, c);
    LegSameSessions(d, taker, side, TakerReport(side, f), false);
    SameSessionsOk(d, d');
    LegSilent(d', maker, side.Opposite(), MakerReport(side, f), f.makerLeaves == 0, c);
  }

  lemma {:induction false} FillsSilent(d: Desk, taker: Username, side: Side, owner: map<UID, Username>,
                                       fills: seq<Fill>, c: ConnectionId)
    requires SessionsOk(d) && c in d.connections && d.connections[c].account.None?
    ensures var d' := ApplyFills(d, taker, side, owner, fills);
      c in d'.connections && d'.connections[c] == d.connections[c]
  {
    hide ApplyFill, SessionsOk, SameSessions;
    if fills != [] {
      var n := |fills| - 1;
      var before := ApplyFills(d, taker, side, owner, fills[..n]);
      FillsSilent(d, taker, side, owner, fills[..n], c);
      FillsSameSessions(d, taker, side, owner, fills[..n]);
      SameSessionsOk(d, before);
      FillSilent(before, taker, side, OwnerOf(owner, fills[n].uid), fills[n], c);
    }
  }

  lemma LimitSilent(v: Venue, name: Username, side: Side, quantity: Quantity, price: Price, c: ConnectionId)
    requires SessionsOk(v.desk) && c in v.desk.connections && v.desk.connections[c].account.None?
    ensures var w := PlaceLimit(v, name, side, quantity, price).0;
      c in w.desk.connections && w.desk.connections[c] == v.desk.connections[c]
  {
    hide SessionsOk, SubmitLimit, ApplyFills, SendAll, Send, UsedUp;
    FillsSilent(v.desk, name, side, v.owner, SubmitLimit(v.book, side, v.sequence, quantity, price).fills, c);
  }

  lemma MarketSilent(v: Venue, name: Username, side: Side, quantity: Quantity, c: ConnectionId)
    requires SessionsOk(v.desk) && c in v.desk.connections && v.desk.connections[c].account.None?
    ensures var w := PlaceMarket(v, name, side, quantity);
      c in w.desk.connections && w.desk.connections[c] == v.desk.connections[c]
  {
    hide SessionsOk, SubmitMarket, ApplyFills, SendAll, Send, UsedUp;
    FillsSilent(v.desk, name, side, v.owner, SubmitMarket(v.book, side, quantity).fills, c);
  }

  lemma {:induction false} CancelAllSilent(v: Venue, picks: seq<UID>)
    ensures CancelAll(v, picks).desk.connections == v.desk.connections
  {
    hide Canceled, Send;
    if picks != [] {
      CancelAllSilent(v, picks[..|picks| - 1]);
    }
  }

  lemma OtherRequestSilent(v: Venue, c': ConnectionId, request: Request, c: ConnectionId)
    requires Inv(v) && c in v.desk.connections && v.desk.connections[c].account.None?
    requires c' in v.desk.connections && c' != c
    ensures var w := HandleRequest(v, c', request);
      c in w.desk.connections && w.desk.connections[c] == v.desk.connections[c]
  {
    hide Inv, PlaceLimit, PlaceMarket, CancelAll, Enumerates, Canceled, Send, SameSessions, SessionsOk;
    InvSessions(v);
    var account := v.desk.connections[c'].account;
    if account.Some? {
      AccountExists(v, c');
      match request
      case OrderRequest(side, quantity, price) =>
        LimitSilent(v, account.value, side, quantity, price, c);
        MarketSilent(v, account.value, side, quantity, c);
      case ReplaceRequest(orderId, side, quantity, price) =>
        LimitSilent(v, account.value, side, quantity, price, c);
        if orderId in v.owner {
          CancelOrderKeepsInv(v, orderId);
          InvSessions(CancelOrder(v, orderId));
          LimitSilent(CancelOrder(v, orderId), account.value, side, quantity, price, c);
        }
      case PurgeRequest(picks) => CancelAllSilent(v, picks);
      case _ =>
    }
  }

  lemma ReceiveTracks(v: Venue, c': ConnectionId, request: Request, c: ConnectionId, init: ClientState)
    requires Inv(v) && c in v.desk.connections && Tracks(v.desk, c, init)
    requires c' in v.desk.connections && v.desk.connections[c'].open
    ensures Tracks(HandleRequest(v, c', request).desk, c, init)
  {
    hide Inv, MirrorOn, HandleRequest, Fold, Bodies;
    var w := HandleRequest(v, c', request);
    var account := v.desk.connections[c].account;
    if account.Some? {
      AccountExists(v, c);
    }
    if account.Some? && LoggedIn(w.desk, c).Some? {
      TracksMirror(v.desk, c, init);
      var s, a := Told(v.desk, c, init), v.desk.accounts[account.value];
      OrdersAreOld(v, account.value);
      RequestKeepsMirror(v, c', request, c, init, a.orders - s.activeOrders, s.shares - a.shares,
                         s.capital - a.capital);
      MirrorTracks(w.desk, c, init, a.orders - s.activeOrders, s.shares - a.shares, s.capital - a.capital);
    } else if c == c' {
      OwnRequestTracks(v, c, request, init);
    } else if account.None? {
      OtherRequestSilent(v, c', request, c);
    } else {
      OtherStaysLoggedIn(v, c', request, c);
    }
  }

  lemma OrdersAreOld(v: Venue, name: Username)
    requires Inv(v) && name in v.desk.accounts
    ensures forall u | u in v.desk.accounts[name].orders :: u < v.sequence
  {
    forall u | u in v.desk.accounts[name].orders
      ensures u < v.sequence
    {
      assert u in v.owner && u in v.book.AllUids();
      BookPositive(v.book, v.sequence, u);
    }
  }

  /** No other connection's request ends this session. */
  lemma OtherStaysLoggedIn(v: Venue, c': ConnectionId, request: Request, c: ConnectionId)
    requires Inv(v) && LoggedIn(v.desk, c).Some? && c' in v.desk.connections && c != c'
    ensures LoggedIn(HandleRequest(v, c', request).desk, c).Some?
  {
    hide Inv, SameSessions, Answer, CancelAll, Enumerates, HandleOrder, HandleCancel, HandleReplace, LoggedIn,
      SessionsOk, LogIn, LogOut, SameView;
    InvSessions(v);
    LoggedInConnection(v.desk, c);
    var account := v.desk.connections[c'].account;
    var d := HandleRequest(v, c', request).desk;
    if account.Some? { AccountExists(v, c'); }
    if request.LoginRequest? {
      OtherSession(v, c', request.username, c);
      forall w: Venue, r | SameView(v.desk, w.desk, c) || w == v
        ensures LoggedIn(Answer(w, c', r).desk, c).Some?
      {
        AnswerStays(v, w, c', r, c);
      }
    } else if request.InvalidRequest? || (request.LogoutRequest? && account.Some?) {
      OtherSession(v, c', "", c);
      AnswerStays(v, LogOut(v, c'), c', LogoutResponse(ProtocolViolation), c);
      AnswerStays(v, LogOut(v, c'), c', LogoutResponse(UserRequested), c);
    } else if account.None? {
      AnswerStays(v, v, c', Refusal(request), c);
    } else {
      match request
      case OrderRequest(side, quantity, price) =>
        HandleOrderKeepsInv(v, c', account.value, side, quantity, price);
        SameLogin(v.desk, d, c);
      case CancelRequest(orderId) =>
        HandleCancelKeepsInv(v, c', account.value, orderId);
        SameLogin(v.desk, d, c);
      case ReplaceRequest(orderId, side, quantity, price) =>
        HandleReplaceKeepsInv(v, c', account.value, orderId, side, quantity, price);
        SameLogin(v.desk, d, c);
      case PurgeRequest(picks) =>
        if Enumerates(picks, v.desk.accounts[account.value].orders) {
          HandlePurgeKeepsInv(v, c', account.value, picks);
          SameLogin(v.desk, d, c);
        }
    }
  }

  lemma LoggedInConnection(d: Desk, c: ConnectionId)
    requires LoggedIn(d, c).Some?
    ensures c in d.connections && LoggedIn(d, c).value in d.accounts
  {
  }

  lemma AnswerStays(v: Venue, w: Venue, c': ConnectionId, r: Response, c: ConnectionId)
    requires LoggedIn(v.desk, c).Some? && (SameView(v.desk, w.desk, c) || w == v)
    ensures LoggedIn(Answer(w, c', r).desk, c).Some?
  {
  }

  lemma NextTracks(v: Venue, step: Step, c: ConnectionId, init: ClientState)
    requires Inv(v) && Quiet(init) && Tracks(v.desk, c, init)
    ensures Tracks(Next(v, step).desk, c, init)
  {
    hide Inv, HandleRequest, Fold, Bodies;
    if step.Receive? {
      if step.c in v.desk.connections && v.desk.connections[step.c].open {
        if c in v.desk.connections {
          ReceiveTracks(v, step.c, step.request, c, init);
        } else {
          SameConnections(v, step.c, step.request);
        }
      }
    } else if c !in v.desk.connections {
      if step == Accept(c) { NewClient(v, c, init); } else { NoNewConnection(v, step, c); }
    } else if step == HangUp(c) {
      HangUpLogsOut(v, c);
    } else {
      OtherStepView(v, step, c);
    }
  }

  lemma NewClient(v: Venue, c: ConnectionId, init: ClientState)
    requires c !in v.desk.connections
    ensures var d := Next(v, Accept(c)).desk;
      c in d.connections && d.connections[c].account.None? && Told(d, c, init) == init
  {
    var d := Next(v, Accept(c)).desk;
    assert Sent(d.connections[c]) == [];
  }

  lemma NoNewConnection(v: Venue, step: Step, c: ConnectionId)
    requires c !in v.desk.connections && !step.Receive? && step != Accept(c)
    ensures c !in Next(v, step).desk.connections
  {
  }

  lemma SameConnections(v: Venue, c': ConnectionId, request: Request)
    requires Inv(v) && c' in v.desk.connections
    ensures HandleRequest(v, c', request).desk.connections.Keys == v.desk.connections.Keys
  {
    hide Inv, SameSessions, PlaceLimit, PlaceMarket, CancelAll, Enumerates, Canceled, Send, HandleOrder, HandleCancel,
      HandleReplace;
    var account := v.desk.connections[c'].account;
    var d := HandleRequest(v, c', request).desk;
    if account.Some? {
      AccountExists(v, c');
      match request
      case OrderRequest(side, quantity, price) =>
        HandleOrderKeepsInv(v, c', account.value, side, quantity, price);
        AccountsStay(v.desk, d);
      case CancelRequest(orderId) =>
        HandleCancelKeepsInv(v, c', account.value, orderId);
        AccountsStay(v.desk, d);
      case ReplaceRequest(orderId, side, quantity, price) =>
        HandleReplaceKeepsInv(v, c', account.value, orderId, side, quantity, price);
        AccountsStay(v.desk, d);
      case PurgeRequest(picks) =>
        if Enumerates(picks, v.desk.accounts[account.value].orders) {
          HandlePurgeKeepsInv(v, c', account.value, picks);
          AccountsStay(v.desk, d);
        }
      case _ =>
    }
  }

  /** In every run, a client that starts with nothing shows nothing while logged out and only
      resting orders of its account while logged in. */
  lemma {:induction false} RunTracks(v: Venue, steps: seq<Step>, c: ConnectionId, init: ClientState)
    requires Inv(v) && Quiet(init) && Tracks(v.desk, c, init)
    ensures Tracks(Run(v, steps).desk, c, init)
    decreases |steps|
  {
    hide Inv, Tracks, Next;
    if steps != [] {
      NextTracks(v, steps[0], c, init);
      NextKeepsInv(v, steps[0]);
      RunTracks(Next(v, steps[0]), steps[1..], c, init);
    }
  }

  // ---------------------------------------------------------------------------
  // Main results about sessions
  // ---------------------------------------------------------------------------

  /** From a login that succeeds, through any run until logout: the client shows exactly the
      account's resting orders minus those that rested at login; so all of them if none did. */
  lemma LoginSession(v: Venue, c: ConnectionId, name: Username, password: string, steps: seq<Step>, init: ClientState)
    requires Inv(v) && Quiet(init) && Tracks(v.desk, c, init)
    requires c in v.desk.connections && v.desk.connections[c].open && v.desk.connections[c].account.None?
    requires name in v.desk.accounts && v.desk.accounts[name].password == password && !v.desk.accounts[name].isConnected
    requires StaysLoggedIn(Next(v, Receive(c, LoginRequest(name, password))), steps, c)
    ensures var w := Run(Next(v, Receive(c, LoginRequest(name, password))), steps);
      var before := v.desk.accounts[name].orders;
      && LoggedIn(w.desk, c).Some?
      && var s, a := Told(w.desk, c, init), w.desk.accounts[LoggedIn(w.desk, c).value];
         && s.isAuthorized && s.activeOrders == a.orders - before
         && (before == {} ==> s.activeOrders == a.orders)
         && Congruent(s.shares - a.shares, Told(v.desk, c, init).shares - v.desk.accounts[name].shares, TWO_32)
         && Congruent(s.capital - a.capital, Told(v.desk, c, init).capital - v.desk.accounts[name].capital, TWO_64)
  {
    hide Inv, Run, StaysLoggedIn, Fold, Bodies, Congruent, SessionsOk;
    var step := Receive(c, LoginRequest(name, password));
    var started := Next(v, step);
    LoginMirror(v, c, name, init);
    NextKeepsInv(v, step);
    NextSequence(v, step);
    OrdersAreOld(v, name);
    SessionKeepsMirror(started, steps, c, init, v.desk.accounts[name].orders,
                       Told(v.desk, c, init).shares - v.desk.accounts[name].shares,
                       Told(v.desk, c, init).capital - v.desk.accounts[name].capital);
  }

  /** After an accepted purge, and from then on, the client shows exactly the account's resting orders,
      and its shares and capital keep the distance from the account's that they had at the purge. */
  lemma PurgeSession(v: Venue, c: ConnectionId, picks: seq<UID>, steps: seq<Step>, init: ClientState)
    requires Inv(v) && Tracks(v.desk, c, init) && LoggedIn(v.desk, c).Some? && v.desk.connections[c].open
    requires Enumerates(picks, v.desk.accounts[LoggedIn(v.desk, c).value].orders)
    requires StaysLoggedIn(Next(v, Receive(c, PurgeRequest(picks))), steps, c)
    ensures var w := Run(Next(v, Receive(c, PurgeRequest(picks))), steps);
      && LoggedIn(w.desk, c).Some?
      && var s, a := Told(w.desk, c, init), w.desk.accounts[LoggedIn(w.desk, c).value];
         var was, atPurge := Told(v.desk, c, init), v.desk.accounts[LoggedIn(v.desk, c).value];
         && s.isAuthorized && s.activeOrders == a.orders
         && Congruent(s.shares - a.shares, was.shares - atPurge.shares, TWO_32)
         && Congruent(s.capital - a.capital, was.capital - atPurge.capital, TWO_64)
  {
    hide Inv, Run, StaysLoggedIn, Fold, Bodies, Congruent, Enumerates, CancelAll, SessionsOk, Answer;
    var step := Receive(c, PurgeRequest(picks));
    var name := LoggedIn(v.desk, c).value;
    var s, a := Told(v.desk, c, init), v.desk.accounts[name];
    var purged := Next(v, step);
    TracksMirror(v.desk, c, init);
    MirrorPurge(v, c, name, picks, c, init, a.orders - s.activeOrders, s.shares - a.shares, s.capital - a.capital);
    HandlePurgeLogin(v, c, name, picks);
    AnswerMirror(CancelAll(v, picks), c, PurgeResponse(Accepted), c, init);
    NextKeepsInv(v, step);
    SessionKeepsMirror(purged, steps, c, init, {}, s.shares - a.shares, s.capital - a.capital);
  }

  lemma HandlePurgeLogin(v: Venue, c: ConnectionId, name: Username, picks: seq<UID>)
    requires Inv(v) && LoggedIn(v.desk, c) == Some(name) && Enumerates(picks, v.desk.accounts[name].orders)
    ensures LoggedIn(CancelAll(v, picks).desk, c) == Some(name)
    ensures LoggedIn(Answer(CancelAll(v, picks), c, PurgeResponse(Accepted)).desk, c) == Some(name)
    ensures Answer(CancelAll(v, picks), c, PurgeResponse(Accepted)).desk.accounts == CancelAll(v, picks).desk.accounts
  {
    hide Inv, CancelAll, Enumerates, SameSessions, LoggedIn;
    LoggedInConnection(v.desk, c);
    EnumerationOwned(v, name, picks);
    CancelAllKeepsInv(v, picks);
    SameLogin(v.desk, CancelAll(v, picks).desk, c);
    HandlePurgeKeepsInv(v, c, name, picks);
    SameLogin(v.desk, Answer(CancelAll(v, picks), c, PurgeResponse(Accepted)).desk, c);
  }

  /** What was delivered, then what is still queued: together the client `Told` speaks of. */
  lemma DeliveredThenQueued(d: Desk, c: ConnectionId, init: ClientState)
    requires c in d.connections && Healthy(d.connections[c].outbox, 0)
    ensures var o := d.connections[c].outbox;
      Fold(Fold(init, Bodies(o.wire)), Bodies(o.queue)) == Told(d, c, init)
  {
    var o := d.connections[c].outbox;
    assert Bodies(o.wire) + Bodies(o.queue) == Bodies(o.enqueued);
    FoldConcat(init, Bodies(o.wire), Bodies(o.queue));
  }
}
