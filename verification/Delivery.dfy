/**
 From a connection's queue to its client over whole runs: what a client has been sent and what
 still waits for it are, in order, everything the server answered.
 */
module Delivery {
  import opened MarketTypes
  import opened Books
  import opened Protocol
  import opened Outboxes
  import opened Clients
  import opened Desks
  import opened Venues
  import opened VenueInvariant
  import opened Mirror
  import opened SessionMirror

  ghost predicate Grew(o: Outbox<Response>, o': Outbox<Response>) {
    exists responses: seq<Response> :: o' == SendAll(o, responses)
  }

  lemma GrewBySelf(o: Outbox<Response>)
    ensures Grew(o, o)
  {
    assert SendAll(o, []) == o;
  }

  lemma GrewBySend(o: Outbox<Response>, r: Response)
    ensures Grew(o, Send(o, r))
  {
    assert SendAll(o, [r]) == SendAll(Send(o, r), [r][1..]) == Send(o, r);
  }

  lemma GrewTwice(o: Outbox<Response>, o': Outbox<Response>, o'': Outbox<Response>)
    requires Grew(o, o') && Grew(o', o'')
    ensures Grew(o, o'')
  {
    hide SendAll;
    var a: seq<Response> :| o' == SendAll(o, a);
    var b: seq<Response> :| o'' == SendAll(o', b);
    SendAllConcat(o, a, b);
  }

  /** From one desk to the next, connection c was at most sent responses. */
  ghost predicate Appends(d: Desk, d': Desk, c: ConnectionId) {
    && (c in d.connections <==> c in d'.connections)
    && (c in d.connections && c in d'.connections ==> Grew(d.connections[c].outbox, d'.connections[c].outbox))
  }

  lemma AppendsTwice(d: Desk, d': Desk, d'': Desk, c: ConnectionId)
    requires Appends(d, d', c) && Appends(d', d'', c)
    ensures Appends(d, d'', c)
  {
    hide Grew;
    if c in d.connections {
      GrewTwice(d.connections[c].outbox, d'.connections[c].outbox, d''.connections[c].outbox);
    }
  }

  lemma AppendsNothing(d: Desk, d': Desk, c: ConnectionId)
    requires c in d.connections <==> c in d'.connections
    requires c in d.connections && c in d'.connections ==> d'.connections[c].outbox == d.connections[c].outbox
    ensures Appends(d, d', c)
  {
    hide Grew;
    if c in d.connections {
      GrewBySelf(d.connections[c].outbox);
    }
  }

  lemma RespondAppends(d: Desk, c': ConnectionId, r: Response, c: ConnectionId)
    ensures Appends(d, Respond(d, c', r), c)
  {
    hide Grew, Send;
    if c in d.connections {
      GrewBySelf(d.connections[c].outbox);
      GrewBySend(d.connections[c].outbox, r);
    }
  }

  lemma LegAppends(d: Desk, name: Username, side: Side, r: Response, release: bool, c: ConnectionId)
    requires r.TradeResponse?
    ensures Appends(d, Leg(d, name, side, r, release), c)
  {
    hide Appends, Respond, Booked;
    AppendsNothing(d, d, c);
    if name in d.accounts {
      var a := d.accounts[name];
      var kept := if release then a.(orders := a.orders - {r.orderId}) else a;
      var d' := SetAccount(d, name, Booked(kept, side, r.quantity, r.price));
      AppendsNothing(d, d', c);
      if d'.accounts[name].handler.Some? {
        RespondAppends(d', d'.accounts[name].handler.value, r, c);
        AppendsTwice(d, d', Respond(d', d'.accounts[name].handler.value, r), c);
      }
    }
  }

  lemma {:induction false} FillsAppend(d: Desk, taker: Username, side: Side, owner: map<UID, Username>,
                                       fills: seq<Fill>, c: ConnectionId)
    ensures Appends(d, ApplyFills(d, taker, side, owner, fills), c)
  {
    hide Appends, Leg;
    if fills == [] {
      AppendsNothing(d, d, c);
    } else {
      var n := |fills| - 1;
      var maker := OwnerOf(owner, fills[n].uid);
      var d' := ApplyFills(d, taker, side, owner, fills[..n]);
      var d'' := Leg(d', taker, side, TakerReport(side, fills[n]), false);
      FillsAppend(d, taker, side, owner, fills[..n], c);
      LegAppends(d', taker, side, TakerReport(side, fills[n]), false, c);
      LegAppends(d'', maker, side.Opposite(), MakerReport(side, fills[n]), fills[n].makerLeaves == 0, c);
      AppendsTwice(d, d', d'', c);
      AppendsTwice(d, d'', ApplyFills(d, taker, side, owner, fills), c);
    }
  }

  lemma LimitAppends(v: Venue, name: Username, side: Side, quantity: Quantity, price: Price, c: ConnectionId)
    ensures Appends(v.desk, PlaceLimit(v, name, side, quantity, price).0.desk, c)
  {
    hide Appends, SubmitLimit, ApplyFills, SendAll, Send;
    var fills := SubmitLimit(v.book, side, v.sequence, quantity, price).fills;
    var d := ApplyFills(v.desk, name, side, v.owner, fills);
    FillsAppend(v.desk, name, side, v.owner, fills, c);
    AppendsNothing(d, Hold(d, name, v.sequence), c);
    AppendsTwice(v.desk, d, Hold(d, name, v.sequence), c);
  }

  lemma ThenAnswer(v: Venue, w: Venue, c': ConnectionId, r: Response, c: ConnectionId)
    requires Appends(v.desk, w.desk, c)
    ensures Appends(v.desk, Answer(w, c', r).desk, c)
  {
    hide Appends, Respond;
    RespondAppends(w.desk, c', r, c);
    AppendsTwice(v.desk, w.desk, Answer(w, c', r).desk, c);
  }

  lemma SilentAnswer(v: Venue, w: Venue, c': ConnectionId, r: Response, c: ConnectionId)
    requires c in v.desk.connections <==> c in w.desk.connections
    requires c in v.desk.connections && c in w.desk.connections ==>
               w.desk.connections[c].outbox == v.desk.connections[c].outbox
    ensures Appends(v.desk, Answer(w, c', r).desk, c)
  {
    hide Appends, Respond;
    AppendsNothing(v.desk, w.desk, c);
    ThenAnswer(v, w, c', r, c);
  }

  lemma OrderAppends(v: Venue, c': ConnectionId, name: Username, side: Side, quantity: Quantity, price: Price,
                     c: ConnectionId)
    ensures Appends(v.desk, HandleOrder(v, c', name, side, quantity, price).desk, c)
  {
    hide Appends, SubmitMarket, PlaceLimit, ApplyFills, Answer;
    if price == 0 {
      FillsAppend(v.desk, name, side, v.owner, SubmitMarket(v.book, side, quantity).fills, c);
      ThenAnswer(v, PlaceMarket(v, name, side, quantity), c', OrderResponse(0, Accepted), c);
    } else {
      var (placed, uid) := PlaceLimit(v, name, side, quantity, price);
      LimitAppends(v, name, side, quantity, price, c);
      ThenAnswer(v, placed, c', OrderResponse(uid, Accepted), c);
    }
  }

  lemma ReplaceAppends(v: Venue, c': ConnectionId, name: Username, orderId: UID, side: Side, quantity: Quantity,
                       price: Price, c: ConnectionId)
    ensures Appends(v.desk, HandleReplace(v, c', name, orderId, side, quantity, price).desk, c)
  {
    hide Appends, PlaceLimit, Canceled, Answer, Send;
    SilentAnswer(v, v, c', ReplaceResponse(orderId, 0, Rejected), c);
    var freed := if orderId in v.owner then CancelOrder(v, orderId) else v;
    var (placed, uid) := PlaceLimit(freed, name, side, quantity, price);
    AppendsNothing(v.desk, freed.desk, c);
    LimitAppends(freed, name, side, quantity, price, c);
    AppendsTwice(v.desk, freed.desk, placed.desk, c);
    ThenAnswer(v, placed, c', ReplaceResponse(if orderId in v.owner then orderId else 0, uid, Accepted), c);
  }

  lemma LoginAppends(v: Venue, c': ConnectionId, username: Username, password: string, c: ConnectionId)
    requires c' in v.desk.connections
    ensures Appends(v.desk, HandleLogin(v, c', username, password).desk, c)
  {
    hide Appends, Answer;
    SilentAnswer(v, v, c', LoginResponse(AlreadyAuthorized), c);
    SilentAnswer(v, v, c', LoginResponse(NotAuthorized), c);
    SilentAnswer(v, v, c', LoginResponse(SessionInUse), c);
    if username in v.desk.accounts {
      SilentAnswer(v, LogIn(v, c', username), c', LoginResponse(LoginAccepted), c);
    }
  }

  lemma RequestAppends(v: Venue, c': ConnectionId, request: Request, c: ConnectionId)
    requires c' in v.desk.connections
    ensures Appends(v.desk, HandleRequest(v, c', request).desk, c)
  {
    hide Appends, Answer, HandleLogin, HandleOrder, HandleReplace, CancelAll, Enumerates, Canceled, Send;
    AppendsNothing(v.desk, v.desk, c);
    if request.LoginRequest? {
      LoginAppends(v, c', request.username, request.password, c);
    } else if request.InvalidRequest? {
      SilentAnswer(v, LogOut(v, c'), c', LogoutResponse(ProtocolViolation), c);
    } else if v.desk.connections[c'].account.None? {
      SilentAnswer(v, v, c', Refusal(request), c);
    } else {
      var name := v.desk.connections[c'].account.value;
      match request
      case LogoutRequest => SilentAnswer(v, LogOut(v, c'), c', LogoutResponse(UserRequested), c);
      case OrderRequest(side, quantity, price) => OrderAppends(v, c', name, side, quantity, price, c);
      case CancelRequest(orderId) =>
        SilentAnswer(v, v, c', CancelResponse(orderId, Rejected), c);
        SilentAnswer(v, CancelOrder(v, orderId), c', CancelResponse(orderId, Accepted), c);
      case ReplaceRequest(orderId, side, quantity, price) =>
        ReplaceAppends(v, c', name, orderId, side, quantity, price, c);
      case PurgeRequest(picks) =>
        CancelAllSilent(v, picks);
        SilentAnswer(v, CancelAll(v, picks), c', PurgeResponse(Accepted), c);
    }
  }

  /** Once accepted, every step but the completion of a write to it only appends to a connection's queue. */
  lemma StepAppends(v: Venue, step: Step, c: ConnectionId)
    requires step != Written(c) && (step == Accept(c) ==> c in v.desk.connections)
    ensures Appends(v.desk, Next(v, step).desk, c)
  {
    hide Appends, HandleRequest, Complete, Send;
    if step.Receive? && step.c in v.desk.connections && v.desk.connections[step.c].open {
      RequestAppends(v, step.c, step.request, c);
    } else {
      AppendsNothing(v.desk, Next(v, step).desk, c);
    }
  }

  /** The connection's queue never holds more responses than its counter can tell from none. */
  predicate ResponsesBounded(v: Venue, steps: seq<Step>, c: ConnectionId)
    decreases |steps|
  {
    && (c in v.desk.connections ==> |v.desk.connections[c].outbox.queue| <= TWO_32)
    && (steps == [] || ResponsesBounded(Next(v, steps[0]), steps[1..], c))
  }

  ghost predicate QueueHealthy(d: Desk, c: ConnectionId) {
    c in d.connections ==> Healthy(d.connections[c].outbox, 0)
  }

  lemma GrewHealthy(o: Outbox<Response>, o': Outbox<Response>)
    requires Healthy(o, 0) && Grew(o, o') && |o'.queue| <= TWO_32
    ensures Healthy(o', 0)
  {
    hide Healthy, SendAll;
    var responses: seq<Response> :| o' == SendAll(o, responses);
    SendAllQueue(o, responses);
    SendAllKeepsHealthy(o, 0, responses);
  }

  lemma NextKeepsQueue(v: Venue, step: Step, c: ConnectionId)
    requires QueueHealthy(v.desk, c)
    requires c in v.desk.connections ==> |v.desk.connections[c].outbox.queue| <= TWO_32
    requires var d := Next(v, step).desk; c in d.connections ==> |d.connections[c].outbox.queue| <= TWO_32
    ensures QueueHealthy(Next(v, step).desk, c)
  {
    hide Healthy, HandleRequest, Complete, Send, Grew;
    if c !in v.desk.connections {
      if step == Accept(c) {
        NewQueue();
      } else if step != Written(c) {
        StepAppends(v, step, c);
      }
    } else if step == Written(c) {
      CompleteKeepsHealthy(v.desk.connections[c].outbox, 0);
    } else {
      StepAppends(v, step, c);
      GrewHealthy(v.desk.connections[c].outbox, Next(v, step).desk.connections[c].outbox);
    }
  }

  lemma NewQueue()
    ensures Healthy(NewOutbox<Response>(0), 0)
  {
  }

  lemma {:induction false} QueueStaysHealthy(v: Venue, steps: seq<Step>, c: ConnectionId)
    requires QueueHealthy(v.desk, c) && ResponsesBounded(v, steps, c)
    ensures QueueHealthy(Run(v, steps).desk, c)
    decreases |steps|
  {
    hide QueueHealthy, Next;
    if steps != [] {
      NextKeepsQueue(v, steps[0], c);
      QueueStaysHealthy(Next(v, steps[0]), steps[1..], c);
    }
  }

  /** In every run, for every connection: the responses on the wire are numbered without gaps, and
      a client that has handled them and then handles what is still queued shows nothing while
      logged out and only resting orders of its account while logged in. */
  lemma ClientCatchesUp(v: Venue, steps: seq<Step>, c: ConnectionId, init: ClientState)
    requires Initial(v) && Quiet(init) && ResponsesBounded(v, steps, c) && c in Run(v, steps).desk.connections
    ensures var w := Run(v, steps);
      var o := w.desk.connections[c].outbox;
      var s := Fold(Fold(init, Bodies(o.wire)), Bodies(o.queue));
      && Numbered(o.wire, 0) && s == Told(w.desk, c, init)
      && (w.desk.connections[c].open && LoggedIn(w.desk, c).None? ==> Quiet(s))
      && (LoggedIn(w.desk, c).Some? ==>
            s.isAuthorized && s.activeOrders <= w.desk.accounts[LoggedIn(w.desk, c).value].orders)
  {
    hide Run, Inv, Fold, Bodies, ResponsesBounded, LoggedIn;
    InitialInv(v);
    QueueStaysHealthy(v, steps, c);
    RunTracks(v, steps, c, init);
    DeliveredThenQueued(Run(v, steps).desk, c, init);
    var o := Run(v, steps).desk.connections[c].outbox;
    assert forall i | 0 <= i < |o.wire| :: o.wire[i] == o.enqueued[i];
  }

  /** The client shows the account's orders that are newer than the login, and the distances from the
      account are what they were atLogin. */
  predicate Caught(s: ClientState, a: Account, was: ClientState, atLogin: Account) {
    && s.isAuthorized && s.activeOrders == a.orders - atLogin.orders
    && Congruent(s.shares - a.shares, was.shares - atLogin.shares, TWO_32)
    && Congruent(s.capital - a.capital, was.capital - atLogin.capital, TWO_64)
  }

  /** After `before` the connection logs in to the account, and stays logged in through `after`. */
  ghost predicate Session(v: Venue, before: seq<Step>, c: ConnectionId, name: Username, password: string,
                          after: seq<Step>) {
    var u := Run(v, before);
    && c in u.desk.connections && u.desk.connections[c].open && u.desk.connections[c].account.None?
    && name in u.desk.accounts && u.desk.accounts[name].password == password && !u.desk.accounts[name].isConnected
    && StaysLoggedIn(Next(u, Receive(c, LoginRequest(name, password))), after, c)
  }

  /** In any run, from a login that succeeds and as long as the connection stays logged in: a client
      that has handled what it was sent and then handles what is still queued shows exactly the
      account's resting orders minus those that rested at login, and its shares and capital keep the
      distance from the account's that they had atLogin. */
  lemma SessionCatchesUp(v: Venue, before: seq<Step>, c: ConnectionId, name: Username, password: string,
                         after: seq<Step>, init: ClientState)
    requires Initial(v) && Quiet(init) && Session(v, before, c, name, password, after)
    requires ResponsesBounded(v, before + [Receive(c, LoginRequest(name, password))] + after, c)
    ensures
      var u := Run(v, before);
      var w := Run(v, before + [Receive(c, LoginRequest(name, password))] + after);
      && LoggedIn(w.desk, c).Some?
      && var a, o := w.desk.accounts[LoggedIn(w.desk, c).value], w.desk.connections[c].outbox;
         Caught(Fold(Fold(init, Bodies(o.wire)), Bodies(o.queue)), a, Told(u.desk, c, init), u.desk.accounts[name])
  {
    hide Run, Next, Inv, Fold, Bodies, ResponsesBounded, StaysLoggedIn, Congruent, Told, Healthy, Tracks;
    var u, login := Run(v, before), Receive(c, LoginRequest(name, password));
    InitialInv(v);
    RunKeepsInv(v, before);
    StartTracks(v, c, init);
    RunTracks(v, before, c, init);
    LoginSession(u, c, name, password, after, init);
    RunThrough(v, before, login, after);
    StartHealthy(v, c);
    QueueStaysHealthy(v, before + [login] + after, c);
    DeliveredThenQueued(Run(v, before + [login] + after).desk, c, init);
  }

  /** After `before` the connection's account is purged, and the connection stays logged in through
      `after`. */
  ghost predicate Purged(v: Venue, before: seq<Step>, c: ConnectionId, picks: seq<UID>, after: seq<Step>) {
    var u := Run(v, before);
    && LoggedIn(u.desk, c).Some? && u.desk.connections[c].open
    && Enumerates(picks, u.desk.accounts[LoggedIn(u.desk, c).value].orders)
    && StaysLoggedIn(Next(u, Receive(c, PurgeRequest(picks))), after, c)
  }

  /** In any run, from an accepted purge and as long as the connection stays logged in: such a client
      shows exactly the account's resting orders, and its shares and capital keep the distance from the
      account's that they had at the purge. */
  lemma PurgeCatchesUp(v: Venue, before: seq<Step>, c: ConnectionId, picks: seq<UID>, after: seq<Step>,
                       init: ClientState)
    requires Initial(v) && Quiet(init) && Purged(v, before, c, picks, after)
    requires ResponsesBounded(v, before + [Receive(c, PurgeRequest(picks))] + after, c)
    ensures
      var u := Run(v, before);
      var w := Run(v, before + [Receive(c, PurgeRequest(picks))] + after);
      && LoggedIn(w.desk, c).Some?
      && var a, o := w.desk.accounts[LoggedIn(w.desk, c).value], w.desk.connections[c].outbox;
         var s := Fold(Fold(init, Bodies(o.wire)), Bodies(o.queue));
         && s.activeOrders == a.orders
         && Caught(s, a, Told(u.desk, c, init), u.desk.accounts[LoggedIn(u.desk, c).value].(orders := {}))
  {
    hide Run, Next, Inv, Fold, Bodies, ResponsesBounded, StaysLoggedIn, Congruent, Told, Healthy, Tracks, Enumerates;
    var u, purge := Run(v, before), Receive(c, PurgeRequest(picks));
    InitialInv(v);
    RunKeepsInv(v, before);
    StartTracks(v, c, init);
    RunTracks(v, before, c, init);
    PurgeSession(u, c, picks, after, init);
    RunThrough(v, before, purge, after);
    StartHealthy(v, c);
    QueueStaysHealthy(v, before + [purge] + after, c);
    DeliveredThenQueued(Run(v, before + [purge] + after).desk, c, init);
  }

  lemma StartTracks(v: Venue, c: ConnectionId, init: ClientState)
    requires Initial(v)
    ensures Tracks(v.desk, c, init)
  {
  }

  lemma StartHealthy(v: Venue, c: ConnectionId)
    requires Initial(v)
    ensures QueueHealthy(v.desk, c)
  {
  }
}
