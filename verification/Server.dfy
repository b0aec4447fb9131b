/**
 The order-entry server: the handlers of connection requests, running on the indexed engine.
 Each one is a step of the venue, and the server knows the steps it has taken: it is always in a
 state that a run of the venue reaches, so everything proved about runs holds of it.
 */
module Servers {
  import opened MarketTypes
  import opened Books
  import opened Protocol
  import opened Outboxes
  import opened Desks
  import opened Registries
  import opened Venues
  import opened VenueInvariant
  import opened Trails
  import opened BookSides
  import opened Engine

  /** The run that takes these steps ends in v, and these are the books on the way. */
  ghost predicate Reached(start: Venue, history: seq<Step>, v: Venue, trail: seq<Book>) {
    v == Run(start, history) && trail == Trail(start, history)
  }

  lemma ReachedNext(start: Venue, history: seq<Step>, v: Venue, trail: seq<Book>, step: Step)
    requires Reached(start, history, v, trail)
    ensures Reached(start, history + [step], Next(v, step), trail + StepTrail(v, step))
  {
    hide Run, Trail, Next, StepTrail;
    RunOne(start, history, step);
    TrailOne(start, history, step);
  }

  lemma CancelAllOne(v: Venue, picks: seq<UID>, uid: UID)
    ensures CancelAll(v, picks + [uid]) == CancelOrder(CancelAll(v, picks), uid)
    ensures CancelAllTrail(v, picks + [uid]) == CancelAllTrail(v, picks) + [CancelAll(v, picks + [uid]).book]
  {
    assert (picks + [uid])[..|picks|] == picks;
  }

  class Server {
    const book: LimitOrderBook
    const registry: Registry
    var sessionActive: bool
    ghost const start: Venue
    ghost var history: seq<Step>

    ghost function Footprint(): set<object> {
      {book, book.sides.sells, book.sides.buys, book.sides.orders, book.feed, registry}
    }

    ghost function State(): Venue
      reads this, book, book.sides.sells, book.sides.buys, book.sides.orders, book.registry, book.feed
    {
      book.Snapshot(sessionActive)
    }

    /** The engine's indexes are in order and the venue's invariant holds. */
    ghost predicate Sound()
      reads this, book, book.sides.sells, book.sides.buys, book.sides.orders, book.registry, book.feed
    {
      book.registry == registry && book.Valid() && Inv(State())
    }

    /** The engine is in order, and the state and the books recorded on the way are those of
        the run of the venue that takes the steps of the history. */
    ghost predicate Ok()
      reads this, book, book.sides.sells, book.sides.buys, book.sides.orders, book.registry, book.feed
    {
      Sound() && Initial(start) && Reached(start, history, State(), book.trail)
    }

    constructor (passwords: map<Username, string>)
      ensures Ok() && history == [] && fresh(Footprint())
      ensures registry.connections == map[] && registry.accounts.Keys == passwords.Keys && !sessionActive
      ensures forall a | a in passwords :: registry.accounts[a] == Account(passwords[a], 0, 0, {}, None, false)
    {
      hide Inv, SidePair.Valid;
      var accounts := new Registry(passwords);
      var sender := new Sender<FeedMessage>();
      registry := accounts;
      book := new LimitOrderBook(accounts, sender);
      sessionActive, history := false, [];
      start := Venue(EMPTY, 1, map[], accounts.Contents(), sender.State(), false);
      new;
      assert Owners(map[]) == map[];
      InitialInv(State());
      RunNone(start);
    }

    /** Accept a new connection. */
    method Accept(c: ConnectionId)
      requires Ok()
      modifies this`history, registry
      ensures Ok() && State() == Next(old(State()), Step.Accept(c)) && history == old(history) + [Step.Accept(c)]
    {
      hide SidePair.Valid, Known, Inv, Reached, Initial;
      ghost var step := Step.Accept(c);
      NextKeepsInv(State(), step);
      ReachedQuietly(start, history, State(), book.trail, step);
      history := history + [step];
      if c !in registry.connections {
        registry.connections := registry.connections[c := Connection(true, None, NewOutbox(0))];
      }
    }

    method Login(c: ConnectionId, username: Username, password: string)
      requires Sound() && c in registry.connections
      modifies registry
      ensures book.registry == registry && book.Valid()
      ensures State() == HandleLogin(old(State()), c, username, password)
    {
      hide SidePair.Valid, Known, Inv, Send;
      if registry.connections[c].account.Some? {
        registry.Tell(c, LoginResponse(AlreadyAuthorized));
      } else if username !in registry.accounts || registry.accounts[username].password != password {
        registry.Tell(c, LoginResponse(NotAuthorized));
      } else if registry.accounts[username].isConnected {
        registry.Tell(c, LoginResponse(SessionInUse));
      } else {
        registry.connections := registry.connections[c := registry.connections[c].(account := Some(username))];
        var account := registry.accounts[username].(handler := Some(c), isConnected := true);
        registry.accounts := registry.accounts[username := account];
        assert registry.accounts.Keys == old(registry.accounts.Keys);
        registry.Tell(c, LoginResponse(LoginAccepted));
      }
    }

    method Logout(c: ConnectionId)
      requires book.registry == registry && book.Valid() && c in registry.connections
      modifies registry
      ensures book.registry == registry && book.Valid()
      ensures State() == LogOut(old(State()), c)
      ensures c in registry.connections
    {
      hide SidePair.Valid, Known;
      var account := registry.connections[c].account;
      if account.None? || account.value !in registry.accounts {
        return;
      }
      var left := registry.accounts[account.value].(handler := None, isConnected := false);
      registry.accounts := registry.accounts[account.value := left];
      assert registry.accounts.Keys == old(registry.accounts.Keys);
      registry.connections := registry.connections[c := registry.connections[c].(account := None)];
    }

    method Reply(c: ConnectionId, r: Response)
      requires book.registry == registry && book.Valid()
      modifies registry`connections
      ensures book.registry == registry && book.Valid()
      ensures State() == Answer(old(State()), c, r)
    {
      hide SidePair.Valid, Known, Send;
      registry.Tell(c, r);
    }

    method Order(c: ConnectionId, name: Username, side: Side, quantity: Quantity, price: Price)
      requires Sound() && name in registry.accounts
      modifies book, book.sides.sells, book.sides.buys, book.sides.orders, book.feed, registry
      ensures book.registry == registry && book.Valid()
      ensures State() == HandleOrder(old(State()), c, name, side, quantity, price)
      ensures book.trail == old(book.trail) + RequestTrail(old(State()), name, OrderRequest(side, quantity, price))
    {
      hide LimitOrderBook.Valid, Inv, PlaceLimit, PlaceMarket, Answer;
      if price == 0 {
        book.MarketOrder(name, side, quantity, sessionActive);
        Reply(c, OrderResponse(0, Accepted));
      } else {
        var uid := book.Limit(name, side, quantity, price, sessionActive);
        Reply(c, OrderResponse(uid, Accepted));
      }
    }

    method Cancel(c: ConnectionId, name: Username, orderId: UID)
      requires Sound()
      modifies book`trail, book.sides.sells, book.sides.buys, book.sides.orders, book.feed, registry
      ensures book.registry == registry && book.Valid()
      ensures State() == HandleCancel(old(State()), c, name, orderId)
      ensures book.trail == old(book.trail) + RequestTrail(old(State()), name, CancelRequest(orderId))
    {
      hide LimitOrderBook.Valid, Inv, CancelOrder, Answer, RequestTrail;
      StoredOwner(orderId);
      CancelTrail(State(), name, orderId, book.trail);
      if orderId !in book.sides.orders.at || book.sides.orders.at[orderId].account != Some(name) {
        Reply(c, CancelResponse(orderId, Rejected));
        return;
      }
      book.Cancel(orderId, sessionActive);
      Reply(c, CancelResponse(orderId, Accepted));
    }

    lemma StoredOwner(orderId: UID)
      requires book.Valid()
      ensures orderId in State().owner <==> orderId in book.sides.orders.at
      ensures orderId in book.sides.orders.at ==> book.sides.orders.at[orderId].account == Some(State().owner[orderId])
    {
      hide SidePair.Valid;
    }

    method Replace(c: ConnectionId, name: Username, orderId: UID, side: Side, quantity: Quantity, price: Price)
      requires Sound() && name in registry.accounts
      modifies book, book.sides.sells, book.sides.buys, book.sides.orders, book.feed, registry
      ensures book.registry == registry && book.Valid()
      ensures State() == HandleReplace(old(State()), c, name, orderId, side, quantity, price)
      ensures book.trail ==
              old(book.trail) + RequestTrail(old(State()), name, ReplaceRequest(orderId, side, quantity, price))
    {
      hide LimitOrderBook.Valid, Inv, PlaceLimit, CancelOrder, Answer, Owners, RequestTrail, LimitTrail;
      StoredOwner(orderId);
      ReplaceTrail(State(), name, orderId, side, quantity, price, book.trail);
      var canceled := 0;
      if orderId in book.sides.orders.at {
        if book.sides.orders.at[orderId].account != Some(name) {
          Reply(c, ReplaceResponse(orderId, 0, Rejected));
          return;
        }
        book.Cancel(orderId, sessionActive);
        canceled := orderId;
      }
      var uid := book.Limit(name, side, quantity, price, sessionActive);
      Reply(c, ReplaceResponse(canceled, uid, Accepted));
    }

    /** Cancel the account's orders one by one, in whatever order the set yields them. */
    method Purge(c: ConnectionId, name: Username) returns (ghost picks: seq<UID>)
      requires Sound() && name in registry.accounts
      modifies book`trail, book.sides.sells, book.sides.buys, book.sides.orders, book.feed, registry
      ensures book.registry == registry && book.Valid()
      ensures Enumerates(picks, old(registry.accounts)[name].orders)
      ensures State() == Answer(CancelAll(old(State()), picks), c, PurgeResponse(Accepted))
      ensures book.trail == old(book.trail) + CancelAllTrail(old(State()), picks)
    {
      hide LimitOrderBook.Valid, Inv, CancelAll, CancelOrder, Answer, Owners, CancelAllTrail, OwnerOf, Walked;
      ghost var v, all := State(), registry.accounts[name].orders;
      picks := [];
      CancelNone(v);
      NotWalked(all);
      while registry.accounts[name].orders != {}
        invariant book.registry == registry && book.Valid() && name in registry.accounts
        invariant State() == CancelAll(v, picks) && Inv(State())
        invariant book.trail == old(book.trail) + CancelAllTrail(v, picks)
        invariant Walked(picks, all, registry.accounts[name].orders)
        decreases registry.accounts[name].orders
      {
        var uid :| uid in registry.accounts[name].orders;
        HeldIsStored(name);
        StoredOwner(uid);
        CancelAllOne(v, picks, uid);
        CancelOrderKeepsInv(State(), uid);
        ReleasedOne(State(), name, uid);
        WalkedOn(picks, all, registry.accounts[name].orders, uid);
        book.Cancel(uid, sessionActive);
        picks := picks + [uid];
      }
      Reply(c, PurgeResponse(Accepted));
      AllPicked(picks, all);
    }

    /** The account's set lists stored orders of its own. */
    lemma HeldIsStored(name: Username)
      requires Sound() && name in registry.accounts
      ensures forall u | u in registry.accounts[name].orders ::
        u in book.sides.orders.at && u in State().owner && State().owner[u] == name
    {
      hide SidePair.Valid, BookOk, SessionsOk, Orderly;
      forall u | u in registry.accounts[name].orders
        ensures u in book.sides.orders.at && u in State().owner && State().owner[u] == name
      {
        assert u in State().desk.accounts[name].orders;
      }
    }

    /** Handle one request, by its type. A purge is reported with the order in which it walked the
        orders. */
    method Dispatch(c: ConnectionId, request: Request) returns (ghost handled: Request)
      requires Sound() && c in registry.connections && registry.connections[c].open
      modifies book, book.sides.sells, book.sides.buys, book.sides.orders, book.feed, registry
      ensures book.registry == registry && book.Valid()
      ensures State() == HandleRequest(old(State()), c, handled)
      ensures book.trail == old(book.trail) + StepTrail(old(State()), Step.Receive(c, handled))
      ensures handled == request || (handled.PurgeRequest? && request.PurgeRequest?)
      ensures handled.PurgeRequest? && old(registry.connections)[c].account.Some? ==>
        && old(registry.connections)[c].account.value in old(registry.accounts)
        && Enumerates(handled.picks, old(registry.accounts)[old(registry.connections)[c].account.value].orders)
    {
      hide LimitOrderBook.Valid, Inv, Answer, CancelAll, Enumerates, HandleLogin, HandleOrder, HandleCancel,
        HandleReplace, LogOut, RequestTrail, StepTrail;
      ghost var v := State();
      handled := request;
      var account := registry.connections[c].account;
      if account.Some? {
        AccountExists(v, c);
      }
      TrailOfRequest(v, c, request, book.trail);
      if request.LoginRequest? {
        Login(c, request.username, request.password);
      } else if request.InvalidRequest? {
        Logout(c);
        Reply(c, LogoutResponse(ProtocolViolation));
      } else if account.None? {
        Reply(c, Refusal(request));
        if request.PurgeRequest? { TrailOfRequest(v, c, handled, book.trail); }
      } else {
        match request {
          case LogoutRequest =>
            Logout(c);
            Reply(c, LogoutResponse(UserRequested));
          case OrderRequest(side, quantity, price) =>
            Order(c, account.value, side, quantity, price);
          case CancelRequest(orderId) =>
            Cancel(c, account.value, orderId);
          case ReplaceRequest(orderId, side, quantity, price) =>
            Replace(c, account.value, orderId, side, quantity, price);
          case PurgeRequest(_) =>
            ghost var picks := Purge(c, account.value);
            handled := PurgeRequest(picks);
            TrailOfRequest(v, c, handled, book.trail);
        }
      }
    }

    /** Every request of a live connection, whatever its type and sender, is a step of the venue. */
    method Receive(c: ConnectionId, request: Request) returns (ghost handled: Request)
      requires Ok() && c in registry.connections && registry.connections[c].open
      modifies this`history, book, book.sides.sells, book.sides.buys, book.sides.orders, book.feed, registry
      ensures Ok() && history == old(history) + [Step.Receive(c, handled)]
      ensures State() == Next(old(State()), Step.Receive(c, handled))
      ensures handled == request || (handled.PurgeRequest? && request.PurgeRequest?)
      ensures handled.PurgeRequest? && old(registry.connections)[c].account.Some? ==>
        && old(registry.connections)[c].account.value in old(registry.accounts)
        && Enumerates(handled.picks, old(registry.accounts)[old(registry.connections)[c].account.value].orders)
    {
      hide LimitOrderBook.Valid, Inv, Enumerates, HandleRequest, StepTrail, Reached, Initial;
      ghost var v, trail := State(), book.trail;
      handled := Dispatch(c, request);
      HandleRequestKeepsInv(v, c, handled);
      ReachedNext(start, history, v, trail, Step.Receive(c, handled));
      history := history + [Step.Receive(c, handled)];
    }

    /** The peer closed the connection. */
    method HangUp(c: ConnectionId)
      requires Ok() && c in registry.connections
      modifies this`history, registry
      ensures Ok() && State() == Next(old(State()), Step.HangUp(c)) && history == old(history) + [Step.HangUp(c)]
    {
      hide SidePair.Valid, Known, Inv, Reached, Initial, LogOut;
      ghost var step := Step.HangUp(c);
      NextKeepsInv(State(), step);
      ReachedQuietly(start, history, State(), book.trail, step);
      history := history + [step];
      Logout(c);
      registry.connections := registry.connections[c := registry.connections[c].(open := false)];
    }

    /** A write to a connection has completed. */
    method Written(c: ConnectionId)
      requires Ok() && c in registry.connections
      modifies this`history, registry
      ensures Ok() && State() == Next(old(State()), Step.Written(c)) && history == old(history) + [Step.Written(c)]
    {
      hide SidePair.Valid, Known, Inv, Reached, Initial, Complete;
      ghost var step := Step.Written(c);
      NextKeepsInv(State(), step);
      ReachedQuietly(start, history, State(), book.trail, step);
      history := history + [step];
      registry.Completed(c);
    }

    /** The transmission of a feed message has completed. */
    method FeedWritten()
      requires Ok() && book.feed.inFlight != [] && book.feed.outputBuffer != []
      modifies this`history, book.feed
      ensures Ok() && State() == Next(old(State()), Step.FeedWritten) && history == old(history) + [Step.FeedWritten]
    {
      hide SidePair.Valid, Known, Inv, Reached, Initial, Complete;
      ghost var step := Step.FeedWritten;
      NextKeepsInv(State(), step);
      ReachedQuietly(start, history, State(), book.trail, step);
      history := history + [step];
      book.feed.Completed();
    }

    /** The operator opens or closes the trading session. */
    method Console(open: bool)
      requires Ok()
      modifies this`sessionActive, this`history, book`trail, book.feed
      ensures Ok() && State() == Next(old(State()), Step.Console(open))
      ensures history == old(history) + [Step.Console(open)]
    {
      hide SidePair.Valid, Known, Inv, Reached, Initial, Send;
      ghost var step := Step.Console(open);
      NextKeepsInv(State(), step);
      ReachedNext(start, history, State(), book.trail, step);
      history := history + [step];
      if open == sessionActive {
        assert book.trail + [] == book.trail;
        return;
      }
      book.feed.Post(if open then StartOfSession else EndOfSession);
      book.trail := book.trail + [book.sides.Lists()];
      sessionActive := open;
    }
  }

  /** A step that publishes nothing. */
  lemma ReachedQuietly(start: Venue, history: seq<Step>, v: Venue, trail: seq<Book>, step: Step)
    requires Reached(start, history, v, trail) && (step.Accept? || step.HangUp? || step.Written? || step.FeedWritten?)
    ensures Reached(start, history + [step], Next(v, step), trail)
  {
    hide Next, Reached;
    ReachedNext(start, history, v, trail, step);
    assert trail + [] == trail;
  }

  /** The books of a live connection's request. */
  lemma TrailOfRequest(v: Venue, c: ConnectionId, request: Request, trail: seq<Book>)
    requires c in v.desk.connections && v.desk.connections[c].open
    ensures var account := v.desk.connections[c].account;
      && StepTrail(v, Step.Receive(c, request)) ==
           (if account.Some? then RequestTrail(v, account.value, request) else [])
      && (account.None? || request.LoginRequest? || request.InvalidRequest? || request.LogoutRequest? ==>
            trail + StepTrail(v, Step.Receive(c, request)) == trail)
      && (request.PurgeRequest? && account.Some? && account.value in v.desk.accounts
          && Enumerates(request.picks, v.desk.accounts[account.value].orders) ==>
            StepTrail(v, Step.Receive(c, request)) == CancelAllTrail(v, request.picks))
  {
    hide SweepTrail, LimitTrail, CancelAllTrail, Canceled;
  }

  lemma CancelTrail(v: Venue, name: Username, orderId: UID, trail: seq<Book>)
    ensures trail + RequestTrail(v, name, CancelRequest(orderId)) ==
            if orderId in v.owner && v.owner[orderId] == name then trail + [CancelOrder(v, orderId).book] else trail
  {
    hide Canceled, Send, Release;
  }

  lemma ReplaceTrail(v: Venue, name: Username, orderId: UID, side: Side, quantity: Quantity, price: Price,
                     trail: seq<Book>)
    ensures
      var freed := CancelOrder(v, orderId);
      trail + RequestTrail(v, name, ReplaceRequest(orderId, side, quantity, price)) ==
        if orderId !in v.owner then trail + LimitTrail(v.book, side, v.sequence, quantity, price)
        else if v.owner[orderId] != name then trail
        else (trail + [freed.book]) + LimitTrail(freed.book, side, freed.sequence, quantity, price)
  {
    hide Canceled, Send, Release, LimitTrail;
  }

  lemma CancelNone(v: Venue)
    ensures CancelAll(v, []) == v && CancelAllTrail(v, []) == []
  {
  }

  /** The picks are distinct elements of the set, and the rest of it is left. */
  predicate Walked(picks: seq<UID>, all: set<UID>, left: set<UID>) {
    && (forall i | 0 <= i < |picks| :: picks[i] in all)
    && (forall i, j | 0 <= i < j < |picks| :: picks[i] != picks[j])
    && left == all - Members(picks)
  }

  lemma NotWalked(all: set<UID>)
    ensures Walked([], all, all)
  {
  }

  lemma WalkedOn(picks: seq<UID>, all: set<UID>, left: set<UID>, uid: UID)
    requires Walked(picks, all, left) && uid in left
    ensures Walked(picks + [uid], all, left - {uid})
  {
    assert Members(picks + [uid]) == Members(picks) + {uid};
  }

  lemma ReleasedOne(v: Venue, name: Username, uid: UID)
    requires uid in v.owner && v.owner[uid] == name && name in v.desk.accounts
    ensures var w := CancelOrder(v, uid);
      && name in w.desk.accounts && w.desk.accounts[name].orders == v.desk.accounts[name].orders - {uid}
  {
  }

  lemma AllPicked(picks: seq<UID>, all: set<UID>)
    requires Walked(picks, all, {})
    ensures Enumerates(picks, all)
  {
    forall u | u in all
      ensures u in picks
    {
      assert u !in all - Members(picks);
    }
  }
}
