/**
 The exchange as a step system: one step is one handler call, write completion or console
 command. The book is the pair of price-time lists; the indexed engine is proved to implement
 these steps.
 */
module Venues {
  import opened MarketTypes
  import opened Sweeps
  import opened Books
  import opened Protocol
  import opened Outboxes
  import opened Desks

  /** `sequence` is the next order ID and `owner` the account of every resting order. */
  datatype Venue = Venue(
    book: Book, sequence: UID, owner: map<UID, Username>, desk: Desk,
    feed: Outbox<FeedMessage>, sessionActive: bool)

  function Published(v: Venue): seq<FeedMessage> {
    Bodies(v.feed.enqueued)
  }

  /** A venue opens with an empty book and no one connected; only the accounts are given. */
  predicate Initial(v: Venue) {
    && v.book == EMPTY && v.sequence == 1 && v.owner == map[] && v.feed == NewOutbox(1) && !v.sessionActive
    && v.desk.connections == map[]
    && forall a | a in v.desk.accounts ::
         v.desk.accounts[a].orders == {} && v.desk.accounts[a].handler.None? && !v.desk.accounts[a].isConnected
  }

  // ---------------------------------------------------------------------------
  // Orders
  // ---------------------------------------------------------------------------

  /** The effect of a sweep on everything but the book itself. */
  function Executed(v: Venue, taker: Username, side: Side, fills: seq<Fill>): Venue {
    v.(owner := v.owner - UsedUp(fills),
       desk := ApplyFills(v.desk, taker, side, v.owner, fills),
       feed := SendAll(v.feed, TradeMessages(fills, side)))
  }

  function PlaceLimit(v: Venue, taker: Username, side: Side, quantity: Quantity, price: Price): (Venue, UID) {
    var x := SubmitLimit(v.book, side, v.sequence, quantity, price);
    var swept := Executed(v, taker, side, x.fills).(book := x.book);
    if !x.rested then (swept, 0)
    else
      (swept.(sequence := v.sequence + 1,
              owner := swept.owner[v.sequence := taker],
              desk := Hold(swept.desk, taker, v.sequence),
              feed := Send(swept.feed, AddOrder(v.sequence, price, x.residual, side))), v.sequence)
  }

  function PlaceMarket(v: Venue, taker: Username, side: Side, quantity: Quantity): Venue {
    var x := SubmitMarket(v.book, side, quantity);
    Executed(v, taker, side, x.fills).(book := x.book)
  }

  function CancelOrder(v: Venue, uid: UID): Venue {
    v.(book := Canceled(v.book, uid),
       owner := v.owner - {uid},
       desk := Release(v.desk, OwnerOf(v.owner, uid), uid),
       feed := Send(v.feed, DeleteOrder(uid)))
  }

  function CancelAll(v: Venue, picks: seq<UID>): Venue {
    if picks == [] then v
    else CancelOrder(CancelAll(v, picks[..|picks| - 1]), picks[|picks| - 1])
  }

  // ---------------------------------------------------------------------------
  // Sessions
  // ---------------------------------------------------------------------------

  function Answer(v: Venue, c: ConnectionId, r: Response): Venue {
    v.(desk := Respond(v.desk, c, r))
  }

  function LogIn(v: Venue, c: ConnectionId, name: Username): Venue
    requires c in v.desk.connections && name in v.desk.accounts
  {
    v.(desk := Desk(
         v.desk.accounts[name := v.desk.accounts[name].(handler := Some(c), isConnected := true)],
         v.desk.connections[c := v.desk.connections[c].(account := Some(name))]))
  }

  function LogOut(v: Venue, c: ConnectionId): Venue
    requires c in v.desk.connections
  {
    var name := v.desk.connections[c].account;
    if name.None? || name.value !in v.desk.accounts then v
    else
      v.(desk := Desk(
           v.desk.accounts[name.value := v.desk.accounts[name.value].(handler := None, isConnected := false)],
           v.desk.connections[c := v.desk.connections[c].(account := None)]))
  }

  /** `picks` is one way to walk through the set. */
  predicate Enumerates(picks: seq<UID>, uids: set<UID>) {
    && (forall i | 0 <= i < |picks| :: picks[i] in uids)
    && (forall i, j | 0 <= i < j < |picks| :: picks[i] != picks[j])
    && forall u | u in uids :: u in picks
  }

  function HandleOrder(v: Venue, c: ConnectionId, name: Username, side: Side, quantity: Quantity, price: Price): Venue {
    if price == 0 then
      Answer(PlaceMarket(v, name, side, quantity), c, OrderResponse(0, Accepted))
    else
      var (placed, uid) := PlaceLimit(v, name, side, quantity, price);
      Answer(placed, c, OrderResponse(uid, Accepted))
  }

  function HandleCancel(v: Venue, c: ConnectionId, name: Username, orderId: UID): Venue {
    if orderId !in v.owner || v.owner[orderId] != name then
      Answer(v, c, CancelResponse(orderId, Rejected))
    else
      Answer(CancelOrder(v, orderId), c, CancelResponse(orderId, Accepted))
  }

  /** A replace of an order that is gone still places the new order. */
  function HandleReplace(v: Venue, c: ConnectionId, name: Username,
                         orderId: UID, side: Side, quantity: Quantity, price: Price): Venue {
    if orderId in v.owner && v.owner[orderId] != name then
      Answer(v, c, ReplaceResponse(orderId, 0, Rejected))
    else
      var freed := if orderId in v.owner then CancelOrder(v, orderId) else v;
      var (placed, uid) := PlaceLimit(freed, name, side, quantity, price);
      Answer(placed, c, ReplaceResponse(if orderId in v.owner then orderId else 0, uid, Accepted))
  }

  function HandleLogin(v: Venue, c: ConnectionId, username: Username, password: string): Venue
    requires c in v.desk.connections
  {
    if v.desk.connections[c].account.Some? then Answer(v, c, LoginResponse(AlreadyAuthorized))
    else if username !in v.desk.accounts || v.desk.accounts[username].password != password then
      Answer(v, c, LoginResponse(NotAuthorized))
    else if v.desk.accounts[username].isConnected then Answer(v, c, LoginResponse(SessionInUse))
    else Answer(LogIn(v, c, username), c, LoginResponse(LoginAccepted))
  }

  function Refusal(request: Request): Response
    requires !request.LoginRequest? && !request.InvalidRequest?
  {
    match request
    case LogoutRequest => LogoutResponse(ProtocolViolation)
    case OrderRequest(_, _, _) => OrderResponse(0, Rejected)
    case CancelRequest(orderId) => CancelResponse(orderId, Rejected)
    case ReplaceRequest(orderId, _, _, _) => ReplaceResponse(orderId, 0, Rejected)
    case PurgeRequest(_) => PurgeResponse(Rejected)
  }

  /** The request as the connection's handler for its type treats it. A purge whose `picks` do not
      enumerate the account's orders is no behaviour of the system and changes nothing. */
  function HandleRequest(v: Venue, c: ConnectionId, request: Request): Venue
    requires c in v.desk.connections
  {
    var account := v.desk.connections[c].account;
    if request.LoginRequest? then HandleLogin(v, c, request.username, request.password)
    else if request.InvalidRequest? then Answer(LogOut(v, c), c, LogoutResponse(ProtocolViolation))
    else if account.None? then Answer(v, c, Refusal(request))
    else
      match request
      case LogoutRequest => Answer(LogOut(v, c), c, LogoutResponse(UserRequested))
      case OrderRequest(side, quantity, price) => HandleOrder(v, c, account.value, side, quantity, price)
      case CancelRequest(orderId) => HandleCancel(v, c, account.value, orderId)
      case ReplaceRequest(orderId, side, quantity, price) =>
        HandleReplace(v, c, account.value, orderId, side, quantity, price)
      case PurgeRequest(picks) =>
        if account.value in v.desk.accounts && Enumerates(picks, v.desk.accounts[account.value].orders)
        then Answer(CancelAll(v, picks), c, PurgeResponse(Accepted))
        else v
  }

  // ---------------------------------------------------------------------------
  // Steps and runs
  // ---------------------------------------------------------------------------

  datatype Step =
    | Accept(c: ConnectionId)
    | Receive(c: ConnectionId, request: Request)
    | HangUp(c: ConnectionId)
    | Written(c: ConnectionId)
    | FeedWritten
    | Console(start: bool)

  /** One step; a step that names no live connection does nothing. */
  function Next(v: Venue, step: Step): Venue {
    match step
    case Accept(c) =>
      if c in v.desk.connections then v
      else v.(desk := v.desk.(connections := v.desk.connections[c := Connection(true, None, NewOutbox(0))]))
    case Receive(c, request) =>
      if c in v.desk.connections && v.desk.connections[c].open then HandleRequest(v, c, request) else v
    case HangUp(c) =>
      if c !in v.desk.connections then v
      else
        var out := LogOut(v, c);
        if c !in out.desk.connections then out
        else out.(desk := out.desk.(connections := out.desk.connections[c := out.desk.connections[c].(open := false)]))
    case Written(c) =>
      if c !in v.desk.connections then v
      else
        var connection := v.desk.connections[c];
        v.(desk := v.desk.(connections := v.desk.connections[c := connection.(outbox := Complete(connection.outbox))]))
    case FeedWritten => v.(feed := Complete(v.feed))
    case Console(start) =>
      if start == v.sessionActive then v
      else v.(sessionActive := start, feed := Send(v.feed, if start then StartOfSession else EndOfSession))
  }

  function Run(v: Venue, steps: seq<Step>): Venue
    decreases |steps|
  {
    if steps == [] then v else Run(Next(v, steps[0]), steps[1..])
  }

  lemma {:induction false} RunConcat(v: Venue, x: seq<Step>, y: seq<Step>)
    ensures Run(v, x + y) == Run(Run(v, x), y)
    decreases |x|
  {
    hide Next;
    if x == [] {
      assert x + y == y;
    } else {
      assert (x + y)[0] == x[0] && (x + y)[1..] == x[1..] + y;
      RunConcat(Next(v, x[0]), x[1..], y);
    }
  }

  lemma RunFirst(v: Venue, step: Step, steps: seq<Step>)
    ensures Run(v, [step] + steps) == Run(Next(v, step), steps)
  {
    hide Next;
    assert ([step] + steps)[1..] == steps;
  }

  lemma RunThrough(v: Venue, before: seq<Step>, step: Step, after: seq<Step>)
    ensures Run(v, before + [step] + after) == Run(Next(Run(v, before), step), after)
  {
    hide Run, Next;
    RunConcat(v, before, [step] + after);
    RunFirst(Run(v, before), step, after);
    assert before + [step] + after == before + ([step] + after);
  }

  /** A run that goes on for one more step. */
  lemma RunOne(v: Venue, steps: seq<Step>, step: Step)
    ensures Run(v, steps + [step]) == Next(Run(v, steps), step)
  {
    hide Next, Run;
    RunConcat(v, steps, [step]);
    RunFirst(Run(v, steps), step, []);
    assert [step] + [] == [step];
    RunNone(Next(Run(v, steps), step));
  }

  lemma RunNone(v: Venue)
    ensures Run(v, []) == v
  {
  }
}
