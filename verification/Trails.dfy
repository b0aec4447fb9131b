/**
 The messages every step posts, and the books the server holds right after each one of them: the
 k-th book of a sweep is the one after its k-th execution, the k-th of a purge the one after its
 k-th cancellation. Replaying the messages one by one goes through exactly these books.
 */
module Trails {
  import opened MarketTypes
  import opened PriceTime
  import opened Sweeps
  import opened Books
  import opened Outboxes
  import opened Desks
  import opened Protocol
  import opened Venues
  import opened VenueInvariant

  // ---------------------------------------------------------------------------
  // One submission
  // ---------------------------------------------------------------------------

  /** The book after each execution of a sweep. */
  function SweepTrail(b: Book, side: Side, price: Price, quantity: Quantity): (books: seq<Book>)
    ensures |books| == |Swept(b, side, price, quantity).fills|
  {
    var o := side.Opposite();
    var fills := Swept(b, side, price, quantity).fills;
    SweepShape(o, b.Of(o), price, quantity);
    seq(|fills|, i requires 0 <= i < |fills| => b.With(o, After(b.Of(o), fills, i + 1)))
  }

  lemma SweepTrailAt(b: Book, side: Side, price: Price, quantity: Quantity, k: nat)
    requires k < |Swept(b, side, price, quantity).fills|
    ensures var s, fills := b.Of(side.Opposite()), Swept(b, side, price, quantity).fills;
      && Follows(s, fills) && k + 1 <= |s|
      && SweepTrail(b, side, price, quantity)[k] == b.With(side.Opposite(), After(s, fills, k + 1))
  {
    hide Match, After;
    SweepShape(side.Opposite(), b.Of(side.Opposite()), price, quantity);
  }

  function LimitTrail(b: Book, side: Side, uid: UID, quantity: Quantity, price: Price): seq<Book> {
    var x := SubmitLimit(b, side, uid, quantity, price);
    (if Crosses(b, side, price) then SweepTrail(b, side, price, quantity) else []) + if x.rested then [x.book] else []
  }

  function LimitMessages(b: Book, side: Side, uid: UID, quantity: Quantity, price: Price): seq<FeedMessage> {
    Messages(SubmitLimit(b, side, uid, quantity, price), side, uid, price)
  }

  function MarketMessages(b: Book, side: Side, quantity: Quantity): seq<FeedMessage> {
    TradeMessages(SubmitMarket(b, side, quantity).fills, side)
  }

  // ---------------------------------------------------------------------------
  // One step, and a run
  // ---------------------------------------------------------------------------

  /** The account a live connection acts for. */
  function Acting(v: Venue, c: ConnectionId): Option<Username> {
    if c in v.desk.connections && v.desk.connections[c].open then v.desk.connections[c].account else None
  }

  function Deletions(picks: seq<UID>): seq<FeedMessage> {
    seq(|picks|, i requires 0 <= i < |picks| => DeleteOrder(picks[i]))
  }

  function CancelAllTrail(v: Venue, picks: seq<UID>): seq<Book> {
    if picks == [] then [] else CancelAllTrail(v, picks[..|picks| - 1]) + [CancelAll(v, picks).book]
  }

  function RequestMessages(v: Venue, name: Username, request: Request): seq<FeedMessage> {
    match request
    case OrderRequest(side, quantity, price) =>
      if price == 0 then MarketMessages(v.book, side, quantity)
      else LimitMessages(v.book, side, v.sequence, quantity, price)
    case CancelRequest(orderId) =>
      if orderId in v.owner && v.owner[orderId] == name then [DeleteOrder(orderId)] else []
    case ReplaceRequest(orderId, side, quantity, price) =>
      if orderId !in v.owner then LimitMessages(v.book, side, v.sequence, quantity, price)
      else if v.owner[orderId] != name then []
      else [DeleteOrder(orderId)] + LimitMessages(Canceled(v.book, orderId), side, v.sequence, quantity, price)
    case PurgeRequest(picks) =>
      if name in v.desk.accounts && Enumerates(picks, v.desk.accounts[name].orders) then Deletions(picks) else []
    case _ => []
  }

  function RequestTrail(v: Venue, name: Username, request: Request): seq<Book> {
    match request
    case OrderRequest(side, quantity, price) =>
      if price == 0 then SweepTrail(v.book, side, 0, quantity)
      else LimitTrail(v.book, side, v.sequence, quantity, price)
    case CancelRequest(orderId) =>
      if orderId in v.owner && v.owner[orderId] == name then [Canceled(v.book, orderId)] else []
    case ReplaceRequest(orderId, side, quantity, price) =>
      if orderId !in v.owner then LimitTrail(v.book, side, v.sequence, quantity, price)
      else if v.owner[orderId] != name then []
      else
        var freed := Canceled(v.book, orderId);
        [freed] + LimitTrail(freed, side, v.sequence, quantity, price)
    case PurgeRequest(picks) =>
      if name in v.desk.accounts && Enumerates(picks, v.desk.accounts[name].orders)
      then CancelAllTrail(v, picks) else []
    case _ => []
  }

  /** What a step puts on the feed. */
  function Posted(v: Venue, step: Step): seq<FeedMessage> {
    match step
    case Receive(c, request) =>
      if Acting(v, c).Some? then RequestMessages(v, Acting(v, c).value, request) else []
    case Console(start) =>
      if start == v.sessionActive then [] else [if start then StartOfSession else EndOfSession]
    case _ => []
  }

  /** The book right after each message of a step. */
  function StepTrail(v: Venue, step: Step): seq<Book> {
    match step
    case Receive(c, request) =>
      if Acting(v, c).Some? then RequestTrail(v, Acting(v, c).value, request) else []
    case Console(start) =>
      if start == v.sessionActive then [] else [v.book]
    case _ => []
  }

  function PostedBy(v: Venue, steps: seq<Step>): seq<FeedMessage>
    decreases |steps|
  {
    if steps == [] then [] else Posted(v, steps[0]) + PostedBy(Next(v, steps[0]), steps[1..])
  }

  function Trail(v: Venue, steps: seq<Step>): seq<Book>
    decreases |steps|
  {
    if steps == [] then [] else StepTrail(v, steps[0]) + Trail(Next(v, steps[0]), steps[1..])
  }

  lemma {:induction false} TrailConcat(v: Venue, x: seq<Step>, y: seq<Step>)
    ensures Trail(v, x + y) == Trail(v, x) + Trail(Run(v, x), y)
    decreases |x|
  {
    hide Next, StepTrail;
    if x == [] {
      assert x + y == y;
    } else {
      assert (x + y)[0] == x[0] && (x + y)[1..] == x[1..] + y;
      TrailConcat(Next(v, x[0]), x[1..], y);
    }
  }

  /** A run that goes on for one more step. */
  lemma TrailOne(v: Venue, steps: seq<Step>, step: Step)
    ensures Trail(v, steps + [step]) == Trail(v, steps) + StepTrail(Run(v, steps), step)
  {
    hide Next, StepTrail, Run;
    TrailConcat(v, steps, [step]);
    var w := Run(v, steps);
    assert Trail(w, [step]) == StepTrail(w, step) + Trail(Next(w, step), [step][1..]);
  }

  // ---------------------------------------------------------------------------
  // What is posted reaches the sender
  // ---------------------------------------------------------------------------

  lemma SendOne(o: Outbox<FeedMessage>, m: FeedMessage)
    ensures SendAll(o, [m]) == Send(o, m)
  {
    SendAllOne(o, [], m);
    assert [] + [m] == [m];
  }

  lemma {:induction false} CancelAllPosts(v: Venue, picks: seq<UID>)
    ensures CancelAll(v, picks).feed == SendAll(v.feed, Deletions(picks))
  {
    hide Canceled, Send, Release;
    if picks != [] {
      var n := |picks| - 1;
      CancelAllPosts(v, picks[..n]);
      SendAllOne(v.feed, Deletions(picks[..n]), DeleteOrder(picks[n]));
      assert Deletions(picks) == Deletions(picks[..n]) + [DeleteOrder(picks[n])];
    }
  }

  lemma PlaceLimitPosts(v: Venue, name: Username, side: Side, quantity: Quantity, price: Price)
    ensures PlaceLimit(v, name, side, quantity, price).0.feed ==
            SendAll(v.feed, LimitMessages(v.book, side, v.sequence, quantity, price))
  {
    hide SubmitLimit, ApplyFills, SendAll, Send, UsedUp, TradeMessages;
    var x := SubmitLimit(v.book, side, v.sequence, quantity, price);
    var trades := TradeMessages(x.fills, side);
    if x.rested {
      SendAllOne(v.feed, trades, AddOrder(v.sequence, price, x.residual, side));
    } else {
      assert trades + [] == trades;
    }
  }

  lemma ReplacePosts(v: Venue, name: Username, orderId: UID, side: Side, quantity: Quantity, price: Price)
    ensures PlaceLimit(CancelOrder(v, orderId), name, side, quantity, price).0.feed ==
      SendAll(v.feed,
              [DeleteOrder(orderId)] + LimitMessages(Canceled(v.book, orderId), side, v.sequence, quantity, price))
  {
    hide PlaceLimit, Canceled, SendAll, Send, Release, LimitMessages;
    var more := LimitMessages(Canceled(v.book, orderId), side, v.sequence, quantity, price);
    PlaceLimitPosts(CancelOrder(v, orderId), name, side, quantity, price);
    SendOne(v.feed, DeleteOrder(orderId));
    SendAllConcat(v.feed, [DeleteOrder(orderId)], more);
  }

  /** Every step but a completion appends to the feed's queue what it posts, and nothing else. */
  lemma StepPosts(v: Venue, step: Step)
    ensures Next(v, step).feed == if step.FeedWritten? then Complete(v.feed) else SendAll(v.feed, Posted(v, step))
  {
    hide SubmitMarket, PlaceLimit, LimitMessages, Canceled, CancelAll, ApplyFills, UsedUp, Enumerates, Complete, Send,
      TradeMessages, Deletions, Release;
    match step
    case Receive(c, request) =>
      if Acting(v, c).Some? {
        match request
        case OrderRequest(side, quantity, price) =>
          PlaceLimitPosts(v, Acting(v, c).value, side, quantity, price);
        case CancelRequest(orderId) =>
          SendOne(v.feed, DeleteOrder(orderId));
        case ReplaceRequest(orderId, side, quantity, price) =>
          PlaceLimitPosts(v, Acting(v, c).value, side, quantity, price);
          ReplacePosts(v, Acting(v, c).value, orderId, side, quantity, price);
        case PurgeRequest(picks) =>
          CancelAllPosts(v, picks);
        case _ =>
      }
    case Console(start) =>
      SendOne(v.feed, if start then StartOfSession else EndOfSession);
    case _ =>
  }

  lemma StepPublishes(v: Venue, step: Step)
    ensures Published(Next(v, step)) == Published(v) + Posted(v, step)
  {
    hide Next, Posted, SendAll, Bodies;
    StepPosts(v, step);
    if step.FeedWritten? {
      NothingPosted(v);
      assert Published(v) + [] == Published(v);
    } else {
      SendAllEnqueues(v.feed, Posted(v, step));
    }
  }

  lemma NothingPosted(v: Venue)
    ensures Posted(v, FeedWritten) == [] && Complete(v.feed).enqueued == v.feed.enqueued
  {
  }

  lemma {:induction false} RunPublishes(v: Venue, steps: seq<Step>)
    ensures Published(Run(v, steps)) == Published(v) + PostedBy(v, steps)
    decreases |steps|
  {
    hide Next, Posted, Published;
    if steps != [] {
      StepPublishes(v, steps[0]);
      RunPublishes(Next(v, steps[0]), steps[1..]);
    }
  }

  // ---------------------------------------------------------------------------
  // Retracing the books from the messages
  // ---------------------------------------------------------------------------

  /** The k-th book is what the messages up to the k-th make of b. */
  predicate Retraced(b: Book, messages: seq<FeedMessage>, books: seq<Book>) {
    && |books| == |messages|
    && forall k | 0 <= k < |books| :: Replay(b, messages[..k + 1]) == Some(books[k])
  }

  lemma RetracedConcat(
      b: Book, messages: seq<FeedMessage>, books: seq<Book>, b': Book, messages': seq<FeedMessage>, books': seq<Book>)
    requires Retraced(b, messages, books) && Replay(b, messages) == Some(b') && Retraced(b', messages', books')
    ensures Retraced(b, messages + messages', books + books')
  {
    hide Replay;
    var all := messages + messages';
    forall k | 0 <= k < |books + books'|
      ensures Replay(b, all[..k + 1]) == Some((books + books')[k])
    {
      if k < |books| {
        assert all[..k + 1] == messages[..k + 1];
      } else {
        var j := k - |books|;
        ReplayConcat(b, messages, messages'[..j + 1]);
        assert all[..k + 1] == messages + messages'[..j + 1];
      }
    }
  }

  lemma RetracedNone(b: Book)
    ensures Retraced(b, [], []) && Replay(b, []) == Some(b)
  {
  }

  lemma RetracedOne(b: Book, m: FeedMessage)
    requires Clean(b, m)
    ensures Retraced(b, [m], [Apply(b, m)]) && Replay(b, [m]) == Some(Apply(b, m))
  {
    hide Clean, Apply;
    ReplayOne(b, [], b, m);
    assert [] + [m] == [m] && [m][..1] == [m];
  }

  lemma SweepRetraced(b: Book, next: UID, side: Side, price: Price, quantity: Quantity)
    requires BookOk(b, next)
    ensures Retraced(b, TradeMessages(Swept(b, side, price, quantity).fills, side),
                     SweepTrail(b, side, price, quantity))
  {
    hide SideOk, After, Replay, Match, Follows;
    var o := side.Opposite();
    var fills := Swept(b, side, price, quantity).fills;
    SweepShape(o, b.Of(o), price, quantity);
    forall k | 0 <= k < |fills|
      ensures Replay(b, TradeMessages(fills, side)[..k + 1]) == Some(SweepTrail(b, side, price, quantity)[k])
    {
      SweepReplay(b, side, fills, k + 1);
    }
  }

  lemma LimitRetraced(b: Book, next: UID, side: Side, quantity: Quantity, price: Price)
    requires BookOk(b, next) && next > 0
    ensures Retraced(b, LimitMessages(b, side, next, quantity, price), LimitTrail(b, side, next, quantity, price))
    ensures Replay(b, LimitMessages(b, side, next, quantity, price)) ==
            Some(SubmitLimit(b, side, next, quantity, price).book)
  {
    hide BookOk, Replay, Insert, Match, SweepTrail;
    var x := SubmitLimit(b, side, next, quantity, price);
    var messages, books := LimitMessages(b, side, next, quantity, price), LimitTrail(b, side, next, quantity, price);
    LimitReplay(b, next, side, quantity, price);
    SweepRetraced(b, next, side, price, quantity);
    assert Messages(x, side, next, price) == messages;
    forall k | 0 <= k < |books|
      ensures Replay(b, messages[..k + 1]) == Some(books[k])
    {
      if k < |x.fills| {
        assert messages[..k + 1] == TradeMessages(x.fills, side)[..k + 1];
      } else {
        assert messages[..k + 1] == messages;
      }
    }
  }

  lemma CancelRetraced(b: Book, uid: UID)
    requires uid in b.AllUids()
    ensures Retraced(b, [DeleteOrder(uid)], [Canceled(b, uid)])
    ensures Replay(b, [DeleteOrder(uid)]) == Some(Canceled(b, uid))
  {
    hide Canceled;
    RetracedOne(b, DeleteOrder(uid));
  }

  lemma {:induction false} CancelAllRetraced(v: Venue, picks: seq<UID>)
    requires Inv(v)
    requires forall i | 0 <= i < |picks| :: picks[i] in v.owner
    requires forall i, j | 0 <= i < j < |picks| :: picks[i] != picks[j]
    ensures Retraced(v.book, Deletions(picks), CancelAllTrail(v, picks))
    ensures Replay(v.book, Deletions(picks)) == Some(CancelAll(v, picks).book)
  {
    hide Replay, Inv, Canceled, Retraced, Send, Release;
    RetracedNone(v.book);
    if picks == [] {
      assert Deletions(picks) == [] && CancelAllTrail(v, picks) == [];
    } else {
      var n := |picks| - 1;
      var w := CancelAll(v, picks[..n]);
      CancelAllRetraced(v, picks[..n]);
      LastPickRests(v, picks);
      CancelRetraced(w.book, picks[n]);
      RetracedConcat(v.book, Deletions(picks[..n]), CancelAllTrail(v, picks[..n]), w.book,
                     [DeleteOrder(picks[n])], [Canceled(w.book, picks[n])]);
      assert Deletions(picks) == Deletions(picks[..n]) + [DeleteOrder(picks[n])];
      CancelAllLast(v, picks);
      ReplayConcat(v.book, Deletions(picks[..n]), [DeleteOrder(picks[n])]);
    }
  }

  lemma CancelAllLast(v: Venue, picks: seq<UID>)
    requires picks != []
    ensures var n := |picks| - 1;
      CancelAll(v, picks).book == Canceled(CancelAll(v, picks[..n]).book, picks[n])
  {
    hide Canceled, Release, Send;
  }

  lemma ReplaceRetraced(v: Venue, orderId: UID, side: Side, quantity: Quantity, price: Price)
    requires Inv(v) && orderId in v.owner
    ensures var freed := Canceled(v.book, orderId);
      var messages := [DeleteOrder(orderId)] + LimitMessages(freed, side, v.sequence, quantity, price);
      && Retraced(v.book, messages, [freed] + LimitTrail(freed, side, v.sequence, quantity, price))
      && Replay(v.book, messages) == Some(SubmitLimit(freed, side, v.sequence, quantity, price).book)
  {
    hide Replay, BookOk, SessionsOk, HoldingsOk, Orderly, Canceled, Retraced, SubmitLimit, LimitMessages, LimitTrail;
    var freed := Canceled(v.book, orderId);
    var more := LimitMessages(freed, side, v.sequence, quantity, price);
    CancelKeepsBook(v.book, v.sequence, orderId);
    CancelRetraced(v.book, orderId);
    LimitRetraced(freed, v.sequence, side, quantity, price);
    RetracedConcat(v.book, [DeleteOrder(orderId)], [freed], freed, more,
                   LimitTrail(freed, side, v.sequence, quantity, price));
    ReplayConcat(v.book, [DeleteOrder(orderId)], more);
  }

  lemma MarketRetraced(b: Book, next: UID, side: Side, quantity: Quantity)
    requires BookOk(b, next)
    ensures Retraced(b, MarketMessages(b, side, quantity), SweepTrail(b, side, 0, quantity))
    ensures Replay(b, MarketMessages(b, side, quantity)) == Some(SubmitMarket(b, side, quantity).book)
  {
    hide BookOk, Replay, Match, Retraced, SweepTrail;
    SweepRetraced(b, next, side, 0, quantity);
    MarketReplay(b, next, side, quantity);
  }

  lemma RequestRetraced(v: Venue, c: ConnectionId, request: Request)
    requires Inv(v) && Acting(v, c).Some?
    ensures var name := Acting(v, c).value;
      && Retraced(v.book, RequestMessages(v, name, request), RequestTrail(v, name, request))
      && Replay(v.book, RequestMessages(v, name, request)) == Some(HandleRequest(v, c, request).book)
  {
    hide Replay, BookOk, SessionsOk, HoldingsOk, Orderly, Canceled, Retraced, SubmitLimit, SubmitMarket, LimitMessages,
      LimitTrail, MarketMessages, SweepTrail, CancelAll, Enumerates, ApplyFills, SendAll, Send, UsedUp, Respond,
      CancelAllTrail, Deletions;
    RetracedNone(v.book);
    var name := Acting(v, c).value;
    match request
    case OrderRequest(side, quantity, price) =>
      MarketRetraced(v.book, v.sequence, side, quantity);
      LimitRetraced(v.book, v.sequence, side, quantity, price);
    case CancelRequest(orderId) =>
      if orderId in v.owner {
        CancelRetraced(v.book, orderId);
      }
    case ReplaceRequest(orderId, side, quantity, price) =>
      LimitRetraced(v.book, v.sequence, side, quantity, price);
      if orderId in v.owner {
        ReplaceRetraced(v, orderId, side, quantity, price);
      }
    case PurgeRequest(picks) =>
      if name in v.desk.accounts && Enumerates(picks, v.desk.accounts[name].orders) {
        EnumerationOwned(v, name, picks);
        CancelAllRetraced(v, picks);
      }
    case _ =>
  }

  lemma StepRetraced(v: Venue, step: Step)
    requires Inv(v)
    ensures Retraced(v.book, Posted(v, step), StepTrail(v, step))
    ensures Replay(v.book, Posted(v, step)) == Some(Next(v, step).book)
  {
    hide Inv, Replay, Retraced, RequestMessages, RequestTrail, Send, Complete;
    RetracedNone(v.book);
    match step
    case Receive(c, request) =>
      if Acting(v, c).Some? {
        RequestRetraced(v, c, request);
      } else {
        Outsider(v, c, request);
      }
    case Console(start) =>
      RetracedOne(v.book, if start then StartOfSession else EndOfSession);
    case _ =>
  }

  lemma Outsider(v: Venue, c: ConnectionId, request: Request)
    requires Acting(v, c).None?
    ensures Next(v, Receive(c, request)).book == v.book
  {
    hide Send;
  }

  /** Replaying a run's messages one by one goes through the very books the server held. */
  lemma {:induction false} RunRetraced(v: Venue, steps: seq<Step>)
    requires Inv(v)
    ensures Retraced(v.book, PostedBy(v, steps), Trail(v, steps))
    ensures Replay(v.book, PostedBy(v, steps)) == Some(Run(v, steps).book)
    decreases |steps|
  {
    hide Inv, Replay, Retraced, Next, Posted, StepTrail;
    RetracedNone(v.book);
    if steps != [] {
      var v', rest := Next(v, steps[0]), steps[1..];
      NextKeepsInv(v, steps[0]);
      StepRetraced(v, steps[0]);
      RunRetraced(v', rest);
      RetracedConcat(v.book, Posted(v, steps[0]), StepTrail(v, steps[0]), v'.book, PostedBy(v', rest), Trail(v', rest));
      ReplayConcat(v.book, Posted(v, steps[0]), PostedBy(v', rest));
    }
  }

  /** The last book of a run's trail is the book the server holds. */
  lemma TrailEnds(v: Venue, steps: seq<Step>)
    requires Inv(v)
    ensures Run(v, steps).book == if Trail(v, steps) == [] then v.book else Trail(v, steps)[|Trail(v, steps)| - 1]
  {
    hide Inv, Replay, Trail, PostedBy, Run;
    RunRetraced(v, steps);
    RetracedNone(v.book);
    assert PostedBy(v, steps)[..|PostedBy(v, steps)|] == PostedBy(v, steps);
  }

  // ---------------------------------------------------------------------------
  // The trading session
  // ---------------------------------------------------------------------------

  lemma {:induction false} SessionConcat(active: bool, x: seq<FeedMessage>, y: seq<FeedMessage>)
    ensures SessionAfterAll(active, x + y) == SessionAfterAll(SessionAfterAll(active, x), y)
    decreases |x|
  {
    hide SessionAfter;
    if x == [] {
      assert x + y == y;
    } else {
      assert (x + y)[0] == x[0] && (x + y)[1..] == x[1..] + y;
      SessionConcat(SessionAfter(active, x[0]), x[1..], y);
    }
  }

  lemma {:induction false} SessionUntouched(active: bool, messages: seq<FeedMessage>)
    requires OrdersOnly(messages)
    ensures SessionAfterAll(active, messages) == active
    decreases |messages|
  {
    if messages != [] {
      SessionUntouched(active, messages[1..]);
    }
  }

  /** Requests leave the session alone; the console publishes what it does to it. */
  lemma StepSession(v: Venue, step: Step)
    ensures SessionAfterAll(v.sessionActive, Posted(v, step)) == Next(v, step).sessionActive
  {
    if step.Console? {
      hide Send;
      var messages := Posted(v, step);
      assert messages != [] ==> messages[1..] == [];
    } else {
      OnlyOrders(v, step);
      SessionUntouched(v.sessionActive, Posted(v, step));
    }
  }

  predicate OrdersOnly(messages: seq<FeedMessage>) {
    forall i | 0 <= i < |messages| :: !messages[i].StartOfSession? && !messages[i].EndOfSession?
  }

  lemma OnlyOrders(v: Venue, step: Step)
    requires !step.Console?
    ensures OrdersOnly(Posted(v, step)) && Next(v, step).sessionActive == v.sessionActive
  {
    hide RequestMessages, HandleRequest, OrdersOnly, Complete;
    NothingOnlyOrders();
    if step.Receive? && step.c in v.desk.connections {
      RequestKeepsSession(v, step.c, step.request);
      if Acting(v, step.c).Some? {
        RequestOnlyOrders(v, Acting(v, step.c).value, step.request);
      }
    }
  }

  lemma NothingOnlyOrders()
    ensures OrdersOnly([])
  {
  }

  lemma LimitOnlyOrders(b: Book, side: Side, uid: UID, quantity: Quantity, price: Price)
    ensures OrdersOnly(LimitMessages(b, side, uid, quantity, price))
  {
    hide SubmitLimit;
  }

  lemma RequestOnlyOrders(v: Venue, name: Username, request: Request)
    ensures OrdersOnly(RequestMessages(v, name, request))
  {
    hide LimitMessages, SubmitMarket, Canceled, Enumerates;
    match request
    case OrderRequest(side, quantity, price) =>
      LimitOnlyOrders(v.book, side, v.sequence, quantity, price);
    case ReplaceRequest(orderId, side, quantity, price) =>
      LimitOnlyOrders(v.book, side, v.sequence, quantity, price);
      LimitOnlyOrders(Canceled(v.book, orderId), side, v.sequence, quantity, price);
    case _ =>
  }

  lemma RequestKeepsSession(v: Venue, c: ConnectionId, request: Request)
    requires c in v.desk.connections
    ensures HandleRequest(v, c, request).sessionActive == v.sessionActive
  {
    hide SubmitLimit, SubmitMarket, Canceled, CancelAll, ApplyFills, SendAll, Send, UsedUp, Respond, Release, Hold,
      Enumerates;
    if request.PurgeRequest? {
      CancelAllSession(v, request.picks);
    }
  }

  lemma {:induction false} CancelAllSession(v: Venue, picks: seq<UID>)
    ensures CancelAll(v, picks).sessionActive == v.sessionActive
  {
    hide Canceled, Send, Release;
    if picks != [] {
      CancelAllSession(v, picks[..|picks| - 1]);
    }
  }

  /** In every run the published messages tell whether the trading session is open. */
  lemma {:induction false} RunSession(v: Venue, steps: seq<Step>)
    ensures SessionAfterAll(v.sessionActive, PostedBy(v, steps)) == Run(v, steps).sessionActive
    decreases |steps|
  {
    hide Next, Posted, SessionAfter;
    if steps != [] {
      var v', rest := Next(v, steps[0]), steps[1..];
      StepSession(v, steps[0]);
      RunSession(v', rest);
      SessionConcat(v.sessionActive, Posted(v, steps[0]), PostedBy(v', rest));
    }
  }
}
