/**
 End to end: the server's indexed book, the packets its feed transmitted and the receiver's
 indexed book. Equal lists leave no freedom in the indexes, so both hold the same levels, queues,
 totals and best prices.
 */
module Replication {
  import opened MarketTypes
  import opened PriceTime
  import opened SearchTree
  import opened LimitIndex
  import opened LimitTrees
  import opened BookSides
  import opened Books
  import opened Protocol
  import opened Outboxes
  import opened Clients
  import opened Venues
  import opened VenueInvariant
  import opened Trails
  import opened FeedTheorems
  import opened Commands
  import opened Engine
  import opened Servers
  import opened Replica
  import opened Mirror
  import opened SessionMirror
  import opened Delivery

  /** Same limits (count, volume and both ends of each queue), same prices in the tree, same best
      price and totals. Only the shape of the tree may differ. */
  predicate SameIndexes(x: Index, y: Index) {
    && x.limits == y.limits && Keys(x.root) == Keys(y.root)
    && x.best == y.best && x.count == y.count && x.volume == y.volume
  }

  /** The listed orders are stored in both with the same data and the same queue links. */
  predicate SameOrders(s: seq<Entry>, at: Store, at': Store) {
    forall i | 0 <= i < |s| ::
      && s[i].uid in at && s[i].uid in at'
      && at'[s[i].uid] == at[s[i].uid].(account := at'[s[i].uid].account)
  }

  lemma SameLinks(side: Side, s: seq<Entry>, x: Index, at: Store, y: Index, at': Store, i: nat)
    requires IndexOk(side, s, x, at) && IndexOk(side, s, y, at') && i < |s|
    ensures s[i].uid in at && s[i].uid in at'
    ensures at'[s[i].uid] == at[s[i].uid].(account := at'[s[i].uid].account)
  {
    hide Sorted, Distinct, IsBst, Prices, Volume;
    ListedPrice(s, i);
    var q, k := AtPrice(s, s[i].price), Place(s, i);
    assert LimitOk(x.limits[s[i].price], q, at) && LimitOk(y.limits[s[i].price], q, at');
    assert LinkedAt(q, at, k) && LinkedAt(q, at', k);
    assert Shows(at[s[i].uid], side, s[i]) && Shows(at'[s[i].uid], side, s[i]);
  }

  lemma ListedPrice(s: seq<Entry>, i: nat)
    requires i < |s|
    ensures s[i].price in Prices(s)
  {
  }

  lemma SameLimits(side: Side, s: seq<Entry>, x: Index, at: Store, y: Index, at': Store)
    requires IndexOk(side, s, x, at) && IndexOk(side, s, y, at')
    ensures x.limits == y.limits
  {
    hide Sorted, Distinct, Stored, IsBst, Prices, Volume, Linked;
    forall p | p in x.limits
      ensures p in y.limits && x.limits[p] == y.limits[p]
    {
      assert LimitOk(x.limits[p], AtPrice(s, p), at) && LimitOk(y.limits[p], AtPrice(s, p), at');
    }
  }

  /** The list determines every index and every link. */
  lemma ListDeterminesIndexes(side: Side, s: seq<Entry>, x: Index, at: Store, y: Index, at': Store)
    requires IndexOk(side, s, x, at) && IndexOk(side, s, y, at')
    ensures SameIndexes(x, y) && SameOrders(s, at, at')
  {
    hide Sorted, Distinct, Stored, LevelsOk, IsBst;
    SameLimits(side, s, x, at, y, at');
    forall i | 0 <= i < |s|
      ensures s[i].uid in at && s[i].uid in at'
      ensures at'[s[i].uid] == at[s[i].uid].(account := at'[s[i].uid].account)
    {
      SameLinks(side, s, x, at, y, at', i);
    }
  }

  ghost predicate SameTrees(a: SidePair, b: SidePair)
    reads a.sells, a.buys, a.orders, b.sells, b.buys, b.orders
  {
    && SameIndexes(a.sells.Indexes(), b.sells.Indexes()) && SameOrders(a.sells.contents, a.orders.at, b.orders.at)
    && SameIndexes(a.buys.Indexes(), b.buys.Indexes()) && SameOrders(a.buys.contents, a.orders.at, b.orders.at)
  }

  lemma BooksAgree(a: SidePair, b: SidePair)
    requires a.Valid() && b.Valid() && a.Lists() == b.Lists()
    ensures SameTrees(a, b)
  {
    hide IndexOk, SameIndexes, SameOrders, Uids;
    ListDeterminesIndexes(Sell, a.sells.contents, a.sells.Indexes(), a.orders.at, b.sells.Indexes(), b.orders.at);
    ListDeterminesIndexes(Buy, a.buys.contents, a.buys.Indexes(), a.orders.at, b.buys.Indexes(), b.orders.at);
  }

  /** A receiver that starts empty and reads what a server has transmitted, at any time in its life,
      warns about nothing, refuses nothing, and holds the book the server held right after it
      published the last of these messages. Once nothing is queued any more, that is the server's book,
      index by index. */
  method CatchUp(server: Server, receiver: Receiver, packets: seq<Packet<FeedMessage>>) returns (quiet: bool)
    requires server.Ok() && FeedBounded(server.start, server.history) && packets == server.book.feed.wire
    requires receiver.Valid() && receiver.Lists() == EMPTY && receiver.lastSequence == 0
    requires {receiver.book.sides.sells, receiver.book.sides.buys} !! {server.book.sides.sells, server.book.sides.buys}
    requires receiver.book.sides.orders != server.book.sides.orders
    modifies receiver, receiver.book, receiver.book.sides.sells, receiver.book.sides.buys, receiver.book.sides.orders
    ensures quiet && receiver.Valid()
    ensures |packets| <= |server.book.trail|
    ensures receiver.Lists() == if packets == [] then EMPTY else server.book.trail[|packets| - 1]
    ensures receiver.isSessionActive == SessionAfterAll(old(receiver.isSessionActive), Bodies(packets))
    ensures server.book.feed.outputBuffer == [] && !old(receiver.isSessionActive) ==>
      receiver.isSessionActive == server.sessionActive
    ensures server.book.feed.outputBuffer == [] ==>
      receiver.Lists() == server.State().book && SameTrees(server.book.sides, receiver.book.sides)
  {
    hide SidePair.Valid, Known, Inv, Run, Trail, FeedBounded, Replay, Bodies, Numbered, SameTrees, SessionAfterAll;
    FeedDelivers(server.start, server.history);
    quiet := receiver.ReadAll(packets);
    if server.book.feed.outputBuffer == [] {
      NoMoreMessages(receiver.isSessionActive, server.book.feed.outputBuffer);
      BooksAgree(server.book.sides, receiver.book.sides);
    }
  }

  lemma NoMoreMessages(active: bool, packets: seq<Packet<FeedMessage>>)
    requires packets == []
    ensures SessionAfterAll(active, Bodies(packets)) == active
  {
  }

  // ---------------------------------------------------------------------------
  // Commands instead of messages
  // ---------------------------------------------------------------------------

  /** Run commands on a data-feed book, with its own matching. */
  method RunCommands(book: DataFeedBook, commands: seq<Command>)
    requires book.Valid() && Runnable(book.sides.Lists(), commands)
    modifies book, book.sides.sells, book.sides.buys, book.sides.orders
    ensures book.Valid() && book.sides.Lists() == PerformAll(old(book.sides.Lists()), commands)
  {
    hide DataFeedBook.Valid, Perform, Allowed, PerformAll, Runnable;
    var n := 0;
    assert commands[0..] == commands;
    while n < |commands|
      invariant n <= |commands| && book.Valid()
      invariant Runnable(book.sides.Lists(), commands[n..])
      invariant PerformAll(book.sides.Lists(), commands[n..]) == PerformAll(old(book.sides.Lists()), commands)
    {
      NextCommand(book.sides.Lists(), commands[n..]);
      assert commands[n..][0] == commands[n] && commands[n..][1..] == commands[n + 1..];
      RunCommand(book, commands[n]);
      n := n + 1;
    }
    assert commands[n..] == [];
    PerformNone(book.sides.Lists());
  }

  method RunCommand(book: DataFeedBook, command: Command)
    requires book.Valid() && Allowed(book.sides.Lists(), command)
    modifies book, book.sides.sells, book.sides.buys, book.sides.orders
    ensures book.Valid() && book.sides.Lists() == Perform(old(book.sides.Lists()), command)
  {
    hide SidePair.Valid, Uids, Match, Insert, SubmitLimit, SubmitMarket, Canceled;
    match command {
      case LimitOrder(side, uid, quantity, price) => book.Limit(side, uid, quantity, price);
      case MarketOrder(side, quantity) => book.MarketOrder(side, quantity);
      case CancelOrder(uid) => book.Cancel(uid);
    }
  }

  /** A new data-feed book that runs a server's original commands. */
  method ByCommands(server: Server, commands: seq<Command>) returns (book: DataFeedBook)
    requires server.Ok() && commands == AllCommands(server.start, server.history)
    ensures book.Valid() && book.sides.Lists() == server.State().book
    ensures fresh(book) && fresh(book.sides.sells) && fresh(book.sides.buys) && fresh(book.sides.orders)
  {
    hide SidePair.Valid, LimitOrderBook.Valid, DataFeedBook.Valid, Inv, Run, Trail, Runnable, PerformAll, AllCommands;
    InitialInv(server.start);
    RunMakes(server.start, server.history);
    book := new DataFeedBook();
    RunCommands(book, commands);
  }

  /** A new receiver that reads everything a server has published. */
  method ByMessages(server: Server, packets: seq<Packet<FeedMessage>>) returns (receiver: Receiver)
    requires server.Ok() && Numbered(packets, 1) && Bodies(packets) == Published(server.State())
    ensures receiver.Valid() && receiver.Lists() == server.State().book
    ensures receiver.isSessionActive == server.sessionActive
    ensures fresh(receiver) && fresh(receiver.book) && fresh(receiver.book.sides.sells)
    ensures fresh(receiver.book.sides.buys) && fresh(receiver.book.sides.orders)
  {
    hide SidePair.Valid, LimitOrderBook.Valid, DataFeedBook.Valid, Inv, Run, Trail, Replay, Bodies, Numbered, Published,
      SessionAfterAll;
    ReplicaAgrees(server.start, server.history);
    receiver := new Receiver();
    var quiet := receiver.ReadAll(packets);
  }

  /** The diagram commutes. In every run of a server, a data-feed book that runs the server's original
      commands with its own matching loop and a receiver that reads the server's messages end with the
      same book, index by index: the server's. */
  method CommandsOrMessages(server: Server, commands: seq<Command>, packets: seq<Packet<FeedMessage>>)
      returns (book: DataFeedBook, receiver: Receiver)
    requires server.Ok() && commands == AllCommands(server.start, server.history)
    requires Numbered(packets, 1) && Bodies(packets) == Published(server.State())
    ensures book.Valid() && receiver.Valid()
    ensures book.sides.Lists() == receiver.Lists() == server.State().book
    ensures receiver.isSessionActive == server.sessionActive
    ensures SameTrees(book.sides, receiver.book.sides) && SameTrees(server.book.sides, book.sides)
  {
    hide SidePair.Valid, Inv, Run, Trail, AllCommands, Bodies, Numbered, SameTrees, Published, Known;
    book := ByCommands(server, commands);
    receiver := ByMessages(server, packets);
    BooksAgree(book.sides, receiver.book.sides);
    BooksAgree(server.book.sides, book.sides);
  }

  // ---------------------------------------------------------------------------
  // The client
  // ---------------------------------------------------------------------------

  /** A client that starts with nothing and handles what a server has sent it, and then what the server
      still has queued for it, catches up with its account. */
  method ClientReads(server: Server, client: Client, c: ConnectionId, sent: seq<Response>, queued: seq<Response>,
                     ghost before: seq<Step>, ghost name: Username, ghost password: string, ghost after: seq<Step>)
    requires server.Ok() && server.history == before + [Step.Receive(c, LoginRequest(name, password))] + after
    requires Session(server.start, before, c, name, password, after)
    requires ResponsesBounded(server.start, server.history, c)
    requires c in server.registry.connections
    requires sent == Bodies(server.registry.connections[c].outbox.wire)
    requires queued == Bodies(server.registry.connections[c].outbox.queue)
    requires Quiet(client.State())
    modifies client
    ensures var d, u := server.State().desk, Run(server.start, before);
      && LoggedIn(d, c).Some? && c in u.desk.connections && name in u.desk.accounts
      && Caught(client.State(), d.accounts[LoggedIn(d, c).value],
                Told(u.desk, c, old(client.State())), u.desk.accounts[name])
  {
    hide Inv, Run, Trail, Session, ResponsesBounded, Fold, Bodies, Caught, LimitOrderBook.Valid, Told;
    SessionCatchesUp(server.start, before, c, name, password, after, client.State());
    SessionBegins(server.start, before, c, name, password, after);
    client.ReceiveAll(sent);
    client.ReceiveAll(queued);
  }

  lemma SessionBegins(v: Venue, before: seq<Step>, c: ConnectionId, name: Username, password: string, after: seq<Step>)
    requires Session(v, before, c, name, password, after)
    ensures c in Run(v, before).desk.connections && name in Run(v, before).desk.accounts
  {
    hide Run, StaysLoggedIn;
  }
}
