/**
 The order-entry limit order book with all its indexes, accounts and feed, updated in place.
 Every operation does to the book, the accounts and the feed exactly what the step system says.
 */
module Engine {
  import opened MarketTypes
  import opened PriceTime
  import opened SearchTree
  import opened LimitIndex
  import opened LimitTrees
  import opened BookSides
  import opened Sweeps
  import opened Books
  import opened Outboxes
  import opened Desks
  import opened Registries
  import opened Venues
  import opened Trails

  /** The account behind every stored order. */
  function Owners(at: Store): map<UID, Username> {
    map u | u in at && at[u].account.Some? :: at[u].account.value
  }

  lemma StoreStepOwners(at: Store, at': Store, touched: set<UID>, gone: set<UID>)
    requires StoreStep(at, at', touched, gone)
    ensures Owners(at') == Owners(at) - gone
  {
  }

  /** Every stored order belongs to an existing account. */
  predicate Known(at: Store, names: set<Username>) {
    forall u | u in at :: at[u].account.Some? && at[u].account.value in names
  }

  lemma KnownAfter(at: Store, at': Store, touched: set<UID>, gone: set<UID>, names: set<Username>)
    requires StoreStep(at, at', touched, gone) && Known(at, names)
    ensures Known(at', names)
  {
  }

  lemma KnownAt(at: Store, names: set<Username>, uid: UID)
    requires Known(at, names) && uid in at
    ensures at[uid].account.Some? && at[uid].account.value in names
    ensures OwnerOf(Owners(at), uid) == at[uid].account.value
  {
  }

  /** One execution with the front order of a side, on every structure it touches. */
  ghost predicate Hit(taker: Side, account: Username, remaining: Quantity, s: seq<Entry>, s': seq<Entry>, at: Store,
                      at': Store, d: Desk, d': Desk, o: Outbox<FeedMessage>, o': Outbox<FeedMessage>) {
    && s != []
    && var f := HeadFill(s[0], remaining);
       && s' == (if s[0].quantity <= remaining then s[1..] else s[0 := s[0].(quantity := f.makerLeaves)])
       && Uids(s') <= Uids(s)
       && d' == ApplyFill(d, account, taker, OwnerOf(Owners(at), f.uid), f)
       && o' == Send(o, Trade(f.uid, f.price, f.quantity, taker))
       && StoreStep(at, at', Uids(s), if f.makerLeaves == 0 then {f.uid} else {})
  }

  /** After k executions of a sweep of b that used up what they hit, the book is `now` and every
      book since has been recorded behind `was`. */
  ghost predicate Recorded(b: Book, taker: Side, price: Price, quantity: Quantity, k: nat, now: Book,
                           was: seq<Book>, trail: seq<Book>) {
    var s, books := b.Of(taker.Opposite()), SweepTrail(b, taker, price, quantity);
    && k <= |s| && k <= |books|
    && now == b.With(taker.Opposite(), s[k..])
    && trail == was + books[..k]
  }

  lemma RecordStart(b: Book, taker: Side, price: Price, quantity: Quantity, was: seq<Book>)
    ensures Recorded(b, taker, price, quantity, 0, b, was, was)
  {
    hide SweepTrail;
    assert b.Of(taker.Opposite())[0..] == b.Of(taker.Opposite());
    assert was + SweepTrail(b, taker, price, quantity)[..0] == was;
  }

  lemma RecordEnd(b: Book, taker: Side, price: Price, quantity: Quantity, k: nat, now: Book,
                  was: seq<Book>, trail: seq<Book>)
    requires Recorded(b, taker, price, quantity, k, now, was, trail)
    requires k == |Swept(b, taker, price, quantity).fills|
    ensures trail == was + SweepTrail(b, taker, price, quantity)
  {
    hide SweepTrail, Match;
    assert SweepTrail(b, taker, price, quantity)[..k] == SweepTrail(b, taker, price, quantity);
  }

  /** One more execution leaves the next book of the sweep. */
  lemma RecordNext(b: Book, taker: Side, price: Price, quantity: Quantity, k: nat, now: Book, remaining: Quantity,
                   was: seq<Book>, trail: seq<Book>, next: Book)
    requires Recorded(b, taker, price, quantity, k, now, was, trail)
    requires var s, fills := now.Of(taker.Opposite()), Swept(b, taker, price, quantity).fills;
      && s != [] && k < |fills| && fills[k] == HeadFill(s[0], remaining)
      && next == now.With(taker.Opposite(), if s[0].quantity <= remaining then s[1..]
                                            else s[0 := s[0].(quantity := fills[k].makerLeaves)])
    ensures next == b.With(taker.Opposite(), next.Of(taker.Opposite()))
    ensures now.Of(taker.Opposite())[0].quantity < remaining ==>
              Recorded(b, taker, price, quantity, k + 1, next, was, trail + [next])
    ensures k + 1 == |Swept(b, taker, price, quantity).fills| ==>
              trail + [next] == was + SweepTrail(b, taker, price, quantity)
  {
    hide Match, SweepTrail, HeadFill, Book.Of, Book.With;
    var s, books := b.Of(taker.Opposite()), SweepTrail(b, taker, price, quantity);
    SideReplaced(b, taker.Opposite(), s[k..]);
    CutFront(s, k, Swept(b, taker, price, quantity).fills[k].makerLeaves);
    NextBook(b, taker, price, quantity, k, remaining);
    assert books[k] == next;
    NextPrefix(books, k);
    assert was + (books[..k] + [next]) == (was + books[..k]) + [next];
  }

  lemma NextPrefix(books: seq<Book>, k: nat)
    requires k < |books|
    ensures books[..k + 1] == books[..k] + [books[k]]
    ensures k + 1 == |books| ==> books[..k + 1] == books
  {
  }

  lemma SideReplaced(b: Book, side: Side, s: seq<Entry>)
    ensures forall t :: b.With(side, t).Of(side) == t
    ensures forall t :: b.With(side, s).With(side, t) == b.With(side, t)
  {
  }

  lemma NextBook(b: Book, taker: Side, price: Price, quantity: Quantity, k: nat, remaining: Quantity)
    requires var s, fills := b.Of(taker.Opposite()), Swept(b, taker, price, quantity).fills;
      k < |s| && k < |fills| && fills[k] == HeadFill(s[k], remaining)
    ensures var s, f := b.Of(taker.Opposite()), HeadFill(b.Of(taker.Opposite())[k], remaining);
      SweepTrail(b, taker, price, quantity)[k] ==
        b.With(taker.Opposite(), if s[k].quantity <= remaining then s[k + 1..]
                                 else [s[k].(quantity := f.makerLeaves)] + s[k + 1..])
  {
    hide Match, After, Follows, SweepTrail, Reduce, Book.Of, Book.With;
    var s, fills := b.Of(taker.Opposite()), Swept(b, taker, price, quantity).fills;
    SweepTrailAt(b, taker, price, quantity, k);
    AfterFront(s, fills, k);
    ReduceFront(s[k..], fills[k].quantity);
    CutFront(s, k, fills[k].makerLeaves);
  }

  lemma CutFront(s: seq<Entry>, k: nat, left: Quantity)
    requires k < |s|
    ensures s[k..][0] == s[k] && s[k..][1..] == s[k + 1..]
    ensures s[k..][0 := s[k].(quantity := left)] == [s[k].(quantity := left)] + s[k..][1..]
  {
  }

  /** Everything a sweep changes. */
  datatype Picture = Picture(book: Book, at: Store, desk: Desk, feed: Outbox<FeedMessage>, trail: seq<Book>)

  /** p came from the start by the executions `done`, and the rest of the sweep is still to come. */
  ghost predicate Progress(start: Picture, p: Picture, taker: Side, account: Username, price: Price, quantity: Quantity,
                           done: seq<Fill>, residual: Quantity) {
    var side := taker.Opposite();
    var m, r := Swept(start.book, taker, price, quantity), Swept(p.book, taker, price, residual);
    && m.fills == done + r.fills && m.rest == r.rest && m.residual == r.residual
    && Executions(start, p, taker, account, done)
    && Uids(p.book.Of(side)) <= Uids(start.book.Of(side))
    && Recorded(start.book, taker, price, quantity, |done|, p.book, start.trail, p.trail)
  }

  /** What the executions did to the order map, the accounts and the feed. */
  ghost predicate Executions(start: Picture, p: Picture, taker: Side, account: Username, fills: seq<Fill>) {
    && p.desk == ApplyFills(start.desk, account, taker, Owners(start.at), fills)
    && p.feed == SendAll(start.feed, TradeMessages(fills, taker))
    && StoreStep(start.at, p.at, Uids(start.book.Of(taker.Opposite())), UsedUp(fills))
  }

  /** p is what the whole sweep makes of the start. */
  ghost predicate Done(start: Picture, p: Picture, taker: Side, account: Username, price: Price, quantity: Quantity,
                       residual: Quantity) {
    var m := Swept(start.book, taker, price, quantity);
    && p.book == start.book.With(taker.Opposite(), m.rest) && residual == m.residual
    && Executions(start, p, taker, account, m.fills)
    && p.trail == start.trail + SweepTrail(start.book, taker, price, quantity)
  }

  lemma ProgressStart(start: Picture, taker: Side, account: Username, price: Price, quantity: Quantity)
    ensures Progress(start, start, taker, account, price, quantity, [], quantity)
  {
    hide Match, Recorded;
    RecordStart(start.book, taker, price, quantity, start.trail);
    assert [] + Swept(start.book, taker, price, quantity).fills == Swept(start.book, taker, price, quantity).fills;
  }

  lemma ProgressEnd(start: Picture, p: Picture, taker: Side, account: Username, price: Price, quantity: Quantity,
                    done: seq<Fill>, residual: Quantity)
    requires Progress(start, p, taker, account, price, quantity, done, residual)
    requires var s := p.book.Of(taker.Opposite()); s == [] || !CanMatch(taker.Opposite(), s[0].price, price)
    ensures Done(start, p, taker, account, price, quantity, residual)
  {
    hide Match, Executions, SweepTrail;
    MatchStop(taker.Opposite(), p.book.Of(taker.Opposite()), price, residual);
    assert done + [] == done;
    RecordEnd(start.book, taker, price, quantity, |done|, p.book, start.trail, p.trail);
  }

  ghost predicate HitBetween(p: Picture, p': Picture, taker: Side, account: Username, remaining: Quantity) {
    var side := taker.Opposite();
    && Hit(taker, account, remaining, p.book.Of(side), p'.book.Of(side), p.at, p'.at, p.desk, p'.desk, p.feed, p'.feed)
    && p'.book == p.book.With(side, p'.book.Of(side))
    && p'.trail == p.trail + [p'.book]
  }

  lemma HitShortens(p: Picture, p': Picture, taker: Side, account: Username, remaining: Quantity)
    requires HitBetween(p, p', taker, account, remaining)
    requires p.book.Of(taker.Opposite()) != [] && p.book.Of(taker.Opposite())[0].quantity < remaining
    ensures |p'.book.Of(taker.Opposite())| < |p.book.Of(taker.Opposite())|
  {
  }

  lemma ExecutionsNext(start: Picture, p: Picture, p': Picture, taker: Side, account: Username, done: seq<Fill>,
                       remaining: Quantity)
    requires Executions(start, p, taker, account, done) && HitBetween(p, p', taker, account, remaining)
    requires Uids(p.book.Of(taker.Opposite())) <= Uids(start.book.Of(taker.Opposite()))
    requires var s := p.book.Of(taker.Opposite()); s != [] && s[0].uid in p.at && p.at[s[0].uid].account.Some?
    ensures Executions(start, p', taker, account, done + [HeadFill(p.book.Of(taker.Opposite())[0], remaining)])
  {
    hide ApplyFills, ApplyFill, SendAll, Send, UsedUp, StoreStep, TradeMessages, Uids, Owners, OwnerOf;
    var s := p.book.Of(taker.Opposite());
    var f := HeadFill(s[0], remaining);
    var all := Uids(start.book.Of(taker.Opposite()));
    MoreFacts(start.desk, account, taker, Owners(start.at), start.feed, done, f);
    StoreOwner(start.at, p.at, all, UsedUp(done), f.uid);
    StoreOwner(p.at, p.at, all, {}, f.uid);
    StoreStepThen(start.at, p.at, p'.at, all, Uids(s), UsedUp(done), if f.makerLeaves == 0 then {f.uid} else {});
  }

  /** One more execution: with quantity left the sweep goes on, without any it is done. */
  lemma ProgressNext(start: Picture, p: Picture, p': Picture, taker: Side, account: Username, price: Price,
                     quantity: Quantity, done: seq<Fill>, remaining: Quantity)
    requires Progress(start, p, taker, account, price, quantity, done, remaining)
    requires HitBetween(p, p', taker, account, remaining)
    requires var s := p.book.Of(taker.Opposite());
      && s != [] && CanMatch(taker.Opposite(), s[0].price, price)
      && s[0].uid in p.at && p.at[s[0].uid].account.Some?
    ensures var e := p.book.Of(taker.Opposite())[0];
      if e.quantity >= remaining then Done(start, p', taker, account, price, quantity, 0)
      else Progress(start, p', taker, account, price, quantity, done + [HeadFill(e, remaining)], remaining - e.quantity)
  {
    hide Match, Executions, Recorded, SweepTrail, Uids, StoreStep, ApplyFill, Send, Owners, OwnerOf;
    var s := p.book.Of(taker.Opposite());
    var f := HeadFill(s[0], remaining);
    MatchUnfold(taker.Opposite(), s, price, remaining);
    ExecutionsNext(start, p, p', taker, account, done, remaining);
    RecordNext(start.book, taker, price, quantity, |done|, p.book, remaining, start.trail, p.trail, p'.book);
    if s[0].quantity < remaining {
      var r := Match(taker.Opposite(), s[1..], price, remaining - s[0].quantity);
      assert done + ([f] + r.fills) == (done + [f]) + r.fills;
    }
  }

  class LimitOrderBook {
    const sides: SidePair
    const registry: Registry
    const feed: Sender<FeedMessage>
    var sequence: UID
    /** The book right after each message it published. */
    ghost var trail: seq<Book>

    ghost predicate Sound()
      reads sides.sells, sides.buys, sides.orders, registry
    {
      sides.Valid() && Known(sides.orders.at, registry.accounts.Keys)
    }

    ghost predicate Valid()
      reads this, sides.sells, sides.buys, sides.orders, registry
    {
      && Sound() && sequence > 0
      && sides.orders.at.Keys == Uids(sides.sells.contents) + Uids(sides.buys.contents)
      && forall u | u in sides.orders.at :: u < sequence
    }

    ghost function Snapshot(active: bool): Venue
      reads this, sides.sells, sides.buys, sides.orders, registry, feed
    {
      Venue(sides.Lists(), sequence, Owners(sides.orders.at), registry.Contents(), feed.State(), active)
    }

    constructor (registry: Registry, feed: Sender<FeedMessage>)
      ensures Valid() && sides.Lists() == EMPTY && sides.orders.at == map[] && sequence == 1 && trail == []
      ensures this.registry == registry && this.feed == feed
      ensures fresh(sides.sells) && fresh(sides.buys) && fresh(sides.orders)
    {
      sides := new SidePair();
      this.registry := registry;
      this.feed := feed;
      sequence := 1;
      trail := [];
    }

    /** The front order can fill what remains of the incoming order. */
    method ExecuteLast(taker: Side, account: Username, remaining: Quantity)
      requires Sound() && account in registry.accounts
      requires sides.Tree(taker.Opposite()).contents != []
        && sides.Tree(taker.Opposite()).contents[0].quantity >= remaining
      modifies sides.Tree(taker.Opposite()), sides.orders, registry, feed
      ensures Sound() && registry.accounts.Keys == old(registry.accounts.Keys)
      ensures Hit(taker, account, remaining, old(sides.Tree(taker.Opposite()).contents),
                  sides.Tree(taker.Opposite()).contents,
                  old(sides.orders.at), sides.orders.at, old(registry.Contents()), registry.Contents(),
                  old(feed.State()), feed.State())
    {
      hide SidePair.Valid, Known, Send, Leg, StoreStep, Remove, Uids, Owners, OwnerOf;
      var side := taker.Opposite();
      var tree := sides.Tree(side);
      sides.FrontOf(side);
      var uid := tree.limits[tree.best.value].head;
      var match_ := sides.orders.at[uid];
      KnownAt(sides.orders.at, registry.accounts.Keys, uid);
      var maker := match_.account.value;
      FrontFacts(tree.contents);
      AccountsAfter(registry.Contents(), account, taker, maker, HeadFill(tree.contents[0], remaining));
      ghost var touched := Uids(tree.contents);
      registry.MarketFill(account, taker, remaining, match_.price);
      if match_.quantity == remaining {
        registry.LimitFill(maker, uid, side, match_.quantity, match_.price);
        feed.Post(Trade(uid, match_.price, match_.quantity, taker));
        sides.Consume(side, uid);
      } else {
        sides.Reduce(side, uid, remaining);
        registry.LimitPartial(maker, uid, side, remaining, sides.orders.at[uid].quantity, match_.price);
        feed.Post(Trade(uid, match_.price, remaining, taker));
      }
      KnownAfter(old(sides.orders.at), sides.orders.at, touched, if match_.quantity == remaining then {uid} else {},
                 registry.accounts.Keys);
    }

    /** The front order cannot fill what remains: it is used up and `left` remains. */
    method ExecuteWhole(taker: Side, account: Username, remaining: Quantity) returns (left: Quantity)
      requires Sound() && account in registry.accounts
      requires sides.Tree(taker.Opposite()).contents != []
        && sides.Tree(taker.Opposite()).contents[0].quantity < remaining
      modifies sides.Tree(taker.Opposite()), sides.orders, registry, feed
      ensures Sound() && registry.accounts.Keys == old(registry.accounts.Keys)
      ensures left == remaining - old(sides.Tree(taker.Opposite()).contents)[0].quantity
      ensures Hit(taker, account, remaining, old(sides.Tree(taker.Opposite()).contents),
                  sides.Tree(taker.Opposite()).contents,
                  old(sides.orders.at), sides.orders.at, old(registry.Contents()), registry.Contents(),
                  old(feed.State()), feed.State())
    {
      hide SidePair.Valid, Known, Send, Leg, StoreStep, Remove, Uids, Owners, OwnerOf;
      var side := taker.Opposite();
      var tree := sides.Tree(side);
      sides.FrontOf(side);
      var uid := tree.limits[tree.best.value].head;
      var match_ := sides.orders.at[uid];
      KnownAt(sides.orders.at, registry.accounts.Keys, uid);
      var maker := match_.account.value;
      FrontFacts(tree.contents);
      AccountsAfter(registry.Contents(), account, taker, maker, HeadFill(tree.contents[0], remaining));
      ghost var touched := Uids(tree.contents);
      left := remaining - match_.quantity;
      registry.MarketPartial(account, taker, match_.quantity, left, match_.price);
      registry.LimitFill(maker, uid, side, match_.quantity, match_.price);
      feed.Post(Trade(uid, match_.price, match_.quantity, taker));
      sides.Consume(side, uid);
      KnownAfter(old(sides.orders.at), sides.orders.at, touched, {uid}, registry.accounts.Keys);
    }

    /** What the market loop works on. */
    ghost function Look(): Picture
      reads this, sides.sells, sides.buys, sides.orders, registry, feed
    {
      Picture(sides.Lists(), sides.orders.at, registry.Contents(), feed.State(), trail)
    }

    /** One turn of the market loop; `left` is what remains of the incoming order. */
    method Execute(taker: Side, account: Username, remaining: Quantity) returns (left: Quantity)
      requires Sound() && account in registry.accounts
      requires sides.Tree(taker.Opposite()).contents != []
      modifies this`trail, sides.Tree(taker.Opposite()), sides.orders, registry, feed
      ensures Sound() && registry.accounts.Keys == old(registry.accounts.Keys)
      ensures HitBetween(old(Look()), Look(), taker, account, remaining)
      ensures var e := old(sides.Tree(taker.Opposite()).contents)[0];
        && left == (if e.quantity >= remaining then 0 else remaining - e.quantity)
        && e.uid in old(sides.orders.at) && old(sides.orders.at)[e.uid].account.Some?
      ensures sides.Tree(taker.Opposite()).best == BestPrice(sides.Tree(taker.Opposite()).contents)
    {
      hide SidePair.Valid, Known, Hit, Owners, OwnerOf;
      var side := taker.Opposite();
      var tree := sides.Tree(side);
      sides.OtherSideApart(side);
      sides.FrontOf(side);
      KnownAt(sides.orders.at, registry.accounts.Keys, tree.contents[0].uid);
      if sides.orders.at[tree.limits[tree.best.value].head].quantity >= remaining {
        ExecuteLast(taker, account, remaining);
        left := 0;
      } else {
        left := ExecuteWhole(taker, account, remaining);
      }
      trail := trail + [sides.Lists()];
      sides.FrontOf(side);
    }

    /** The market loop: match the incoming order with the front of the opposite side until it is
        filled, the side is empty or the best price is not acceptable. */
    method Market(taker: Side, account: Username, price: Price, quantity: Quantity) returns (residual: Quantity)
      requires Sound() && account in registry.accounts
      modifies this`trail, sides.Tree(taker.Opposite()), sides.orders, registry, feed
      ensures Sound() && registry.accounts.Keys == old(registry.accounts.Keys)
      ensures Done(old(Look()), Look(), taker, account, price, quantity, residual)
    {
      hide SidePair.Valid, Known, Match, Progress, Done, HitBetween;
      var side := taker.Opposite();
      var tree := sides.Tree(side);
      residual := quantity;
      ghost var start, done := Look(), [];
      ProgressStart(start, taker, account, price, quantity);
      sides.FrontOf(side);
      while tree.best.Some? && CanMatch(side, tree.best.value, price)
        invariant Sound() && registry.accounts.Keys == old(registry.accounts.Keys)
        invariant tree.best == BestPrice(tree.contents)
        invariant Progress(start, Look(), taker, account, price, quantity, done, residual)
        decreases |tree.contents|
      {
        ghost var before, remaining := Look(), residual;
        residual := Execute(taker, account, residual);
        ProgressNext(start, before, Look(), taker, account, price, quantity, done, remaining);
        if residual == 0 {
          return;
        }
        done := done + [HeadFill(before.book.Of(side)[0], remaining)];
        HitShortens(before, Look(), taker, account, remaining);
      }
      ProgressEnd(start, Look(), taker, account, price, quantity, done, residual);
    }

    /** The incoming order, not yet on either side, is in the order map under the next ID. */
    ghost predicate Pending(account: Username, side: Side, price: Price)
      reads this, sides.sells, sides.buys, sides.orders, registry
    {
      && Sound() && sequence > 0
      && sequence in sides.orders.at && sequence !in Uids(sides.sells.contents)
        && sequence !in Uids(sides.buys.contents)
      && sides.orders.at.Keys == Uids(sides.sells.contents) + Uids(sides.buys.contents) + {sequence}
      && (forall u | u in sides.orders.at :: u <= sequence)
      && sides.orders.at[sequence] == Order(sequence, side, sides.orders.at[sequence].quantity, price, Some(account),
                                            None, None)
    }

    /** Put a new order into the order map. */
    method Admit(account: Username, side: Side, quantity: Quantity, price: Price)
      requires Valid() && account in registry.accounts
      modifies sides.orders
      ensures Pending(account, side, price)
      ensures sides.orders.at ==
              old(sides.orders.at)[sequence := Order(sequence, side, quantity, price, Some(account), None, None)]
    {
      hide IndexOk, Uids;
      assert sequence !in Uids(sides.sells.contents) && sequence !in Uids(sides.buys.contents);
      sides.orders.at := sides.orders.at[sequence := Order(sequence, side, quantity, price, Some(account), None, None)];
      sides.sells.Frame(old(sides.orders.at), sides.orders.at);
      sides.buys.Frame(old(sides.orders.at), sides.orders.at);
    }

    /** Write what the market loop left of the pending order. */
    method Settle(account: Username, side: Side, price: Price, residual: Quantity)
      requires Pending(account, side, price)
      modifies sides.orders
      ensures Pending(account, side, price)
      ensures sides.orders.at == old(sides.orders.at)[sequence := old(sides.orders.at)[sequence].(quantity := residual)]
    {
      hide IndexOk, Uids;
      sides.orders.at := sides.orders.at[sequence := sides.orders.at[sequence].(quantity := residual)];
      sides.sells.Frame(old(sides.orders.at), sides.orders.at);
      sides.buys.Frame(old(sides.orders.at), sides.orders.at);
    }

    /** The pending order was filled on entry: forget it, its ID stays unused. */
    method Dismiss(account: Username, side: Side, price: Price)
      requires Pending(account, side, price)
      modifies sides.orders
      ensures Valid() && sides.orders.at == old(sides.orders.at) - {sequence}
    {
      hide IndexOk, Uids;
      sides.orders.at := sides.orders.at - {sequence};
      sides.sells.Frame(old(sides.orders.at), sides.orders.at);
      sides.buys.Frame(old(sides.orders.at), sides.orders.at);
    }

    /** Put the pending order on its side of the book. */
    method Shelve(account: Username, side: Side, price: Price)
      requires Pending(account, side, price)
      modifies sides.Tree(side), sides.orders
      ensures Sound() && sides.orders.at.Keys == old(sides.orders.at.Keys)
      ensures sides.Tree(side.Opposite()).contents == old(sides.Tree(side.Opposite()).contents)
      ensures sides.Tree(side).contents ==
              Insert(side, old(sides.Tree(side).contents),
                     Entry(sequence, price, old(sides.orders.at)[sequence].quantity))
      ensures Uids(sides.Tree(side).contents) == old(Uids(sides.Tree(side).contents)) + {sequence}
      ensures Owners(sides.orders.at) == Owners(old(sides.orders.at))
    {
      hide IndexOk, Uids, Insert, Owners;
      var tree, other := sides.Tree(side), sides.Tree(side.Opposite());
      InsertUids(side, tree.contents, Entry(sequence, price, sides.orders.at[sequence].quantity));
      tree.Rest(sides.orders, sequence);
      other.Frame(old(sides.orders.at), sides.orders.at);
      RelinkedOwners(Uids(tree.contents), old(sides.orders.at), sides.orders.at);
    }

    /** The pending order rests: on its side, with its account, on the feed; its ID is used. */
    method RestPending(account: Username, side: Side, price: Price)
      requires Pending(account, side, price) && account in registry.accounts
      modifies this`sequence, this`trail, sides.Tree(side), sides.orders, registry, feed
      ensures Valid() && sequence == old(sequence) + 1 && registry.accounts.Keys == old(registry.accounts.Keys)
      ensures var quantity := old(sides.orders.at)[old(sequence)].quantity;
        && sides.Lists() == old(sides.Lists()).With(
             side, Insert(side, old(sides.Lists()).Of(side), Entry(old(sequence), price, quantity)))
        && feed.State() == Send(old(feed.State()), AddOrder(old(sequence), price, quantity, side))
      ensures registry.Contents() == Hold(old(registry.Contents()), account, old(sequence))
      ensures trail == old(trail) + [sides.Lists()]
      ensures Owners(sides.orders.at) == Owners(old(sides.orders.at))
    {
      hide SidePair.Valid, Known, Uids, Insert, Send, Owners;
      var quantity := sides.orders.at[sequence].quantity;
      Shelve(account, side, price);
      registry.Keep(account, sequence);
      feed.Post(AddOrder(sequence, price, quantity, side));
      trail := trail + [sides.Lists()];
      sequence := sequence + 1;
    }

    /** The pending order crosses: run the market loop on it. */
    method CrossPending(account: Username, side: Side, price: Price)
      requires Pending(account, side, price) && account in registry.accounts
      modifies this`trail, sides.Tree(side.Opposite()), sides.orders, registry, feed
      ensures Pending(account, side, price) && registry.accounts.Keys == old(registry.accounts.Keys)
      ensures trail == old(trail) + SweepTrail(old(sides.Lists()), side, price, old(sides.orders.at)[sequence].quantity)
      ensures var m := Swept(old(sides.Lists()), side, price, old(sides.orders.at)[sequence].quantity);
        && sides.Lists() == old(sides.Lists()).With(side.Opposite(), m.rest)
        && sequence in sides.orders.at && sides.orders.at[sequence].quantity == m.residual
        && registry.Contents() ==
             ApplyFills(old(registry.Contents()), account, side, Owners(old(sides.orders.at)), m.fills)
        && feed.State() == SendAll(old(feed.State()), TradeMessages(m.fills, side))
        && Owners(sides.orders.at) == Owners(old(sides.orders.at)) - UsedUp(m.fills)
    {
      hide IndexOk, Uids, SendAll, Match, ApplyFills, UsedUp, TradeMessages, Owners, SweepTrail;
      var tree := sides.Tree(side.Opposite());
      var quantity := sides.orders.at[sequence].quantity;
      ghost var s := tree.contents;
      ghost var m := Match(side.Opposite(), s, price, quantity);
      sides.SweepUids(tree, sides.orders.at, price, quantity);
      var residual := Market(side, account, price, quantity);
      StoreStepOwners(old(sides.orders.at), sides.orders.at, Uids(s), UsedUp(m.fills));
      ghost var swept := sides.orders.at;
      Settle(account, side, price, residual);
      SameOwners(swept, sides.orders.at, sequence, residual);
    }

    lemma EntryFacts(side: Side)
      requires Valid()
      ensures sides.Tree(side.Opposite()).best == BestPrice(sides.Tree(side.Opposite()).contents)
      ensures sequence !in sides.Lists().AllUids() && sequence !in sides.orders.at
    {
      hide IndexOk, Uids;
      sides.FrontOf(side.Opposite());
    }

    /** limit_sell and limit_buy: trade if the order crosses, then rest what remains. The ID is 0
        if the order was filled on entry. */
    method Limit(account: Username, side: Side, quantity: Quantity, price: Price, ghost active: bool) returns (uid: UID)
      requires Valid() && account in registry.accounts
      modifies this, sides.sells, sides.buys, sides.orders, registry, feed
      ensures Valid() && registry.accounts.Keys == old(registry.accounts.Keys)
      ensures (Snapshot(active), uid) == PlaceLimit(old(Snapshot(active)), account, side, quantity, price)
      ensures trail == old(trail) + LimitTrail(old(sides.Lists()), side, old(sequence), quantity, price)
    {
      hide SidePair.Valid, Known, Valid, Pending, Uids, Insert, Send, Match, ApplyFills, SendAll, UsedUp,
        TradeMessages, Owners, PlaceLimit, Hold, SweepTrail, LimitTrail;
      ghost var v := Snapshot(active);
      var opposite := sides.Tree(side.Opposite());
      EntryFacts(side);
      Admit(account, side, quantity, price);
      AdmittedOwners(old(sides.orders.at), sequence,
                     Order(sequence, side, quantity, price, Some(account), None, None), account);
      LimitUnfolds(v, account, side, quantity, price);
      LimitTrailUnfolds(v.book, side, sequence, quantity, price);
      if opposite.best.Some? && (if side.Sell? then price <= opposite.best.value else price >= opposite.best.value) {
        CrossPending(account, side, price);
        if sides.orders.at[sequence].quantity == 0 {
          ghost var at := sides.orders.at;
          Dismiss(account, side, price);
          DismissedOwners(at, sequence);
          uid := 0;
          return;
        }
      }
      RestPending(account, side, price);
      uid := sequence - 1;
    }

    /** market_sell and market_buy: trade at any price; nothing rests. */
    method MarketOrder(account: Username, side: Side, quantity: Quantity, ghost active: bool)
      requires Valid() && account in registry.accounts
      modifies this`trail, sides.sells, sides.buys, sides.orders, registry, feed
      ensures Valid() && registry.accounts.Keys == old(registry.accounts.Keys)
      ensures Snapshot(active) == PlaceMarket(old(Snapshot(active)), account, side, quantity)
      ensures trail == old(trail) + SweepTrail(old(sides.Lists()), side, 0, quantity)
    {
      hide IndexOk, Uids, SendAll, Match, ApplyFills, UsedUp, TradeMessages, Owners, SweepTrail;
      var tree := sides.Tree(side.Opposite());
      ghost var s := tree.contents;
      sides.SweepUids(tree, sides.orders.at, 0, quantity);
      var residual := Market(side, account, 0, quantity);
      StoreStepOwners(old(sides.orders.at), sides.orders.at, Uids(s),
                      UsedUp(Match(side.Opposite(), s, 0, quantity).fills));
    }

    /** A stored order is on the side it says. */
    lemma SideOfOrder(uid: UID)
      requires Valid() && uid in sides.orders.at
      ensures var side := sides.orders.at[uid].side;
        && uid in Uids(sides.Tree(side).contents) && SideOf(sides.Lists(), uid) == side
        && sides.orders.at[uid].account.Some? && sides.orders.at[uid].account.value in registry.accounts
        && OwnerOf(Owners(sides.orders.at), uid) == sides.orders.at[uid].account.value
    {
      hide Sorted, Distinct, LevelsOk, IsBst;
      var side := SideOf(sides.Lists(), uid);
      var s := sides.Tree(side).contents;
      var i :| 0 <= i < |s| && s[i].uid == uid;
      assert Shows(sides.orders.at[uid], side, s[i]);
    }

    /** Cancel a resting order. */
    method Cancel(uid: UID, ghost active: bool)
      requires Valid() && uid in sides.orders.at
      modifies this`trail, sides.sells, sides.buys, sides.orders, registry, feed
      ensures Valid() && registry.accounts.Keys == old(registry.accounts.Keys)
      ensures Snapshot(active) == CancelOrder(old(Snapshot(active)), uid)
      ensures trail == old(trail) + [sides.Lists()]
    {
      hide SidePair.Valid, Known, Uids, Send, Remove, Owners, OwnerOf, SideOf, StoreStep;
      SideOfOrder(uid);
      var order := sides.orders.at[uid];
      ghost var touched := Uids(sides.Tree(order.side).contents);
      sides.OtherSideApart(order.side);
      sides.Consume(order.side, uid);
      KnownAfter(old(sides.orders.at), sides.orders.at, touched, {uid}, registry.accounts.Keys);
      StoreStepOwners(old(sides.orders.at), sides.orders.at, touched, {uid});
      StoreKeys(old(sides.orders.at), sides.orders.at, touched, {uid});
      registry.Drop(order.account.value, uid);
      feed.Post(DeleteOrder(uid));
      trail := trail + [sides.Lists()];
    }
  }

  lemma AdmittedOwners(at: Store, uid: UID, order: Order, account: Username)
    requires order.account == Some(account)
    ensures Owners(at[uid := order]) == Owners(at)[uid := account]
    ensures uid !in at ==> uid !in Owners(at)
  {
  }

  lemma DismissedOwners(at: Store, uid: UID)
    ensures Owners(at - {uid}) == Owners(at) - {uid}
  {
  }

  lemma SameOwners(at: Store, at': Store, uid: UID, quantity: Quantity)
    requires uid in at && at' == at[uid := at[uid].(quantity := quantity)]
    ensures Owners(at') == Owners(at)
  {
  }

  lemma {:induction false} ApplyFillsAgree(
      d: Desk, taker: Username, side: Side, owner: map<UID, Username>, owner': map<UID, Username>, fills: seq<Fill>)
    requires forall i | 0 <= i < |fills| :: OwnerOf(owner', fills[i].uid) == OwnerOf(owner, fills[i].uid)
    ensures ApplyFills(d, taker, side, owner', fills) == ApplyFills(d, taker, side, owner, fills)
  {
    hide ApplyFill, OwnerOf;
    if fills != [] {
      ApplyFillsAgree(d, taker, side, owner, owner', fills[..|fills| - 1]);
    }
  }

  /** The order waits in the order map while it is matched; its own entry makes no difference. */
  lemma PendingMakesNoDifference(v: Venue, account: Username, side: Side, quantity: Quantity, price: Price)
    requires v.sequence !in v.book.AllUids() && v.sequence !in v.owner
    ensures var m := Swept(v.book, side, price, quantity);
      var owner := v.owner[v.sequence := account];
      && ApplyFills(v.desk, account, side, owner, m.fills) == ApplyFills(v.desk, account, side, v.owner, m.fills)
      && (owner - UsedUp(m.fills)) - {v.sequence} == v.owner - UsedUp(m.fills)
      && owner - UsedUp(m.fills) == (v.owner - UsedUp(m.fills))[v.sequence := account]
  {
    hide Match, After, ApplyFills;
    var m := Swept(v.book, side, price, quantity);
    var s := v.book.Of(side.Opposite());
    SweepShape(side.Opposite(), s, price, quantity);
    assert forall i | 0 <= i < |m.fills| :: m.fills[i].uid == s[i].uid && s[i].uid in Uids(s);
    ApplyFillsAgree(v.desk, account, side, v.owner, v.owner[v.sequence := account], m.fills);
  }

  lemma LimitUnfolds(v: Venue, account: Username, side: Side, quantity: Quantity, price: Price)
    requires v.sequence !in v.book.AllUids() && v.sequence !in v.owner
    ensures var m := Swept(v.book, side, price, quantity);
      var owner := v.owner[v.sequence := account];
      var crosses := Crosses(v.book, side, price);
      var residual := if crosses then m.residual else quantity;
      var w := if crosses
        then v.(book := v.book.With(side.Opposite(), m.rest),
                owner := owner - UsedUp(m.fills),
                desk := ApplyFills(v.desk, account, side, owner, m.fills),
                feed := SendAll(v.feed, TradeMessages(m.fills, side)))
        else v.(owner := owner);
      PlaceLimit(v, account, side, quantity, price) ==
        if crosses && residual == 0 then (w.(owner := w.owner - {v.sequence}), 0)
        else (w.(book := w.book.With(side, Insert(side, w.book.Of(side), Entry(v.sequence, price, residual))),
                 sequence := v.sequence + 1,
                 desk := Hold(w.desk, account, v.sequence),
                 feed := Send(w.feed, AddOrder(v.sequence, price, residual, side))), v.sequence)
  {
    hide Match, ApplyFills, SendAll, Send, UsedUp, Insert, Hold, Uids;
    if Crosses(v.book, side, price) {
      PendingMakesNoDifference(v, account, side, quantity, price);
    } else {
      NothingExecuted(v, account, side);
    }
  }

  lemma LimitTrailUnfolds(b: Book, side: Side, uid: UID, quantity: Quantity, price: Price)
    ensures var m := Swept(b, side, price, quantity);
      var crosses := Crosses(b, side, price);
      var residual := if crosses then m.residual else quantity;
      var swept := if crosses then b.With(side.Opposite(), m.rest) else b;
      var rested := swept.With(side, Insert(side, swept.Of(side), Entry(uid, price, residual)));
      LimitTrail(b, side, uid, quantity, price) ==
        if crosses && residual == 0 then SweepTrail(b, side, price, quantity)
        else if crosses then SweepTrail(b, side, price, quantity) + [rested]
        else [rested]
  {
    hide Match, Insert, SweepTrail;
  }

  lemma NothingExecuted(v: Venue, account: Username, side: Side)
    ensures Executed(v, account, side, []) == v
  {
    UsedUpNone();
    assert v.owner - {} == v.owner;
    assert TradeMessages([], side) == [];
  }

  lemma RelinkedOwners(uids: set<UID>, at: Store, at': Store)
    requires Relinked(uids, at, at')
    ensures Owners(at') == Owners(at)
  {
  }

  lemma StoreOwner(at: Store, at': Store, touched: set<UID>, gone: set<UID>, uid: UID)
    requires StoreStep(at, at', touched, gone) && uid in at' && at'[uid].account.Some?
    ensures OwnerOf(Owners(at), uid) == at'[uid].account.value
  {
  }

  /** An execution involves existing accounts only, before and after each of its legs. */
  lemma AccountsAfter(d: Desk, taker: Username, side: Side, maker: Username, f: Fill)
    ensures Leg(d, taker, side, TakerReport(side, f), false).accounts.Keys == d.accounts.Keys
    ensures ApplyFill(d, taker, side, maker, f).accounts.Keys == d.accounts.Keys
  {
    hide Leg, ApplyFill, SameSessions;
    LegSameAccounts(d, taker, side, TakerReport(side, f), false);
    FillKeepsAccounts(d, taker, side, maker, f);
  }

  lemma FillKeepsAccounts(d: Desk, taker: Username, side: Side, maker: Username, f: Fill)
    ensures ApplyFill(d, taker, side, maker, f).accounts.Keys == d.accounts.Keys
  {
    FillSameSessions(d, taker, side, maker, f);
  }

  /** One more execution. */
  lemma MoreFacts(d: Desk, account: Username, taker: Side, owner: map<UID, Username>, o: Outbox<FeedMessage>,
                  done: seq<Fill>, f: Fill)
    ensures ApplyFills(d, account, taker, owner, done + [f]) ==
            ApplyFill(ApplyFills(d, account, taker, owner, done), account, taker, OwnerOf(owner, f.uid), f)
    ensures SendAll(o, TradeMessages(done + [f], taker)) ==
            Send(SendAll(o, TradeMessages(done, taker)), Trade(f.uid, f.price, f.quantity, taker))
    ensures UsedUp(done + [f]) == UsedUp(done) + if f.makerLeaves == 0 then {f.uid} else {}
  {
    ApplyFillsOne(d, account, taker, owner, done, f);
    SendAllOne(o, TradeMessages(done, taker), Trade(f.uid, f.price, f.quantity, taker));
    assert TradeMessages(done + [f], taker) == TradeMessages(done, taker) + [Trade(f.uid, f.price, f.quantity, taker)];
    UsedUpOne(done + [f]);
    assert (done + [f])[..|done|] == done;
  }
}
