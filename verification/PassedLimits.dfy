/** A run in which a limit order trades past its limit. */
module PassedLimits {
  import opened MarketTypes
  import opened PriceTime
  import opened Books
  import opened Outboxes
  import opened Desks
  import opened Protocol
  import opened Venues
  import opened Trails

  /** One account sells at 0, by replacing an order that is not there, and then at 5. */
  function SellsAtZero(c: ConnectionId, name: Username, password: string): seq<Step> {
    [Accept(c), Receive(c, LoginRequest(name, password)),
     Receive(c, ReplaceRequest(0, Sell, 10, 0)), Receive(c, OrderRequest(Sell, 10, 5))]
  }

  /** Logged in as this account, with this book, and 0 no order's ID. */
  predicate At(v: Venue, c: ConnectionId, name: Username, book: Book, next: UID) {
    && Acting(v, c) == Some(name) && name in v.desk.accounts
    && v.book == book && v.sequence == next && 0 !in v.owner
  }

  lemma Logged(v: Venue, c: ConnectionId, name: Username, password: string)
    requires Initial(v) && name in v.desk.accounts && v.desk.accounts[name].password == password
    ensures At(Next(Next(v, Accept(c)), Receive(c, LoginRequest(name, password))), c, name, EMPTY, 1)
  {
    hide Send;
  }

  lemma AnswerStaysAt(v: Venue, c: ConnectionId, r: Response, name: Username, book: Book, next: UID)
    requires At(v, c, name, book, next)
    ensures At(Answer(v, c, r), c, name, book, next)
  {
    hide Send;
  }

  /** A sell that meets no buys rests. */
  lemma SellRests(v: Venue, c: ConnectionId, name: Username, book: Book, next: UID, quantity: Quantity, price: Price)
    requires At(v, c, name, book, next) && book.buys == [] && next > 0
    ensures var (w, uid) := PlaceLimit(v, name, Sell, quantity, price);
      At(w, c, name, Book(Insert(Sell, book.sells, Entry(next, price, quantity)), []), next + 1)
  {
    hide Insert, Send, Match;
    assert ApplyFills(v.desk, name, Sell, v.owner, []) == v.desk;
  }

  lemma Inserted()
    ensures Insert(Sell, [], Entry(1, 0, 10)) == [Entry(1, 0, 10)]
    ensures Insert(Sell, [Entry(1, 0, 10)], Entry(2, 5, 10)) == [Entry(1, 0, 10), Entry(2, 5, 10)]
  {
    assert Position(Sell, [Entry(1, 0, 10)][1..], 5) == 0;
  }

  /** What a buy of 15 limited to 0 does then: it trades 5 at the price 5. */
  lemma TradesAtFive()
    ensures var b := Book([Entry(1, 0, 10), Entry(2, 5, 10)], []);
      LimitMessages(b, Buy, 3, 15, 0) == [Trade(1, 0, 10, Buy), Trade(2, 5, 5, Buy)]
  {
    var s := [Entry(1, 0, 10), Entry(2, 5, 10)];
    assert s[1..] == [Entry(2, 5, 10)];
    MatchTwo(s, 15);
  }

  lemma MatchTwo(s: seq<Entry>, quantity: Quantity)
    requires s == [Entry(1, 0, 10), Entry(2, 5, 10)] && quantity == 15
    ensures var m := Match(Sell, s, 0, quantity);
      m.residual == 0 && m.fills == [Fill(1, 0, 10, 0, 5), Fill(2, 5, 5, 5, 0)]
  {
    assert s[1..] == [Entry(2, 5, 10)];
    assert Match(Sell, s[1..], 0, 5).fills == [HeadFill(Entry(2, 5, 10), 5)];
  }

  /** From every initial state with an account: its owner can sell at 0 and at 5, and a replace that buys
      15 with limit 0 then buys 5 of them at the price 5. */
  lemma LimitZeroReached(v: Venue, c: ConnectionId, name: Username, password: string)
    requires Initial(v) && name in v.desk.accounts && v.desk.accounts[name].password == password
    ensures var u := Run(v, SellsAtZero(c, name, password));
      && u.book == Book([Entry(1, 0, 10), Entry(2, 5, 10)], []) && u.sequence == 3
      && !LimitRespected(u.book, Buy, u.sequence, 15, 0)
      && Posted(u, Receive(c, ReplaceRequest(0, Buy, 15, 0))) == [Trade(1, 0, 10, Buy), Trade(2, 5, 5, Buy)]
  {
    hide Initial, At, Next, PlaceLimit, LimitMessages, Answer, LimitRespected, Posted, Run, Insert;
    var steps := SellsAtZero(c, name, password);
    var v2 := Next(Next(v, steps[0]), steps[1]);
    Logged(v, c, name, password);
    Inserted();
    ReplaceAt(v2, c, name, EMPTY, 1, 10, 0);
    var v3 := Next(v2, steps[2]);
    OrderAt(v3, c, name, Book([Entry(1, 0, 10)], []), 2, 10, 5);
    RunFour(v, steps);
    LimitZeroExample();
    TradesAtFive();
    AtPosts(Next(v3, steps[3]), c, name, Book([Entry(1, 0, 10), Entry(2, 5, 10)], []), 3);
  }

  lemma RunFour(v: Venue, steps: seq<Step>)
    requires |steps| == 4
    ensures Run(v, steps) == Next(Next(Next(Next(v, steps[0]), steps[1]), steps[2]), steps[3])
  {
    hide Next;
    var v1 := Next(v, steps[0]);
    var v2 := Next(v1, steps[1]);
    var v3 := Next(v2, steps[2]);
    assert steps[1..][1..] == steps[2..] && steps[2..][1..] == steps[3..] && steps[3..][1..] == [];
    assert Run(v2, steps[2..]) == Run(v3, steps[3..]) == Run(Next(v3, steps[3]), []);
    assert Run(v, steps) == Run(v1, steps[1..]) == Run(v2, steps[2..]);
  }

  lemma ReplaceAt(v: Venue, c: ConnectionId, name: Username, book: Book, next: UID, quantity: Quantity, price: Price)
    requires At(v, c, name, book, next) && book.buys == [] && next > 0
    ensures At(Next(v, Receive(c, ReplaceRequest(0, Sell, quantity, price))), c, name,
               Book(Insert(Sell, book.sells, Entry(next, price, quantity)), []), next + 1)
  {
    hide PlaceLimit, Answer, Insert;
    var (w, uid) := PlaceLimit(v, name, Sell, quantity, price);
    SellRests(v, c, name, book, next, quantity, price);
    AnswerStaysAt(w, c, ReplaceResponse(0, uid, Accepted), name,
                  Book(Insert(Sell, book.sells, Entry(next, price, quantity)), []), next + 1);
  }

  lemma OrderAt(v: Venue, c: ConnectionId, name: Username, book: Book, next: UID, quantity: Quantity, price: Price)
    requires At(v, c, name, book, next) && book.buys == [] && next > 0 && price > 0
    ensures At(Next(v, Receive(c, OrderRequest(Sell, quantity, price))), c, name,
               Book(Insert(Sell, book.sells, Entry(next, price, quantity)), []), next + 1)
  {
    hide PlaceLimit, Answer, Insert;
    var (w, uid) := PlaceLimit(v, name, Sell, quantity, price);
    SellRests(v, c, name, book, next, quantity, price);
    AnswerStaysAt(w, c, OrderResponse(uid, Accepted), name,
                  Book(Insert(Sell, book.sells, Entry(next, price, quantity)), []), next + 1);
  }

  lemma AtPosts(v: Venue, c: ConnectionId, name: Username, book: Book, next: UID)
    requires At(v, c, name, book, next)
    ensures v.book == book && v.sequence == next
    ensures Posted(v, Receive(c, ReplaceRequest(0, Buy, 15, 0))) == LimitMessages(book, Buy, next, 15, 0)
  {
    hide LimitMessages;
  }
}
