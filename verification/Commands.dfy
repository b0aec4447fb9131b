/**
 The original limit, market and cancel commands, for a receiver that runs them on its own book
 instead of replaying the server's messages: what they make of the lists, and that in every run the
 server's commands can be run there.
 */
module Commands {
  import opened MarketTypes
  import opened Sweeps
  import opened Books
  import opened Outboxes
  import opened Desks
  import opened Protocol
  import opened Venues
  import opened VenueInvariant
  import opened Trails

  datatype Command =
    | LimitOrder(side: Side, uid: UID, quantity: Quantity, price: Price)
    | MarketOrder(side: Side, quantity: Quantity)
    | CancelOrder(uid: UID)

  function Perform(b: Book, command: Command): Book {
    match command
    case LimitOrder(side, uid, quantity, price) => SubmitLimit(b, side, uid, quantity, price).book
    case MarketOrder(side, quantity) => SubmitMarket(b, side, quantity).book
    case CancelOrder(uid) => Canceled(b, uid)
  }

  function PerformAll(b: Book, commands: seq<Command>): Book
    decreases |commands|
  {
    if commands == [] then b else PerformAll(Perform(b, commands[0]), commands[1..])
  }

  /** A new order's ID is not in the book, a cancelled order's is. */
  predicate Allowed(b: Book, command: Command) {
    match command
    case LimitOrder(_, uid, _, _) => uid !in b.AllUids()
    case MarketOrder(_, _) => true
    case CancelOrder(uid) => uid in b.AllUids()
  }

  predicate Runnable(b: Book, commands: seq<Command>)
    decreases |commands|
  {
    commands == [] || (Allowed(b, commands[0]) && Runnable(Perform(b, commands[0]), commands[1..]))
  }

  lemma {:induction false} PerformConcat(b: Book, x: seq<Command>, y: seq<Command>)
    ensures PerformAll(b, x + y) == PerformAll(PerformAll(b, x), y)
    ensures Runnable(b, x + y) <==> Runnable(b, x) && Runnable(PerformAll(b, x), y)
    decreases |x|
  {
    hide Perform, Allowed;
    if x == [] {
      assert x + y == y;
    } else {
      assert (x + y)[0] == x[0] && (x + y)[1..] == x[1..] + y;
      PerformConcat(Perform(b, x[0]), x[1..], y);
    }
  }

  lemma PerformOne(b: Book, command: Command)
    ensures PerformAll(b, [command]) == Perform(b, command)
    ensures Runnable(b, [command]) <==> Allowed(b, command)
  {
    hide Perform, Allowed;
    assert [command][1..] == [];
  }

  lemma PerformNone(b: Book)
    ensures PerformAll(b, []) == b && Runnable(b, [])
  {
  }

  lemma NextCommand(b: Book, commands: seq<Command>)
    requires commands != [] && Runnable(b, commands)
    ensures Allowed(b, commands[0]) && Runnable(Perform(b, commands[0]), commands[1..])
    ensures PerformAll(b, commands) == PerformAll(Perform(b, commands[0]), commands[1..])
  {
    hide Allowed, Perform;
  }

  function Cancellations(picks: seq<UID>): seq<Command> {
    seq(|picks|, i requires 0 <= i < |picks| => CancelOrder(picks[i]))
  }

  /** The book commands a request amounts to, with the uids the server gives out. */
  function RequestCommands(v: Venue, name: Username, request: Request): seq<Command> {
    match request
    case OrderRequest(side, quantity, price) =>
      if price == 0 then [MarketOrder(side, quantity)] else [LimitOrder(side, v.sequence, quantity, price)]
    case CancelRequest(orderId) =>
      if orderId in v.owner && v.owner[orderId] == name then [CancelOrder(orderId)] else []
    case ReplaceRequest(orderId, side, quantity, price) =>
      if orderId !in v.owner then [LimitOrder(side, v.sequence, quantity, price)]
      else if v.owner[orderId] != name then []
      else [CancelOrder(orderId), LimitOrder(side, v.sequence, quantity, price)]
    case PurgeRequest(picks) =>
      if name in v.desk.accounts && Enumerates(picks, v.desk.accounts[name].orders) then Cancellations(picks) else []
    case _ => []
  }

  function StepCommands(v: Venue, step: Step): seq<Command> {
    if step.Receive? && Acting(v, step.c).Some? then RequestCommands(v, Acting(v, step.c).value, step.request) else []
  }

  function AllCommands(v: Venue, steps: seq<Step>): seq<Command>
    decreases |steps|
  {
    if steps == [] then [] else StepCommands(v, steps[0]) + AllCommands(Next(v, steps[0]), steps[1..])
  }

  /** The commands can be run on b and make b' of it. */
  predicate Makes(b: Book, commands: seq<Command>, b': Book) {
    Runnable(b, commands) && PerformAll(b, commands) == b'
  }

  lemma MakesConcat(b: Book, x: seq<Command>, b': Book, y: seq<Command>, b'': Book)
    requires Makes(b, x, b') && Makes(b', y, b'')
    ensures Makes(b, x + y, b'')
  {
    hide PerformAll, Runnable;
    PerformConcat(b, x, y);
  }

  lemma MakesOne(b: Book, command: Command)
    requires Allowed(b, command)
    ensures Makes(b, [command], Perform(b, command))
  {
    hide Perform, PerformAll, Runnable, Allowed;
    PerformOne(b, command);
  }

  lemma {:induction false} CancelAllMakes(v: Venue, picks: seq<UID>)
    requires Inv(v)
    requires forall i | 0 <= i < |picks| :: picks[i] in v.owner
    requires forall i, j | 0 <= i < j < |picks| :: picks[i] != picks[j]
    ensures Makes(v.book, Cancellations(picks), CancelAll(v, picks).book)
  {
    hide Inv, Canceled, Makes, Send, Release;
    if picks == [] {
      NothingMade(v.book);
      assert Cancellations(picks) == [];
    } else {
      var n := |picks| - 1;
      var w := CancelAll(v, picks[..n]);
      CancelAllMakes(v, picks[..n]);
      LastPickRests(v, picks);
      MakesOne(w.book, CancelOrder(picks[n]));
      CancelAllLast(v, picks);
      assert Cancellations(picks) == Cancellations(picks[..n]) + [CancelOrder(picks[n])];
      MakesConcat(v.book, Cancellations(picks[..n]), w.book, [CancelOrder(picks[n])], CancelAll(v, picks).book);
    }
  }

  lemma NothingMade(b: Book)
    ensures Makes(b, [], b)
  {
  }

  lemma ReplaceMakes(v: Venue, orderId: UID, side: Side, quantity: Quantity, price: Price)
    requires Inv(v) && orderId in v.owner
    ensures Makes(v.book, [CancelOrder(orderId), LimitOrder(side, v.sequence, quantity, price)],
                  SubmitLimit(Canceled(v.book, orderId), side, v.sequence, quantity, price).book)
  {
    hide Replay, BookOk, SessionsOk, HoldingsOk, Orderly, Canceled, SubmitLimit, Makes;
    var freed := Canceled(v.book, orderId);
    var next := LimitOrder(side, v.sequence, quantity, price);
    CancelKeepsBook(v.book, v.sequence, orderId);
    NextIsFresh(freed, v.sequence);
    MakesOne(v.book, CancelOrder(orderId));
    MakesOne(freed, next);
    MakesConcat(v.book, [CancelOrder(orderId)], freed, [next], Perform(freed, next));
    assert [CancelOrder(orderId), next] == [CancelOrder(orderId)] + [next];
  }

  lemma RequestMakes(v: Venue, c: ConnectionId, request: Request)
    requires Inv(v) && Acting(v, c).Some?
    ensures Makes(v.book, RequestCommands(v, Acting(v, c).value, request), HandleRequest(v, c, request).book)
  {
    hide Replay, BookOk, SessionsOk, HoldingsOk, Orderly, Canceled, Makes, SubmitLimit, SubmitMarket, CancelAll,
      Enumerates, ApplyFills, SendAll, Send, UsedUp, Respond, Cancellations;
    var name := Acting(v, c).value;
    NothingMade(v.book);
    match request
    case OrderRequest(side, quantity, price) =>
      NextIsFresh(v.book, v.sequence);
      MakesOne(v.book, if price == 0 then MarketOrder(side, quantity)
               else LimitOrder(side, v.sequence, quantity, price));
    case CancelRequest(orderId) =>
      if orderId in v.owner {
        MakesOne(v.book, CancelOrder(orderId));
      }
    case ReplaceRequest(orderId, side, quantity, price) =>
      NextIsFresh(v.book, v.sequence);
      MakesOne(v.book, LimitOrder(side, v.sequence, quantity, price));
      if orderId in v.owner {
        ReplaceMakes(v, orderId, side, quantity, price);
      }
    case PurgeRequest(picks) =>
      if name in v.desk.accounts && Enumerates(picks, v.desk.accounts[name].orders) {
        EnumerationOwned(v, name, picks);
        CancelAllMakes(v, picks);
      }
    case _ =>
  }

  lemma StepMakes(v: Venue, step: Step)
    requires Inv(v)
    ensures Makes(v.book, StepCommands(v, step), Next(v, step).book)
  {
    hide Inv, Makes, RequestCommands, HandleRequest, Send, Complete;
    NothingMade(v.book);
    if step.Receive? {
      if Acting(v, step.c).Some? {
        RequestMakes(v, step.c, step.request);
      } else {
        Outsider(v, step.c, step.request);
      }
    }
  }

  /** In every run the server's commands can be run on a copy of its book, and make the book it
      ends with. */
  lemma {:induction false} RunMakes(v: Venue, steps: seq<Step>)
    requires Inv(v)
    ensures Makes(v.book, AllCommands(v, steps), Run(v, steps).book)
    decreases |steps|
  {
    hide Inv, Makes, Next, StepCommands;
    NothingMade(v.book);
    if steps != [] {
      var v', rest := Next(v, steps[0]), steps[1..];
      NextKeepsInv(v, steps[0]);
      StepMakes(v, steps[0]);
      RunMakes(v', rest);
      MakesConcat(v.book, StepCommands(v, steps[0]), v'.book, AllCommands(v', rest), Run(v', rest).book);
    }
  }

  /** Running the commands and replaying the messages make the same book of an empty one. */
  lemma CommandsReplay(v: Venue, steps: seq<Step>)
    requires Initial(v)
    ensures Runnable(EMPTY, AllCommands(v, steps))
    ensures Replay(EMPTY, Published(Run(v, steps))) == Some(PerformAll(EMPTY, AllCommands(v, steps)))
  {
    hide Run, AllCommands, Replay, Published, PerformAll, Runnable, BookOk, Orderly, SessionsOk, HoldingsOk;
    InitialInv(v);
    RunMakes(v, steps);
    RunKeepsInv(v, steps);
  }
}
