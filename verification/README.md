# A verified model of the exchange core

This project models the core of a small electronic exchange and proves what it is for: a
price-time-priority matching engine, the multicast feed that replicates its book, the order-entry
sessions that keep each client's picture of its account, and the exponential moving variance used
by the strategies.

## How it is built

The claims rest on three layers.

1. **Price-time lists** (`PriceTime`, `Sweeps`, `Books`). One side of the book is one list, best
   price first, arrival order within a price. Matching consumes the front of the list. Everything
   that is said about matching is said about these lists.
2. **The step system** (`Protocol`, `Outboxes`, `Desks`, `Venues`, `Clients`). One step is one
   handler call, one write completion or one console command, because the server runs on a single
   I/O context. `Venues.Run` plays any sequence of steps. `VenueInvariant`, `Mirror`,
   `SessionMirror`, `Delivery`, `Trails`, `FeedTheorems`, `Commands`, `Accounting`, `OrderTheorems`,
   `Reports` and `Answers` prove what holds over every run and of every step; `PassedLimits` is a run in
   which a limit is not respected.
3. **The programs** (`SearchTree`, `LimitIndex`, `LimitTrees`, `BookSides`, `Registries`, `Engine`,
   `Servers`, `Replica`, `Replication`). The mutable engine with its order map, price map, search
   tree with a cached best, linked queues and running totals; the server's request handlers; the
   receiver with its own book. Every method is proved to do exactly what the lists or the step
   system say, and to keep all indexes in agreement. A server carries the history
   of its steps, and `Servers.Server.Ok` says that its state is the one `Venues.Run` reaches with them
   and that the books it recorded after each message are the run's trail. Every handler keeps that, so
   the theorems about runs are theorems about the server; `Replication` applies them to the objects.

`MovingVariance` stands on its own.

A pointer to an order is its ID, a pointer to a limit is its price, a pointer to an account is its
user name, a pointer to a connection is its number. Quantities are 32-bit and prices 64-bit subset
types; counts and volumes are natural numbers, so every subtraction in the engine carries a proof
that it does not underflow. Shares and capital are 64-bit two's complement at the server, and
32-bit and 64-bit at the client; the 64-bit product of quantity and price wraps. Sequence numbers
and queue counters are 32 bits and wrap.

## What the code does that its documentation does not say

- Price 0 is the market sentinel inside `can_match`. A market order request has price 0, but a
  replace request with price 0 reaches the limit path. `Books.LimitRespectedIff` gives the exact
  condition under which a limit order trades worse than its limit: a buy with limit 0, some but not
  all sells rest at price 0, and those at 0 do not suffice. `PassedLimits.LimitZeroReached` is a run
  that does it.
- A limit order that is filled on entry returns ID 0 and does not use up its ID, which the next order
  gets. That ID was never published.
- A replace of an order that is gone still places the new order.
- The counter of an outgoing queue is 32 bits wide. `Outboxes.OneInFlightIff` shows that one
  transmission is in flight exactly while messages wait, at every point of a run, if and only if the
  queue never holds more than 2^32 messages, and `Outboxes.CounterOverflows` is the input that breaks it.

## Model

| member | source | states |
|---|---|---|
| `SearchTree.DeleteKeys` | include/order_entry/limit_order_book/limit_tree.hpp:243-246 | removing a limit from the search tree takes out exactly its key and keeps the tree ordered |
| `SearchTree.AddKeys` | include/order_entry/limit_order_book/limit_tree.hpp:202-205 | inserting a limit adds exactly its key and keeps the tree ordered |
| `SearchTree.FindBestCorrect` | include/order_entry/limit_order_book/limit_tree.hpp:78-109 | the step from the removed best node to its parent, or to the root's other child, followed by max or min, lands on the best of the remaining keys, and on null exactly when none remain |
| `LimitIndex.AloneIffNoLinks` | include/order_entry/limit_order_book/limit_tree.hpp:241 | an order has neither predecessor nor successor exactly when it is alone at its price |
| `LimitIndex.BestAfterInsert` | include/order_entry/limit_order_book/limit_tree.hpp:44-72 | setting the best to a better new limit gives the best price of the list with the order inserted |
| `LimitIndex.OpenLevel` | include/order_entry/limit_order_book/limit_tree.hpp:198-209 | the first order at a price opens a limit with the right count, volume and ends, and disturbs no other queue |
| `LimitIndex.JoinLevel` | include/order_entry/limit_order_book/limit_tree.hpp:210-222 | a further order joins the back of the queue at its price; every link, count and volume of every level stays right |
| `LimitIndex.CloseLevel` | include/order_entry/limit_order_book/limit_tree.hpp:241-252 | the last order at a price takes its limit with it and leaves the other levels right |
| `LimitIndex.LeaveLevel` | include/order_entry/limit_order_book/limit_tree.hpp:253-262 | bypassing an order in its queue keeps every link, head, tail, count and volume right |
| `LimitIndex.ReduceLevel` | include/order_entry/limit_order_book/limit_tree.hpp:305-310 | cutting an order's quantity in place keeps its queue position and moves the limit's volume by the same amount |
| `LimitIndex.LevelsDetermineList` | include/order_entry/limit_order_book/limit_tree.hpp:154-168 | two sides with the same queue at every price are the same price-time list |
| `LimitTrees.LimitTree.Rest` | include/order_entry/limit_order_book/limit_tree.hpp:197-225 | placing an order inserts it behind everyone at least as good, with price map, tree, best, queues, counts and volumes all describing the new list |
| `LimitTrees.LimitTree.Withdraw` | include/order_entry/limit_order_book/limit_tree.hpp:238-266 | removing an order takes exactly it out of the list, again with every index right, and changes no order's data |
| `LimitTrees.LimitTree.Shave` | include/order_entry/limit_order_book/limit_tree.hpp:304-310 | a partial fill cuts one order's quantity in its place, with limit and side volume following |
| `LimitTrees.LimitTree.Front` | include/order_entry/limit_order_book/limit_tree.hpp:289-291 | the cached best is null exactly when the side is empty, and the head of its queue is the first order of the price-time list |
| `LimitTrees.LimitTree.WidthsFit` | include/order_entry/limit_order_book/structures.hpp:113-142 | while fewer than 2^32 orders rest on a side, no count leaves 32 bits and no volume 64 |
| `LimitTrees.LimitTree.Clear` | include/data_feed/limit_order_book/limit_tree.hpp:169-180 | clearing gives a valid empty side |
| `BookSides.SidePair.Consume` | include/order_entry/limit_order_book/limit_order_book.hpp:84 | a used up order leaves its side and the order map; the other side's indexes and everyone's owner stay |
| `Sweeps.SweepShape` | include/order_entry/limit_order_book/limit_tree.hpp:287-333 | the executions name a prefix of the list in order, at resting prices; all but the last are used up, and the rest of the list is what remains |
| `Sweeps.SweepConserves` | include/order_entry/limit_order_book/limit_tree.hpp:292-331 | incoming quantity is traded plus residual, the side's volume falls by what is traded, and quantity is left only if no acceptable order is left |
| `Sweeps.SweepClosedForm` | include/order_entry/limit_order_book/limit_tree.hpp:287-333 | the i-th order trades exactly when it is acceptable and everything ahead of it does not suffice; it trades the smaller of its quantity and what is still needed, with the true leaves on both sides |
| `Sweeps.LeavesAreTrue` | include/order_entry/system_account.hpp:104-165 | both orders of an execution are left with true remainders: the incoming one with what it asked for minus everything traded so far, 0 exactly at the execution that fills it; the resting one with what it had minus this execution, 0 exactly when it is gone afterwards |
| `Reports.FillsSend` | include/order_entry/system_account.hpp:104-165 | for any sweep, every connection is sent exactly the reports of the executions its account takes part in, in order: ID 0, the resting price, what is traded and the submitted quantity minus everything traded so far to the incoming order's account; the resting order's ID and what is left of it, on the other side, to its account; both for a self-trade |
| `Reports.IthReport` | include/order_entry/limit_order_book/limit_tree.hpp:320-322 | without self-trades the i-th report to the incoming order's account is the i-th execution's, and its leaves are the submitted quantity minus the sum of the first i + 1 trades |
| `Reports.ComingIsLeft` | include/order_entry/limit_order_book/limit_tree.hpp:319-320 | what is coming at the i-th order is what came in minus everything traded before |
| `Reports.FillsMove` | include/order_entry/limit_order_book/structures.hpp:190-240 | for any sweep, every account's shares move by plus or minus what it trades and its capital by minus or plus quantity times resting price: exactly if that fits 64 bits, otherwise to the congruent 64-bit number |
| `Books.SweepReplay` | include/order_entry/limit_order_book/limit_tree.hpp:297-328 | replaying the first k trade messages of a sweep gives the side after its first k executions |
| `Books.LimitReplay` | include/order_entry/limit_order_book/limit_order_book.hpp:76-118 | a limit order keeps the book sorted, duplicate-free and uncrossed, and replaying its messages on the old book gives the new one without a refusal |
| `Books.MarketReplay` | include/order_entry/limit_order_book/limit_order_book.hpp:203-218 | the same for a market order |
| `Books.CancelReplay` | include/order_entry/limit_order_book/limit_order_book.hpp:159-166 | a cancel keeps the book sorted, duplicate-free and uncrossed, takes exactly its order out, and its message replays to the new book |
| `Books.SubmissionConserves` | include/order_entry/limit_order_book/limit_order_book.hpp:76-118 | a submitted limit order is traded or rests, a market order is traded or unfilled with the other side empty; each side's volume moves by exactly that |
| `Books.LimitRespectedIff` | include/order_entry/limit_order_book/limit_tree.hpp:132-151 | every execution of a limit order is no worse than its limit if and only if it is not a buy at 0 that trades past the sells resting at 0 |
| `Books.LimitZeroExample` | include/order_entry/connection.hpp:271-280 | a concrete book on which a buy with limit 0 trades at 5 |
| `PassedLimits.LimitZeroReached` | include/order_entry/connection.hpp:249-282 | that book is reached from every initial state with an account, and a replace that buys at 0 then publishes a trade at 5 |
| `Outboxes.OneInFlightIff` | include/data_feed/sender.hpp:45-58 | for any interleaving of sends and completions, one transmission is in flight exactly while messages wait, if and only if the queue never exceeds 2^32; then wire plus queue is everything enqueued, in order, numbered without gaps |
| `Outboxes.CounterOverflows` | include/data_feed/sender.hpp:125-134 | 2^32 + 1 messages without a completion are an input on which a second transmission starts beside the first |
| `Outboxes.CompletionsDrain` | include/data_feed/sender.hpp:45-58 | as many completions as messages wait put all of them on the wire, in order |
| `Outboxes.Sender.Post` | include/data_feed/sender.hpp:124-134 | a message is numbered, queued, counted, and put in flight if it is the only one |
| `Outboxes.Sender.Completed` | include/data_feed/sender.hpp:49-57 | a completion moves the front to the wire and starts the next one |
| `Outboxes.SendAllKeepsHealthy` | include/order_entry/connection.hpp:107-116 | a batch of messages keeps queue, counter, numbering and in-flight packet in agreement while the queue is not overfull |
| `Desks.FillsKeepHoldings` | include/order_entry/limit_order_book/structures.hpp:176-213 | after any sweep each account's order set is exactly the resting orders it owns |
| `Desks.FillSameTotals` | include/order_entry/limit_order_book/structures.hpp:190-240 | one execution leaves the total of shares and of capital over all accounts the same modulo 2^64, self-trades included, and exactly the same if neither booking leaves 64 bits |
| `Registries.Registry.Fill` | include/order_entry/limit_order_book/structures.hpp:190-203 | a sell of q at p takes q off the shares and adds q * p to the capital, a buy the other way: exactly if it fits 64 bits, otherwise the congruent 64-bit number; nothing else changes |
| `Registries.Registry.LimitFill` | include/order_entry/system_account.hpp:104-114 | a filled resting order leaves its account's set, is booked, and is reported with leaves 0 to the handler if there is one |
| `Registries.Registry.LimitPartial` | include/order_entry/system_account.hpp:121-131 | a partly filled resting order stays in the set, is booked for the incoming quantity and reported with what is left |
| `Registries.Registry.MarketFill` | include/order_entry/system_account.hpp:138-148 | the incoming order's last execution is booked and reported under ID 0 with leaves 0 |
| `Registries.Registry.MarketPartial` | include/order_entry/system_account.hpp:155-165 | an earlier execution of the incoming order is booked for the resting quantity and reported with what is left of it |
| `Registries.Registry.Tell` | include/order_entry/connection.hpp:107-116 | a response is numbered, queued, counted, and its write started if it is the only one waiting |
| `Registries.Registry.Completed` | include/order_entry/connection.hpp:84-100 | a completed write leaves the queue and the next one starts |
| `Engine.LimitOrderBook.ExecuteLast` | include/order_entry/limit_order_book/limit_tree.hpp:292-318 | the branch in which the front order fills the incoming one: indexes, both accounts, reports and feed change as one execution |
| `Engine.LimitOrderBook.ExecuteWhole` | include/order_entry/limit_order_book/limit_tree.hpp:319-331 | the branch in which the front order is used up, with its different order of mutations, is one execution as well |
| `Engine.LimitOrderBook.Execute` | include/order_entry/limit_order_book/limit_tree.hpp:289-331 | one turn of the loop is one execution with the front order, and the book it leaves is recorded |
| `Engine.LimitOrderBook.Market` | include/order_entry/limit_order_book/limit_tree.hpp:287-333 | the loop terminates and refines the list sweep: remaining side, residual, accounts, reports, feed and order map are those of the sweep, the book after the k-th turn is the one after the sweep's k-th execution, all indexes in agreement |
| `Engine.LimitOrderBook.Limit` | include/order_entry/limit_order_book/limit_order_book.hpp:76-133 | a limit order changes the whole engine exactly as the step system's placement says, including the order that fills on entry and returns 0, and goes through exactly the books of the placement's trail |
| `Engine.LimitOrderBook.MarketOrder` | include/order_entry/limit_order_book/limit_order_book.hpp:203-232 | a market order does the same |
| `Engine.LimitOrderBook.Cancel` | include/order_entry/limit_order_book/limit_order_book.hpp:159-166 | a cancel does the same |
| `Servers.Server.constructor` | include/order_entry/server.hpp:70-87 | a new server has an empty history, is in an initial state of the step system, and has exactly the configured accounts with their passwords, nothing booked and nobody connected |
| `Servers.Server.Accept` | include/order_entry/server.hpp:44-60 | a new connection is a step of the venue |
| `Answers.AcceptStarts` | include/order_entry/server.hpp:44-60 | a new connection is open, holds no account and has been sent nothing; everything else is as it was |
| `Servers.Server.Login` | include/order_entry/connection.hpp:158-185 | a login does what the step system says of it; `Answers.LoginLetsIn` says what that is |
| `Answers.LoginLetsIn` | include/order_entry/connection.hpp:158-185 | a connection holds an account after a login if and only if it held it before, or held none, and the name exists, the password is right and nobody is connected to it; each of the four answers is sent in exactly its case; nothing else changes |
| `Servers.Server.Logout` | include/order_entry/connection.hpp:72-81 | a logout clears flag, handler and account together, or nothing if nobody is logged in |
| `Answers.LogoutEnds` | include/order_entry/connection.hpp:190-199 | a logout request and a message with an unknown ID end the session: the connection stays open and holds no account, the account is free and has no handler, and the answer is UserRequested exactly for a logout request of someone logged in, otherwise ProtocolViolation; nothing else changes |
| `Servers.Server.Order` | include/order_entry/connection.hpp:205-219 | an order request runs the engine and answers with the order's ID, or 0 |
| `Answers.LimitQueues` | include/order_entry/limit_order_book/limit_order_book.hpp:76-118 | a limit order rests exactly if it did not trade all of its quantity on entry, with the rest, behind everyone at its price; every other queue of its side is as it was |
| `Answers.PlacedId` | include/order_entry/limit_order_book/limit_order_book.hpp:82-91 | the ID returned is the order's if it rests, and then the account that asked owns it and the next ID is used up; otherwise 0, and it is not |
| `Answers.IdsUsed` | include/order_entry/limit_order_book/limit_order_book.hpp:82-91 | a step uses up the next order ID exactly if an order rests under it afterwards; an order that is filled on entry leaves its ID to the next one |
| `Servers.Server.Cancel` | include/order_entry/connection.hpp:224-244 | only the owner of a resting order can cancel it; anything else is rejected |
| `Answers.CancelTakesOff` | include/order_entry/connection.hpp:224-244 | a cancel by the owner takes exactly its order off the book, publishes exactly that and is accepted; any other cancel changes nothing and is rejected |
| `Servers.Server.Replace` | include/order_entry/connection.hpp:249-282 | cancel then place, place alone when the order is gone, reject when it belongs to another |
| `Servers.Server.Purge` | include/order_entry/connection.hpp:287-302 | the purge loop terminates, walks exactly the account's orders, each once, and cancels them |
| `Servers.Server.Dispatch` | include/order_entry/connection.hpp:141-150 | every request goes to its handler, which does what the step system says and records the books of its trail |
| `Answers.RequestSends` | include/order_entry/connection.hpp:158-313 | what every request sends to every connection: the reports of its executions, which are exactly those with acceptable orders whose turn comes, and to the requesting connection the answer its type and the state before call for |
| `Answers.LastAnswerIs` | include/order_entry/connection.hpp:158-313 | the last answer to each type of request, by what was the case before: logged in or not, order there or not, own or not, and whether the new order rests |
| `Answers.StepMoves` | include/order_entry/limit_order_book/structures.hpp:190-240 | every step moves every account's balances by what its executions trade, in plain arithmetic as long as it fits, and a step that does not trade moves none |
| `Servers.Server.Receive` | include/order_entry/connection.hpp:119-153 | every request, whatever its type and sender, is one more step of the server's history: the server stays in the state of the run that takes those steps, and the books it recorded are that run's trail |
| `Servers.Server.HangUp` | include/order_entry/connection.hpp:126-131 | the end of a connection logs its account out |
| `Answers.HangUpEnds` | include/order_entry/connection.hpp:126-131 | the end of a connection frees its account, closes it and sends nothing |
| `Servers.Server.Written` | include/order_entry/connection.hpp:84-100 | the completion of a write is a step of the venue |
| `Answers.WriteMovesOn` | include/order_entry/connection.hpp:84-100 | a completed write moves exactly the front response onto the wire, starts the next one and changes nothing else |
| `Servers.Server.FeedWritten` | include/data_feed/sender.hpp:49-57 | so is the completion of a feed transmission |
| `Answers.FeedMovesOn` | include/data_feed/sender.hpp:49-57 | the same for the feed |
| `Servers.Server.Console` | include/order_entry/handlers/server_cli.hpp:50-74 | the session commands publish a message only when they change the session |
| `Answers.ConsoleSets` | include/order_entry/handlers/server_cli.hpp:50-74 | afterwards the session is as asked, and the message that says so is published exactly if it was not |
| `VenueInvariant.NextKeepsInv` | include/order_entry/connection.hpp:158-313 | every step keeps the invariant: sorted, duplicate-free, uncrossed book; order sets exactly the owned resting orders; exclusive sessions; the published messages replay to the book |
| `VenueInvariant.RunKeepsInv` | main/venue/server.cpp:50-69 | so it holds after every run |
| `VenueInvariant.RunExclusive` | include/order_entry/connection.hpp:72-81 | in every reachable state an account is marked connected exactly when a connection holds it, that one is its handler, and no two hold it |
| `OrderTheorems.RunTotals` | include/order_entry/limit_order_book/structures.hpp:190-240 | the total of shares and the total of capital over all accounts never change in any run, in 64-bit arithmetic, and are exactly the same in any run in which no booking leaves 64 bits |
| `OrderTheorems.OrderExit` | include/order_entry/connection.hpp:205-302 | an order leaves the book only by being fully traded or by a cancel, replace or purge from its own account |
| `OrderTheorems.RejectedUnchanged` | include/order_entry/connection.hpp:205-302 | a request answered with a rejection changes nothing but that answer |
| `OrderTheorems.PurgeExact` | include/order_entry/connection.hpp:297-299 | a purge removes exactly the account's orders in whatever order it walks them, and everyone else's orders keep their places |
| `Trails.StepPosts` | include/order_entry/connection.hpp:205-302 | every step but a feed completion appends exactly its messages to the feed's queue |
| `Trails.RunRetraced` | include/order_entry/limit_order_book/limit_tree.hpp:287-333 | replaying a run's messages one by one goes through exactly the books the server held, within sweeps, within purges and between the two halves of a replace |
| `Trails.RunSession` | include/order_entry/handlers/server_cli.hpp:50-73 | in every run the published messages tell whether the trading session is open; only the console changes that |
| `FeedTheorems.ReplicaAgrees` | include/data_feed/receiver.hpp:114-163 | in every run, after every single message, replaying what was published on an empty book gives the book the server held right after publishing it; no message is refused, published IDs strictly increase, the book is uncrossed; the messages tell the server's session flag |
| `FeedTheorems.ReplicaAgreesMidSweep` | include/order_entry/limit_order_book/limit_tree.hpp:287-333 | the same spelled out inside any sweep, of a limit or a market order: after the k-th trade message, the book after the k-th execution |
| `Commands.RunMakes` | include/order_entry/limit_order_book/limit_order_book.hpp:76-117 | in every run the server's commands can be run on a copy of its book (new IDs are new, cancelled orders are there) and make the book the server ends with |
| `Commands.CommandsReplay` | include/data_feed/limit_order_book/limit_order_book.hpp:68-107 | on the lists, running the commands and replaying the messages make the same book of an empty one |
| `Replication.RunCommands` | include/data_feed/limit_order_book/limit_order_book.hpp:68-212 | a data-feed book runs any commands it can run, with its own matching loop, to what they make of the lists |
| `Replication.CommandsOrMessages` | include/data_feed/limit_order_book/limit_tree.hpp:263-292 | the diagram commutes: in every run of a server, a data-feed book that runs the original commands and a receiver that reads the messages end with the same levels, queues, links, totals and best prices, which are the server's; the receiver also has the server's session flag |
| `Accounting.FeedAccounts` | include/data_feed/receiver.hpp:125-163 | over any feed that replays, for every order: added is traded plus deleted plus resting |
| `Accounting.RunAccounts` | include/order_entry/limit_order_book/limit_tree.hpp:292-331 | so in every run what was published of an order is what was traded, deleted and still rests of it |
| `Accounting.RunSubmitted` | include/order_entry/connection.hpp:205-282 | over whole runs, for every accepted order or replace request: its quantity is what it traded on entry plus what its order traded later, had deleted or still has resting; filled on entry, it traded all; a market order's remainder is unfilled and the other side empty |
| `FeedTheorems.FeedStaysHealthy` | include/data_feed/sender.hpp:125-134 | over every run the feed's queue, counter, numbering and in-flight packet agree while the queue stays within its counter |
| `FeedTheorems.FeedDelivers` | include/data_feed/sender.hpp:45-58 | what was transmitted is numbered without gaps and replays to the book the server held right after the last of it; followed by what is queued it gives the server's book |
| `Replica.DataFeedBook.Hit` | include/data_feed/limit_order_book/limit_tree.hpp:266-289 | one turn of the receiver's loop is one execution with the front order, and notes the new best price exactly when the front is used up and another order remains |
| `Replica.DataFeedBook.Market` | include/data_feed/limit_order_book/limit_tree.hpp:263-292 | the receiver's own loop terminates and refines the same list sweep, and tracks the last best price |
| `Replica.LastBestWasSeen` | include/data_feed/limit_order_book/limit_tree.hpp:252-253 | the last best price after a sweep is the best price now or, if the sweep emptied the side, the best price before its last execution |
| `Replica.DataFeedBook.Limit` | include/data_feed/limit_order_book/limit_order_book.hpp:68-122 | the receiver's limit order does to the lists what the specification says |
| `Replica.DataFeedBook.MarketOrder` | include/data_feed/limit_order_book/limit_order_book.hpp:186-212 | the same for its market orders |
| `Replica.DataFeedBook.Cancel` | include/data_feed/limit_order_book/limit_order_book.hpp:142-149 | the same for its cancels |
| `Replica.DataFeedBook.Reduce` | include/data_feed/limit_order_book/limit_order_book.hpp:156-179 | a reduction cuts an order in place or drops it at 0; it fails exactly when more is asked than there is, and then nothing has changed |
| `Replica.Receiver.Handle` | include/data_feed/receiver.hpp:92-163 | a delete or trade is logged as unknown exactly when its order is not there, a trade throws exactly when it exceeds what rests of its order, and then nothing changes; every other message takes effect, at the front of a queue or not |
| `Replica.Receiver.Read` | include/data_feed/receiver.hpp:54-88 | the receiver warns exactly when the number is not the successor modulo 2^32, and resynchronises; session flag, outcome and book are those of the message it carries |
| `Replica.Receiver.ReadAll` | include/data_feed/receiver.hpp:54-163 | packets numbered without gaps whose messages replay cause no warning and no failure, and leave the replayed book and the session flag the messages tell |
| `Replication.ListDeterminesIndexes` | include/data_feed/limit_order_book/limit_tree.hpp:154-166 | the price-time list determines limits, best, counts, volumes and every queue link, whichever code built them |
| `Replication.CatchUp` | include/data_feed/receiver.hpp:54-163 | at any time in a server's life, a fresh receiver that reads what was transmitted warns about nothing and holds the book the server held right after the last of it; once nothing is queued, the server's book, level by level, link by link, total by total, with the server's session flag |
| `Clients.Client.Receive` | include/order_entry/client.hpp:117-225 | the four fields after a response are those the response means, shares and capital in plain arithmetic as long as they fit 32 and 64 bits |
| `Clients.HandleUnderstood` | include/order_entry/client.hpp:117-225 | what each response makes of the client, field by field: authorization, which IDs are active, shares moved by plus or minus q and shown in 32 bits, capital by minus or plus q * p in 64 |
| `Mirror.ReportMirrors` | include/order_entry/client.hpp:207-225 | a client that handles a trade report stays at the same distance from the account that booked the trade |
| `SessionMirror.NextKeepsMirror` | include/order_entry/connection.hpp:158-313 | every step that leaves a connection logged in keeps its client's mirror of the account: same unseen orders, same distances |
| `SessionMirror.SessionKeepsMirror` | include/order_entry/client.hpp:117-225 | so does every run |
| `SessionMirror.RunTracks` | include/order_entry/client.hpp:117-225 | in every run a client shows nothing while logged out and only its account's resting orders while logged in |
| `SessionMirror.LoginSession` | include/order_entry/connection.hpp:158-185 | from a login on, the client shows exactly the account's resting orders minus those that rested at login; shares differ by a constant modulo 2^32 and capital modulo 2^64 |
| `SessionMirror.PurgeSession` | include/order_entry/connection.hpp:287-302 | after an accepted purge, and from then on, client and account agree on the resting orders, and shares and capital keep the distances they had at the purge |
| `Delivery.StepAppends` | include/order_entry/connection.hpp:107-116 | every step but a write completion only appends to a connection's queue |
| `Delivery.ClientCatchesUp` | include/order_entry/connection.hpp:84-116 | in every run, what a client was sent and then what is still queued for it, in order, give a client that shows nothing while logged out and only resting orders of its account while logged in |
| `Delivery.SessionCatchesUp` | include/order_entry/client.hpp:117-225 | and from a login on, exactly the account's resting orders minus those that rested at login, with shares and capital at the distance they had then |
| `Delivery.PurgeCatchesUp` | include/order_entry/connection.hpp:287-302 | and from an accepted purge on, exactly the resting orders, for a client that handles what was sent and then what is queued, with shares and capital at the distance they had at the purge |
| `Replication.ClientReads` | include/order_entry/client.hpp:80-225 | a client object that handles what a server sent it and then what is queued ends in that state |
| `MovingVariance.VarianceIsMoments` | include/maths/exponential_moving_variance.hpp:113-118 | under weights that sum to one, the variance is the second moment minus the squared mean |
| `MovingVariance.VarianceBounded` | include/maths/exponential_moving_variance.hpp:113-118 | it is non-negative and at most a quarter of the squared range |
| `MovingVariance.WeightsDecay` | include/maths/exponential_moving_variance.hpp:113-118 | the weights of exponential decay in closed form: with every later observation one's weight falls by the factor 1 - alpha |
| `MovingVariance.ExponentialMovingVariance.SteadyWeights` | include/maths/exponential_moving_variance.hpp:113-118 | while the rate has not changed since the last reset, the estimator's weights, average and variance are those of exponential decay |
| `MovingVariance.Estimate` | include/maths/exponential_moving_variance.hpp:78-118 | made for rate a and fed n observations, the estimator shows their mean and variance under the weights a (1 - a)^k, and (1 - a)^(n - 1) for the first |
| `MovingVariance.ExponentialMovingVariance.constructor` | include/maths/exponential_moving_variance.hpp:78-79 | the rate is the one passed, or the nearest in [0, 1]; the average is the observation and the variance 0 |
| `MovingVariance.ExponentialMovingVariance.Reset` | include/maths/exponential_moving_variance.hpp:86-89 | a reset forgets all observations but the given one: average the observation, variance 0, rate kept |
| `MovingVariance.ExponentialMovingVariance.SetAlpha` | include/maths/exponential_moving_variance.hpp:95-97 | the rate becomes the one passed, or the nearest in [0, 1], without disturbing what was observed |
| `MovingVariance.ExponentialMovingVariance.Process` | include/maths/exponential_moving_variance.hpp:113-118 | after each observation average and variance are the weighted mean and central variance of all observations, under non-negative weights that sum to one |
| `MovingVariance.ExponentialMovingVariance.Moments` | include/maths/exponential_moving_variance.hpp:113-118 | the stored variance is the weighted second moment minus the squared stored average |
| `MovingVariance.ExponentialMovingVariance.Bounds` | include/maths/exponential_moving_variance.hpp:113-118 | whatever was observed in [lo, hi], at whatever rates, the stored variance lies in [0, (hi - lo)^2 / 4] |

## Left out

- Sockets, I/O errors, clocks, configuration, command-line parsing, heartbeat, CSV and echo printers: delivery is modelled as queues and completion steps.
- Packed message layout: messages are datatypes, and user names and passwords are strings of any length.
- The vendored search tree and linked list are not part of this model: the tree is a plain unbalanced one, links are stored with the orders, and `FindBest` assumes that a removed node keeps the parent and child pointers it had.
- Accounts and connections are records in the maps of one registry object instead of separate heap objects, so aliasing between them is not captured.
- Order IDs are unbounded: the 64-bit sequence does not wrap.
- Lost, reordered or duplicated datagrams and receivers that join late: the code only logs the gap.
- `clear` and `reduce` of the order-entry book: no handler calls them, and they do not publish what they do.
- A book without a feed: the server always has one.
- FeedTheorems.FeedDelivers: requires that the sender's queue never holds more than 2^32 messages; `Outboxes.OneInFlightIff` shows that this is exactly when the counter works. Beyond that a second transmission starts beside the first.
- Replication.CatchUp: requires the same.
- Delivery.ClientCatchesUp: requires the same of the connection's queue.
- Delivery.SessionCatchesUp: requires the same of the connection's queue.
- Delivery.PurgeCatchesUp: requires the same of the connection's queue.
- Replication.ClientReads: requires the same of the connection's queue.
- Replica.Receiver.Handle: requires that an added order's ID is new. With an ID that is in the map the source keeps the old order, matches it against the book it rests in and links it into a queue a second time, which breaks the links; no server feed does that (`FeedTheorems.ReplicaAgrees`).
- Replica.Receiver.Read: requires the same of the packet's message.
- Replica.DataFeedBook.Limit: requires the same of the order's ID; so do the commands of `Replication.RunCommands`.
- The order in which a purge walks the account's set is that of pointer values; it is left open, and results hold for every order.
- Requests that arrive after the end of a connection are ignored.
- Floating-point rounding in the moving variance: arithmetic is over the reals.
- Trading strategies, the moving average on its own, rate of change and probability helpers would only add easy members.
