/**
 The data feed over whole runs: a receiver that starts empty and applies the published
 messages in order holds the server's book, after every single one of them.
 */
module FeedTheorems {
  import opened MarketTypes
  import opened PriceTime
  import opened Sweeps
  import opened Books
  import opened Outboxes
  import opened Desks
  import opened Venues
  import opened VenueInvariant
  import opened Trails

  // ---------------------------------------------------------------------------
  // Replication
  // ---------------------------------------------------------------------------

  /** The book the server holds right after the n-th message of a run. */
  function Held(v: Venue, steps: seq<Step>, n: nat): Book
    requires n <= |Trail(v, steps)|
  {
    if n == 0 then v.book else Trail(v, steps)[n - 1]
  }

  /** In every run, after every single message, the receiver's book is the one the server held right
      after publishing it; the last one is the book the server holds. No message is refused, and the
      published order IDs strictly increase. */
  lemma ReplicaAgrees(v: Venue, steps: seq<Step>)
    requires Initial(v)
    ensures var w := Run(v, steps);
      && |Trail(v, steps)| == |Published(w)|
      && (forall n: nat | n <= |Published(w)| :: Replay(EMPTY, Published(w)[..n]) == Some(Held(v, steps, n)))
      && Held(v, steps, |Published(w)|) == w.book
      && Replay(EMPTY, Published(w)) == Some(w.book)
      && Orderly(Published(w), w.sequence)
      && BookOk(w.book, w.sequence)
      && SessionAfterAll(false, Published(w)) == w.sessionActive
  {
    hide Run, Trail, PostedBy, Replay, Orderly, BookOk, HoldingsOk, SessionsOk, SessionAfterAll;
    var w := Run(v, steps);
    InitialInv(v);
    RunKeepsInv(v, steps);
    RunPublishes(v, steps);
    RunRetraced(v, steps);
    RunSession(v, steps);
    RetracedNone(EMPTY);
    TrailEnds(v, steps);
    assert Published(w) == PostedBy(v, steps);
    forall n: nat | n <= |Published(w)|
      ensures Replay(EMPTY, Published(w)[..n]) == Some(Held(v, steps, n))
    {
      assert n == 0 ==> Published(w)[..n] == [];
    }
  }

  /** In the middle of any sweep, of a limit or of a market order: after its k-th trade message the
      receiver holds the book the server has after the k-th execution. */
  lemma ReplicaAgreesMidSweep(v: Venue, side: Side, quantity: Quantity, price: Price, k: nat)
    requires Inv(v) && k <= |Swept(v.book, side, price, quantity).fills|
    ensures var o := side.Opposite();
      var fills := Swept(v.book, side, price, quantity).fills;
      && k <= |v.book.Of(o)| && k <= |TradeMessages(fills, side)|
      && Replay(EMPTY, Published(v) + TradeMessages(fills, side)[..k]) ==
           Some(v.book.With(o, After(v.book.Of(o), fills, k)))
  {
    hide BookOk, After, Replay, Orderly, TradeMessages, Match;
    var o := side.Opposite();
    var fills := Swept(v.book, side, price, quantity).fills;
    SweepShape(o, v.book.Of(o), price, quantity);
    TradeCount(fills, side);
    BookDisjoint(v.book, v.sequence);
    SweepReplay(v.book, side, fills, k);
    ReplayConcat(EMPTY, Published(v), TradeMessages(fills, side)[..k]);
  }

  lemma TradeCount(fills: seq<Fill>, side: Side)
    ensures |TradeMessages(fills, side)| == |fills|
  {
  }

  lemma BookDisjoint(b: Book, next: UID)
    requires BookOk(b, next)
    ensures Uids(b.sells) !! Uids(b.buys) && Distinct(b.sells) && Distinct(b.buys)
  {
  }

  // ---------------------------------------------------------------------------
  // From the sender's queue to the receiver
  // ---------------------------------------------------------------------------

  /** The sender's queue never holds more messages than its counter can tell from none. */
  predicate FeedBounded(v: Venue, steps: seq<Step>)
    decreases |steps|
  {
    |v.feed.queue| <= TWO_32 && (steps == [] || FeedBounded(Next(v, steps[0]), steps[1..]))
  }

  lemma {:induction false} FeedStaysHealthy(v: Venue, steps: seq<Step>)
    requires Healthy(v.feed, 1) && FeedBounded(v, steps)
    ensures Healthy(Run(v, steps).feed, 1)
    decreases |steps|
  {
    hide Healthy, Next, Posted;
    if steps != [] {
      var messages := Posted(v, steps[0]);
      StepPosts(v, steps[0]);
      if steps[0].FeedWritten? {
        CompleteKeepsHealthy(v.feed, 1);
      } else {
        SendAllQueue(v.feed, messages);
        assert |Next(v, steps[0]).feed.queue| <= TWO_32;
        SendAllKeepsHealthy(v.feed, 1, messages);
      }
      FeedStaysHealthy(Next(v, steps[0]), steps[1..]);
    }
  }

  /** What has been transmitted is numbered without gaps and replays to the book the server held
      right after the last of it; with what is still queued it gives the server's book. */
  lemma FeedDelivers(v: Venue, steps: seq<Step>)
    requires Initial(v) && FeedBounded(v, steps)
    ensures var w := Run(v, steps);
      var n := |w.feed.wire|;
      && Numbered(w.feed.wire, 1)
      && n <= |Trail(v, steps)|
      && Replay(EMPTY, Bodies(w.feed.wire)) == Some(Held(v, steps, n))
      && Replay(Held(v, steps, n), Bodies(w.feed.queue)) == Some(w.book)
      && (w.feed.queue == [] ==> Held(v, steps, n) == w.book)
      && SessionAfterAll(SessionAfterAll(false, Bodies(w.feed.wire)), Bodies(w.feed.queue)) == w.sessionActive
  {
    hide Run, Replay, FeedBounded, BookOk, Orderly, Next, Held, Trail, SessionAfterAll;
    var w := Run(v, steps);
    var n := |w.feed.wire|;
    FeedStaysHealthy(v, steps);
    ReplicaAgrees(v, steps);
    assert Bodies(w.feed.wire) + Bodies(w.feed.queue) == Published(w);
    assert Published(w)[..n] == Bodies(w.feed.wire);
    ReplayConcat(EMPTY, Bodies(w.feed.wire), Bodies(w.feed.queue));
    SessionConcat(false, Bodies(w.feed.wire), Bodies(w.feed.queue));
    assert forall i | 0 <= i < n :: w.feed.wire[i] == w.feed.enqueued[i];
  }
}
