/**
 The outgoing message queue of the feed sender and of every order-entry connection: messages
 are numbered, queued, and transmitted one at a time; completions arrive asynchronously.
 The counter of queued messages and the sequence numbers are 32 bits wide.
 */
module Outboxes {
  import opened MarketTypes

  datatype Packet<T> = Packet(sequence: nat, body: T)

  /** `inFlight` holds the front packets whose transmission has been started and not completed,
      `wire` what was transmitted, and `enqueued` everything ever sent through this queue. */
  datatype Outbox<T> = Outbox(
    enqueued: seq<Packet<T>>, wire: seq<Packet<T>>, inFlight: seq<Packet<T>>, queue: seq<Packet<T>>,
    size: nat, sequence: nat)

  function NewOutbox<T>(first: nat): Outbox<T> {
    Outbox([], [], [], [], 0, first)
  }

  function Send<T>(o: Outbox<T>, body: T): Outbox<T> {
    var p := Packet(o.sequence, body);
    var queue, size := o.queue + [p], (o.size + 1) % TWO_32;
    Outbox(o.enqueued + [p], o.wire, if size == 1 then o.inFlight + [queue[0]] else o.inFlight,
           queue, size, (o.sequence + 1) % TWO_32)
  }

  /** The completion of a transmission; without one under way nothing happens. */
  function Complete<T>(o: Outbox<T>): Outbox<T> {
    if o.inFlight == [] || o.queue == [] then o
    else
      var queue, size := o.queue[1..], (o.size + TWO_32 - 1) % TWO_32;
      o.(wire := o.wire + [o.inFlight[0]],
         inFlight := o.inFlight[1..] + (if size != 0 && queue != [] then [queue[0]] else []),
         queue := queue, size := size)
  }

  function SendAll<T>(o: Outbox<T>, bodies: seq<T>): Outbox<T>
    decreases |bodies|
  {
    if bodies == [] then o else SendAll(Send(o, bodies[0]), bodies[1..])
  }

  function Bodies<T>(packets: seq<Packet<T>>): seq<T> {
    seq(|packets|, i requires 0 <= i < |packets| => packets[i].body)
  }

  // ---------------------------------------------------------------------------
  // Any interleaving of sends and completions
  // ---------------------------------------------------------------------------

  datatype Event<T> = Sending(body: T) | Completion

  function Advance<T>(o: Outbox<T>, e: Event<T>): Outbox<T> {
    match e
    case Sending(body) => Send(o, body)
    case Completion => Complete(o)
  }

  function Play<T>(o: Outbox<T>, events: seq<Event<T>>): Outbox<T>
    decreases |events|
  {
    if events == [] then o else Play(Advance(o, events[0]), events[1..])
  }

  predicate OneInFlight<T>(o: Outbox<T>) {
    |o.inFlight| == if o.queue == [] then 0 else 1
  }

  /** The counter can tell this queue from an empty one. */
  predicate Fits<T>(o: Outbox<T>) {
    |o.queue| <= TWO_32
  }

  predicate Numbered<T>(packets: seq<Packet<T>>, first: nat) {
    forall i | 0 <= i < |packets| :: packets[i].sequence == (first + i) % TWO_32
  }

  /** The counter is the queue's length modulo its width, the packet in flight is the front of
      the queue, and the wire followed by the queue is everything enqueued, in order. */
  ghost predicate Healthy<T>(o: Outbox<T>, first: nat) {
    && o.size == |o.queue| % TWO_32
    && o.inFlight == (if o.queue == [] then [] else [o.queue[0]])
    && o.enqueued == o.wire + o.queue
    && Numbered(o.enqueued, first) && o.sequence == (first + |o.enqueued|) % TWO_32
  }

  lemma SendNumbers<T>(o: Outbox<T>, first: nat, body: T)
    requires Numbered(o.enqueued, first) && o.sequence == (first + |o.enqueued|) % TWO_32
    ensures Numbered(Send(o, body).enqueued, first)
    ensures Send(o, body).sequence == (first + |o.enqueued| + 1) % TWO_32
  {
  }

  /** One more in the counter. */
  lemma CountUp(n: nat)
    ensures (n % TWO_32 + 1) % TWO_32 == (n + 1) % TWO_32
    ensures (n + 1) % TWO_32 == 1 <==> n % TWO_32 == 0
  {
  }

  lemma SendKeepsHealthy<T>(o: Outbox<T>, first: nat, body: T)
    requires Healthy(o, first)
    ensures if |o.queue| == 0 || |o.queue| % TWO_32 != 0 then Healthy(Send(o, body), first)
            else !OneInFlight(Send(o, body))
  {
    hide Numbered;
    SendNumbers(o, first, body);
    CountUp(|o.queue|);
    var p := Packet(o.sequence, body);
    assert o.wire + (o.queue + [p]) == (o.wire + o.queue) + [p];
  }

  lemma CompleteKeepsHealthy<T>(o: Outbox<T>, first: nat)
    requires Healthy(o, first) && |o.queue| <= TWO_32
    ensures Healthy(Complete(o), first)
  {
    if o.queue != [] {
      assert (o.wire + [o.queue[0]]) + o.queue[1..] == o.wire + o.queue;
    }
  }

  /** The front of the queue went onto the wire, and the one behind it, if any, is in flight now. */
  predicate MovedOn<T(==)>(o: Outbox<T>, o': Outbox<T>) {
    && o.queue != [] && o'.wire == o.wire + [o.queue[0]] && o'.queue == o.queue[1..]
    && o'.inFlight == (if o'.queue == [] then [] else [o'.queue[0]])
    && o'.enqueued == o.enqueued && o'.sequence == o.sequence
  }

  lemma CompleteMovesOn<T>(o: Outbox<T>, first: nat)
    requires Healthy(o, first) && 0 < |o.queue| <= TWO_32
    ensures MovedOn(o, Complete(o)) && Healthy(Complete(o), first)
  {
    CompleteKeepsHealthy(o, first);
  }

  function Completions<T>(n: nat): seq<Event<T>> {
    seq(n, _ => Completion)
  }

  /** As many completions as messages wait transmit them all, in order. */
  lemma {:induction false} CompletionsDrain<T>(o: Outbox<T>, first: nat)
    requires Healthy(o, first) && |o.queue| <= TWO_32
    ensures var o' := Play(o, Completions(|o.queue|));
      o'.queue == [] && o'.wire == o.wire + o.queue == o.enqueued && o'.inFlight == []
    decreases |o.queue|
  {
    hide Numbered;
    if o.queue != [] {
      CompleteMovesOn(o, first);
      assert Completions<T>(|o.queue|)[1..] == Completions(|o.queue| - 1);
      CompletionsDrain(Complete(o), first);
      assert (o.wire + [o.queue[0]]) + o.queue[1..] == o.wire + o.queue;
    }
  }

  /** Every prefix of the run, including the empty and the whole one, satisfies P. */
  predicate Always<T(!new)>(o: Outbox<T>, events: seq<Event<T>>, P: Outbox<T> -> bool) {
    forall n | 0 <= n <= |events| :: P(Play(o, events[..n]))
  }

  lemma {:induction false} AlwaysStep<T(!new)>(o: Outbox<T>, events: seq<Event<T>>, P: Outbox<T> -> bool)
    requires events != []
    ensures Always(o, events, P) <==> P(o) && Always(Advance(o, events[0]), events[1..], P)
  {
    var o', rest := Advance(o, events[0]), events[1..];
    forall n | 0 < n <= |events|
      ensures Play(o, events[..n]) == Play(o', rest[..n - 1])
    {
      assert events[..n][1..] == rest[..n - 1];
    }
    if Always(o, events, P) {
      assert events[..0] == [] && P(Play(o, events[..0]));
      forall n | 0 <= n <= |rest|
        ensures P(Play(o', rest[..n]))
      {
        assert P(Play(o, events[..n + 1]));
      }
    }
    if P(o) && Always(o', rest, P) {
      forall n | 0 <= n <= |events|
        ensures P(Play(o, events[..n]))
      {
        if n > 0 { assert P(Play(o', rest[..n - 1])); }
      }
    }
  }

  /** From the start, one transmission is under way exactly while messages wait, at every point
      of a run, if and only if the queue never outgrows what the counter can tell from empty. */
  lemma {:induction false} OneInFlightIff<T(!new)>(o: Outbox<T>, first: nat, events: seq<Event<T>>)
    requires Healthy(o, first) && |o.queue| <= TWO_32
    ensures Always(o, events, OneInFlight) <==> Always(o, events, Fits)
    ensures Always(o, events, Fits) ==> Healthy(Play(o, events), first)
    decreases |events|
  {
    if events == [] {
      assert events[..0] == events;
    } else {
      AlwaysStep(o, events, OneInFlight);
      AlwaysStep(o, events, Fits);
      var o', rest := Advance(o, events[0]), events[1..];
      if events[0].Sending? {
        SendKeepsHealthy(o, first, events[0].body);
      } else {
        CompleteKeepsHealthy(o, first);
      }
      if |o'.queue| <= TWO_32 {
        OneInFlightIff(o', first, rest);
      } else {
        assert rest[..0] == [] && Play(o', rest[..0]) == o';
        assert !OneInFlight(o');
      }
    }
  }

  function Sendings<T>(body: T, n: nat): seq<Event<T>> {
    seq(n, _ => Sending(body))
  }

  lemma {:induction false} SendingsQueue<T>(o: Outbox<T>, body: T, n: nat)
    ensures |Play(o, Sendings(body, n)).queue| == |o.queue| + n
    decreases n
  {
    if n > 0 {
      assert Sendings(body, n)[1..] == Sendings(body, n - 1);
      SendingsQueue(Send(o, body), body, n - 1);
    }
  }

  /** The counter fails in some run: after 2^32 messages without a completion it reads 0, and the next
      message starts a second transmission beside the first. */
  lemma CounterOverflows<T(!new)>(body: T)
    ensures !Always(NewOutbox<T>(1), Sendings(body, TWO_32 + 1), OneInFlight)
  {
    hide Play, Always;
    var o, events := NewOutbox<T>(1), Sendings(body, TWO_32 + 1);
    OneInFlightIff(o, 1, events);
    SendingsQueue(o, body, TWO_32 + 1);
    AlwaysAtEnd(o, events);
  }

  lemma AlwaysAtEnd<T(!new)>(o: Outbox<T>, events: seq<Event<T>>)
    ensures Always(o, events, Fits) ==> Fits(Play(o, events))
  {
    assert events[..|events|] == events;
  }

  // ---------------------------------------------------------------------------
  // What is enqueued
  // ---------------------------------------------------------------------------

  lemma SendEnqueues<T>(o: Outbox<T>, body: T)
    ensures Bodies(Send(o, body).enqueued) == Bodies(o.enqueued) + [body]
  {
  }

  lemma {:induction false} SendAllEnqueues<T>(o: Outbox<T>, bodies: seq<T>)
    ensures Bodies(SendAll(o, bodies).enqueued) == Bodies(o.enqueued) + bodies
    decreases |bodies|
  {
    if bodies != [] {
      SendEnqueues(o, bodies[0]);
      SendAllEnqueues(Send(o, bodies[0]), bodies[1..]);
      assert (Bodies(o.enqueued) + [bodies[0]]) + bodies[1..] == Bodies(o.enqueued) + bodies;
    } else {
      assert Bodies(o.enqueued) + bodies == Bodies(o.enqueued);
    }
  }

  lemma {:induction false} SendAllConcat<T>(o: Outbox<T>, a: seq<T>, b: seq<T>)
    ensures SendAll(o, a + b) == SendAll(SendAll(o, a), b)
    decreases |a|
  {
    if a == [] {
      assert a + b == b;
    } else {
      assert (a + b)[0] == a[0] && (a + b)[1..] == a[1..] + b;
      SendAllConcat(Send(o, a[0]), a[1..], b);
    }
  }

  lemma SendAllOne<T>(o: Outbox<T>, bodies: seq<T>, body: T)
    ensures SendAll(o, bodies + [body]) == Send(SendAll(o, bodies), body)
  {
    SendAllConcat(o, bodies, [body]);
    assert SendAll(Send(SendAll(o, bodies), body), [body][1..]) == Send(SendAll(o, bodies), body);
  }

  /** A batch of messages leaves the queue healthy if it is not overfull at the end. */
  lemma {:induction false} SendAllKeepsHealthy<T>(o: Outbox<T>, first: nat, bodies: seq<T>)
    requires Healthy(o, first) && |o.queue| + |bodies| <= TWO_32
    ensures Healthy(SendAll(o, bodies), first) && |SendAll(o, bodies).queue| == |o.queue| + |bodies|
    decreases |bodies|
  {
    hide Healthy;
    if bodies != [] {
      HealthySize(o, first, bodies[0]);
      SendAllKeepsHealthy(Send(o, bodies[0]), first, bodies[1..]);
    }
  }

  lemma HealthySize<T>(o: Outbox<T>, first: nat, body: T)
    requires Healthy(o, first) && |o.queue| < TWO_32
    ensures Healthy(Send(o, body), first) && |Send(o, body).queue| == |o.queue| + 1
  {
    SendKeepsHealthy(o, first, body);
  }

  lemma {:induction false} SendAllQueue<T>(o: Outbox<T>, bodies: seq<T>)
    ensures |SendAll(o, bodies).queue| == |o.queue| + |bodies|
    decreases |bodies|
  {
    if bodies != [] {
      SendAllQueue(Send(o, bodies[0]), bodies[1..]);
    }
  }

  // ---------------------------------------------------------------------------
  // The sender itself
  // ---------------------------------------------------------------------------

  class Sender<T(!new)> {
    var sequence: nat
    var outputBuffer: seq<Packet<T>>
    var outputBufferSize: nat
    ghost var enqueued: seq<Packet<T>>
    ghost var wire: seq<Packet<T>>
    ghost var inFlight: seq<Packet<T>>

    ghost function State(): Outbox<T>
      reads this
    {
      Outbox(enqueued, wire, inFlight, outputBuffer, outputBufferSize, sequence)
    }

    constructor ()
      ensures State() == NewOutbox(1)
    {
      sequence, outputBuffer, outputBufferSize := 1, [], 0;
      enqueued, wire, inFlight := [], [], [];
    }

    /** Number and queue a message; start transmitting if it is the first one waiting. */
    method Post(body: T)
      modifies this
      ensures State() == Send(old(State()), body)
    {
      var packet := Packet(sequence, body);
      sequence := (sequence + 1) % TWO_32;
      outputBuffer := outputBuffer + [packet];
      enqueued := enqueued + [packet];
      outputBufferSize := (outputBufferSize + 1) % TWO_32;
      if outputBufferSize == 1 {
        inFlight := inFlight + [outputBuffer[0]];
      }
    }

    /** A transmission has completed: drop the front and start the next one, if any. */
    method Completed()
      requires inFlight != [] && outputBuffer != []
      modifies this
      ensures State() == Complete(old(State()))
    {
      outputBuffer := outputBuffer[1..];
      wire := wire + [inFlight[0]];
      outputBufferSize := (outputBufferSize + TWO_32 - 1) % TWO_32;
      inFlight := inFlight[1..] + if outputBufferSize != 0 && outputBuffer != [] then [outputBuffer[0]] else [];
    }
  }
}
