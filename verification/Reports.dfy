/**
 What a sweep tells the accounts' connections and what it does to their balances, said of the list it
 sweeps and the quantity that comes in: the i-th order trades what the orders ahead of it leave.
 */
module Reports {
  import opened MarketTypes
  import opened PriceTime
  import opened Sweeps
  import opened Protocol
  import opened Outboxes
  import opened Desks

  /** The connection to which trades of the account are reported. */
  predicate Handles(d: Desk, name: Username, c: ConnectionId) {
    name in d.accounts && d.accounts[name].handler == Some(c)
  }

  /** What is left of the incoming quantity when the i-th order's turn comes. */
  function Coming(s: seq<Entry>, quantity: Quantity, i: nat): Quantity
    requires i <= |s|
  {
    if Volume(s[..i]) <= quantity then quantity - Volume(s[..i]) else 0
  }

  function TradedAt(s: seq<Entry>, quantity: Quantity, i: nat): Quantity
    requires i < |s|
  {
    if s[i].quantity <= Coming(s, quantity, i) then s[i].quantity else Coming(s, quantity, i)
  }

  /** The reports connection c gets of the first n executions: of each one for the incoming order's
      account, under ID 0, and then for the resting order's, both with what is left of the order. */
  function ReportsTo(d: Desk, c: ConnectionId, taker: Username, side: Side, owner: map<UID, Username>, s: seq<Entry>,
                     quantity: Quantity, n: nat): seq<Response>
    requires n <= |s|
  {
    if n == 0 then []
    else
      var e, q, coming := s[n - 1], TradedAt(s, quantity, n - 1), Coming(s, quantity, n - 1);
      ReportsTo(d, c, taker, side, owner, s, quantity, n - 1)
      + (if Handles(d, taker, c) then [TradeResponse(0, e.price, q, coming - q, side)] else [])
      + (if e.uid in owner && Handles(d, owner[e.uid], c)
         then [TradeResponse(e.uid, e.price, q, e.quantity - q, side.Opposite())] else [])
  }

  /** The shares an account gains by the first n executions: the buyer's grow by what is traded, the
      seller's shrink by it; both at once if it trades with itself. */
  function SharesGained(name: Username, taker: Username, side: Side, owner: map<UID, Username>, s: seq<Entry>,
                        quantity: Quantity, n: nat): int
    requires n <= |s|
  {
    if n == 0 then 0
    else
      var e, q := s[n - 1], TradedAt(s, quantity, n - 1);
      SharesGained(name, taker, side, owner, s, quantity, n - 1)
      + (if name == taker then (if side.Buy? then q else 0 - q) else 0)
      + (if e.uid in owner && name == owner[e.uid] then (if side.Buy? then 0 - q else q) else 0)
  }

  /** The capital it gains: the seller gets quantity times the resting price, the buyer pays it. */
  function CapitalGained(name: Username, taker: Username, side: Side, owner: map<UID, Username>, s: seq<Entry>,
                         quantity: Quantity, n: nat): int
    requires n <= |s|
  {
    if n == 0 then 0
    else
      var e, q := s[n - 1], TradedAt(s, quantity, n - 1);
      CapitalGained(name, taker, side, owner, s, quantity, n - 1)
      + (if name == taker then (if side.Buy? then -(q * e.price) else q * e.price) else 0)
      + (if e.uid in owner && name == owner[e.uid] then (if side.Buy? then q * e.price else -(q * e.price)) else 0)
  }

  /** Both balances are 64-bit numbers. */
  predicate InWidth(a: Account) {
    Shows64(a.shares, a.shares) && Shows64(a.capital, a.capital)
  }

  // ---------------------------------------------------------------------------
  // One leg
  // ---------------------------------------------------------------------------

  lemma SentMore(connection: Connection, r: Response)
    ensures Sent(connection.(outbox := Send(connection.outbox, r))) == Sent(connection) + [r]
  {
    hide Send;
    SendEnqueues(connection.outbox, r);
  }

  lemma LegSends(d: Desk, name: Username, side: Side, r: Response, release: bool, c: ConnectionId)
    requires r.TradeResponse? && c in d.connections
    ensures var d' := Leg(d, name, side, r, release);
      c in d'.connections && Sent(d'.connections[c]) == Sent(d.connections[c]) + if Handles(d, name, c) then [r] else []
  {
    hide Signed64, Cost, Send, Sent;
    SentMore(d.connections[c], r);
    assert Sent(d.connections[c]) + [] == Sent(d.connections[c]);
  }

  /** One account books q shares at p, in plain arithmetic; nobody else's balance moves. */
  lemma LegMoves(d: Desk, name: Username, side: Side, r: Response, release: bool, a: Username)
    requires r.TradeResponse? && a in d.accounts
    ensures var d' := Leg(d, name, side, r, release);
      && a in d'.accounts
      && var was, now := d.accounts[a], d'.accounts[a];
         if a == name
         then && Shows64(now.shares, was.shares + (if side.Buy? then r.quantity else 0 - r.quantity))
              && Shows64(now.capital,
                         was.capital + (if side.Buy? then -(r.quantity * r.price) else r.quantity * r.price))
         else now.shares == was.shares && now.capital == was.capital
  {
    hide Signed64, Cost, Shows64, Send;
    var was := d.accounts[a];
    SignedShows64(was.shares + r.quantity);
    SignedShows64(was.shares - r.quantity);
    CostShows(was.capital, r.quantity, r.price);
  }

  // ---------------------------------------------------------------------------
  // A sweep
  // ---------------------------------------------------------------------------

  /** The i-th execution in terms of the list: the resting order's ID and price, what it trades, and what
      is then left of either order. */
  predicate ByList(s: seq<Entry>, quantity: Quantity, fills: seq<Fill>) {
    && |fills| <= |s|
    && forall i | 0 <= i < |fills| ::
         var q := TradedAt(s, quantity, i);
         fills[i] == Fill(s[i].uid, s[i].price, q, s[i].quantity - q, Coming(s, quantity, i) - q)
  }

  lemma SweepByList(side: Side, s: seq<Entry>, price: Price, quantity: Quantity)
    requires Sorted(side, s)
    ensures ByList(s, quantity, Match(side, s, price, quantity).fills)
    ensures forall i | 0 <= i < |s| :: i < |Match(side, s, price, quantity).fills| <==>
              CanMatch(side, s[i].price, price) && (i == 0 || Volume(s[..i]) < quantity)
  {
    hide Match, Sorted, Follows, Volume;
    SweepShape(side, s, price, quantity);
    FollowsShorter(s, Match(side, s, price, quantity).fills);
    VolumeNone();
    forall i | 0 <= i < |s|
      ensures i < |Match(side, s, price, quantity).fills| <==>
              CanMatch(side, s[i].price, price) && (i == 0 || Volume(s[..i]) < quantity)
      ensures i < |Match(side, s, price, quantity).fills| ==>
        var q := TradedAt(s, quantity, i);
        Match(side, s, price, quantity).fills[i] ==
          Fill(s[i].uid, s[i].price, q, s[i].quantity - q, Coming(s, quantity, i) - q)
    {
      SweepClosedForm(side, s, price, quantity, i);
      assert i == 0 ==> s[..i] == [];
    }
  }

  lemma VolumeNone()
    ensures Volume([]) == 0
  {
  }

  lemma FollowsShorter(s: seq<Entry>, fills: seq<Fill>)
    requires Follows(s, fills)
    ensures |fills| <= |s|
  {
  }

  lemma SameHandlers(d: Desk, d': Desk)
    requires SameSessions(d, d')
    ensures forall name, c :: Handles(d', name, c) <==> Handles(d, name, c)
    ensures d'.connections.Keys == d.connections.Keys && d'.accounts.Keys == d.accounts.Keys
  {
  }

  /** What one execution sends and books, by its fields. */
  lemma FillSends(d: Desk, taker: Username, side: Side, maker: Username, f: Fill, c: ConnectionId)
    requires c in d.connections
    ensures var d' := ApplyFill(d, taker, side, maker, f);
      && c in d'.connections
      && Sent(d'.connections[c]) ==
           Sent(d.connections[c])
           + (if Handles(d, taker, c) then [TradeResponse(0, f.price, f.quantity, f.takerLeaves, side)] else [])
           + (if Handles(d, maker, c)
              then [TradeResponse(f.uid, f.price, f.quantity, f.makerLeaves, side.Opposite())] else [])
  {
    hide Leg, Handles, Sent, SameSessions;
    var d1 := Leg(d, taker, side, TakerReport(side, f), false);
    LegSends(d, taker, side, TakerReport(side, f), false, c);
    LegSends(d1, maker, side.Opposite(), MakerReport(side, f), f.makerLeaves == 0, c);
    LegSameSessions(d, taker, side, TakerReport(side, f), false);
    SameHandlers(d, d1);
  }

  lemma FillMoves(d: Desk, taker: Username, side: Side, maker: Username, f: Fill, a: Username)
    requires a in d.accounts
    requires InWidth(d.accounts[a])
    ensures var d' := ApplyFill(d, taker, side, maker, f);
      && a in d'.accounts
      && var was, now, q, paid := d.accounts[a], d'.accounts[a], f.quantity, f.quantity * f.price;
         && Shows64(now.shares, was.shares + (if a == taker then (if side.Buy? then q else 0 - q) else 0)
                                           + (if a == maker then (if side.Buy? then 0 - q else q) else 0))
         && Shows64(now.capital, was.capital + (if a == taker then (if side.Buy? then -paid else paid) else 0)
                                             + (if a == maker then (if side.Buy? then paid else -paid) else 0))
  {
    hide Leg, Shows64;
    var d1 := Leg(d, taker, side, TakerReport(side, f), false);
    var was, q: int, paid: int := d.accounts[a], f.quantity, f.quantity * f.price;
    LegMoves(d, taker, side, TakerReport(side, f), false, a);
    LegMoves(d1, maker, side.Opposite(), MakerReport(side, f), f.makerLeaves == 0, a);
    var x: int := if a == taker then (if side.Buy? then q else 0 - q) else 0;
    var y: int := if a == taker then (if side.Buy? then -paid else paid) else 0;
    assert Shows64(d1.accounts[a].shares, was.shares + x) && Shows64(d1.accounts[a].capital, was.capital + y);
    if a == maker {
      var d2 := ApplyFill(d, taker, side, maker, f);
      ShowsThen(d2.accounts[a].shares, d1.accounts[a].shares, was.shares + x, if side.Buy? then 0 - q else q);
      ShowsThen(d2.accounts[a].capital, d1.accounts[a].capital, was.capital + y, if side.Buy? then paid else -paid);
    }
  }

  /** Every connection gets exactly the reports of the executions its account takes part in, in order,
      and of a self-trade both. */
  lemma {:induction false} FillsSend(d: Desk, taker: Username, side: Side, owner: map<UID, Username>, s: seq<Entry>,
                                     quantity: Quantity, fills: seq<Fill>, c: ConnectionId)
    requires ByList(s, quantity, fills) && c in d.connections
    requires forall i | 0 <= i < |fills| :: fills[i].uid in owner
    ensures var d' := ApplyFills(d, taker, side, owner, fills);
      && c in d'.connections
      && Sent(d'.connections[c]) ==
           Sent(d.connections[c]) + ReportsTo(d, c, taker, side, owner, s, quantity, |fills|)
  {
    hide ApplyFill, Sent, Handles, SameSessions, TradedAt, Coming;
    if fills == [] {
      assert Sent(d.connections[c]) + [] == Sent(d.connections[c]);
    } else {
      var n := |fills| - 1;
      var before := ApplyFills(d, taker, side, owner, fills[..n]);
      FillsSend(d, taker, side, owner, s, quantity, fills[..n], c);
      FillsSameSessions(d, taker, side, owner, fills[..n]);
      SameHandlers(d, before);
      FillSends(before, taker, side, owner[fills[n].uid], fills[n], c);
      assert fills[n].uid == s[n].uid;
    }
  }

  /** Every account's shares and capital show exactly what its executions move, as long as they fit, and
      otherwise the 64-bit value congruent to that. */
  lemma {:induction false} FillsMove(d: Desk, taker: Username, side: Side, owner: map<UID, Username>, s: seq<Entry>,
                                     quantity: Quantity, fills: seq<Fill>, a: Username)
    requires ByList(s, quantity, fills) && a in d.accounts
    requires forall i | 0 <= i < |fills| :: fills[i].uid in owner
    requires InWidth(d.accounts[a])
    ensures var d' := ApplyFills(d, taker, side, owner, fills);
      && a in d'.accounts
      && Shows64(d'.accounts[a].shares,
                 d.accounts[a].shares + SharesGained(a, taker, side, owner, s, quantity, |fills|))
      && Shows64(d'.accounts[a].capital,
                 d.accounts[a].capital + CapitalGained(a, taker, side, owner, s, quantity, |fills|))
  {
    hide ApplyFill, Shows64, TradedAt, Coming;
    if fills != [] {
      var n := |fills| - 1;
      var before, after := ApplyFills(d, taker, side, owner, fills[..n]), ApplyFills(d, taker, side, owner, fills);
      FillsMove(d, taker, side, owner, s, quantity, fills[..n], a);
      var was, mid := d.accounts[a], before.accounts[a];
      var shares := SharesGained(a, taker, side, owner, s, quantity, n);
      var capital := CapitalGained(a, taker, side, owner, s, quantity, n);
      ShowsItself(mid.shares, was.shares + shares);
      ShowsItself(mid.capital, was.capital + capital);
      FillMoves(before, taker, side, owner[fills[n].uid], fills[n], a);
      var now := after.accounts[a];
      ShowsThen(now.shares, mid.shares, was.shares + shares,
                SharesGained(a, taker, side, owner, s, quantity, n + 1) - shares);
      ShowsThen(now.capital, mid.capital, was.capital + capital,
                CapitalGained(a, taker, side, owner, s, quantity, n + 1) - capital);
    }
  }

  // ---------------------------------------------------------------------------
  // The leaves add up
  // ---------------------------------------------------------------------------

  function TradedBefore(s: seq<Entry>, quantity: Quantity, i: nat): nat
    requires i <= |s|
  {
    if i == 0 then 0 else TradedBefore(s, quantity, i - 1) + TradedAt(s, quantity, i - 1)
  }

  /** What is coming when the i-th order's turn comes is what came in minus everything traded before. */
  lemma {:induction false} ComingIsLeft(s: seq<Entry>, quantity: Quantity, i: nat)
    requires i <= |s|
    ensures TradedBefore(s, quantity, i) + Coming(s, quantity, i) == quantity
  {
    hide Volume;
    VolumeNone();
    if i == 0 {
      assert s[..i] == [];
    } else {
      ComingIsLeft(s, quantity, i - 1);
      assert s[..i] == s[..i - 1] + [s[i - 1]];
      VolumeConcat(s[..i - 1], [s[i - 1]]);
      Alone(s[i - 1], 0);
    }
  }

  /** When the incoming order's account trades with others only, the i-th report its connection gets is
      the i-th execution's, with the submitted quantity minus everything traded up to it as leaves. */
  lemma {:induction false} IthReport(d: Desk, c: ConnectionId, taker: Username, side: Side, owner: map<UID, Username>,
                                     s: seq<Entry>, quantity: Quantity, n: nat, i: nat)
    requires i < n <= |s| && Handles(d, taker, c)
    requires forall j | 0 <= j < n && s[j].uid in owner :: !Handles(d, owner[s[j].uid], c)
    ensures var reports := ReportsTo(d, c, taker, side, owner, s, quantity, n);
      && |reports| == n && TradedBefore(s, quantity, i + 1) <= quantity
      && reports[i] == TradeResponse(0, s[i].price, TradedAt(s, quantity, i),
                                     quantity - TradedBefore(s, quantity, i + 1), side)
  {
    hide Handles, Coming, TradedAt;
    ComingIsLeft(s, quantity, i + 1);
    ComingIsLeft(s, quantity, i);
    ReportCount(d, c, taker, side, owner, s, quantity, n - 1);
    if i < n - 1 {
      IthReport(d, c, taker, side, owner, s, quantity, n - 1, i);
    }
  }

  lemma {:induction false} ReportCount(d: Desk, c: ConnectionId, taker: Username, side: Side, owner: map<UID, Username>,
                                       s: seq<Entry>, quantity: Quantity, n: nat)
    requires n <= |s| && Handles(d, taker, c)
    requires forall j | 0 <= j < n && s[j].uid in owner :: !Handles(d, owner[s[j].uid], c)
    ensures |ReportsTo(d, c, taker, side, owner, s, quantity, n)| == n
  {
    hide Handles, Coming, TradedAt;
    if n > 0 {
      ReportCount(d, c, taker, side, owner, s, quantity, n - 1);
    }
  }
}
