/**
 The accounts of the venue and the connections that act as their trade handlers. A pointer
 to an account is its user name, a pointer to a connection its number.
 */
module Desks {
  import opened MarketTypes
  import opened Protocol
  import opened Outboxes
  import opened Sweeps

  datatype Account = Account(
    password: string, shares: int, capital: int, orders: set<UID>,
    handler: Option<ConnectionId>, isConnected: bool)

  datatype Connection = Connection(open: bool, account: Option<Username>, outbox: Outbox<Response>)

  datatype Desk = Desk(accounts: map<Username, Account>, connections: map<ConnectionId, Connection>)

  function Sent(c: Connection): seq<Response> {
    Bodies(c.outbox.enqueued)
  }

  // ---------------------------------------------------------------------------
  // Effects on accounts and connections
  // ---------------------------------------------------------------------------

  function Booked(a: Account, side: Side, quantity: Quantity, price: Price): Account {
    var sign := if side.Buy? then 1 else -1;
    a.(shares := Signed64(a.shares + sign * quantity), capital := Signed64(a.capital - sign * Cost(quantity, price)))
  }

  function SetAccount(d: Desk, name: Username, a: Account): Desk {
    d.(accounts := d.accounts[name := a])
  }

  function Hold(d: Desk, name: Username, uid: UID): Desk {
    if name in d.accounts then SetAccount(d, name, d.accounts[name].(orders := d.accounts[name].orders + {uid})) else d
  }

  function Release(d: Desk, name: Username, uid: UID): Desk {
    if name in d.accounts then SetAccount(d, name, d.accounts[name].(orders := d.accounts[name].orders - {uid})) else d
  }

  function Respond(d: Desk, c: ConnectionId, r: Response): Desk {
    if c in d.connections
    then d.(connections := d.connections[c := d.connections[c].(outbox := Send(d.connections[c].outbox, r))])
    else d
  }

  /** Report a trade to the connection that handles the account, if there is one. */
  function Report(d: Desk, name: Username, r: Response): Desk {
    if name in d.accounts && d.accounts[name].handler.Some? then Respond(d, d.accounts[name].handler.value, r) else d
  }

  /** One account's part in an execution: book it, drop the order if it is used up, report it. */
  function Leg(d: Desk, name: Username, side: Side, r: Response, release: bool): Desk
    requires r.TradeResponse?
  {
    if name !in d.accounts then d
    else
      var a := d.accounts[name];
      var kept := if release then a.(orders := a.orders - {r.orderId}) else a;
      Report(SetAccount(d, name, Booked(kept, side, r.quantity, r.price)), name, r)
  }

  function TakerReport(side: Side, f: Fill): Response {
    TradeResponse(0, f.price, f.quantity, f.takerLeaves, side)
  }

  function MakerReport(side: Side, f: Fill): Response {
    TradeResponse(f.uid, f.price, f.quantity, f.makerLeaves, side.Opposite())
  }

  /** One execution, the incoming order's account first. */
  function ApplyFill(d: Desk, taker: Username, side: Side, maker: Username, f: Fill): Desk {
    Leg(Leg(d, taker, side, TakerReport(side, f), false), maker, side.Opposite(), MakerReport(side, f),
        f.makerLeaves == 0)
  }

  function OwnerOf(owner: map<UID, Username>, uid: UID): Username {
    if uid in owner then owner[uid] else ""
  }

  function ApplyFills(d: Desk, taker: Username, side: Side, owner: map<UID, Username>, fills: seq<Fill>): Desk {
    if fills == [] then d
    else
      var n := |fills| - 1;
      ApplyFill(ApplyFills(d, taker, side, owner, fills[..n]), taker, side, OwnerOf(owner, fills[n].uid), fills[n])
  }

  lemma ApplyFillsOne(d: Desk, taker: Username, side: Side, owner: map<UID, Username>, fills: seq<Fill>, f: Fill)
    ensures ApplyFills(d, taker, side, owner, fills + [f]) ==
            ApplyFill(ApplyFills(d, taker, side, owner, fills), taker, side, OwnerOf(owner, f.uid), f)
  {
    assert (fills + [f])[..|fills|] == fills;
  }

  // ---------------------------------------------------------------------------
  // Sessions
  // ---------------------------------------------------------------------------

  /** An account is marked connected exactly when one connection holds it, and that connection
      is its handler. */
  predicate SessionsOk(d: Desk) {
    && (forall a | a in d.accounts ::
          && (d.accounts[a].isConnected <==> d.accounts[a].handler.Some?)
          && (d.accounts[a].handler.Some? ==>
                && d.accounts[a].handler.value in d.connections
                && d.connections[d.accounts[a].handler.value].account == Some(a)))
    && (forall c | c in d.connections && d.connections[c].account.Some? ::
          && d.connections[c].open
          && d.connections[c].account.value in d.accounts
          && d.accounts[d.connections[c].account.value].handler == Some(c))
  }

  /** No two connections ever hold the same account. */
  lemma SessionsExclusive(d: Desk, c: ConnectionId, c': ConnectionId)
    requires SessionsOk(d) && c in d.connections && c' in d.connections
    requires d.connections[c].account.Some? && d.connections[c].account == d.connections[c'].account
    ensures c == c' && d.accounts[d.connections[c].account.value].isConnected
  {
    assert d.accounts[d.connections[c].account.value].handler == Some(c);
  }

  /** Nobody logged in or out. */
  predicate SameSessions(d: Desk, d': Desk) {
    && d'.accounts.Keys == d.accounts.Keys && d'.connections.Keys == d.connections.Keys
    && (forall a | a in d.accounts ::
          && d'.accounts[a].handler == d.accounts[a].handler
          && d'.accounts[a].isConnected == d.accounts[a].isConnected
          && d'.accounts[a].password == d.accounts[a].password)
    && (forall c | c in d.connections ::
          && d'.connections[c].open == d.connections[c].open
          && d'.connections[c].account == d.connections[c].account)
  }

  lemma SameSessionsOk(d: Desk, d': Desk)
    requires SessionsOk(d) && SameSessions(d, d')
    ensures SessionsOk(d')
  {
  }

  lemma RespondSameSessions(d: Desk, c: ConnectionId, r: Response)
    ensures SameSessions(d, Respond(d, c, r))
  {
  }

  lemma SetAccountSameSessions(d: Desk, name: Username, a: Account)
    requires name in d.accounts
    requires a == d.accounts[name].(orders := a.orders, shares := a.shares, capital := a.capital)
    ensures SameSessions(d, SetAccount(d, name, a))
  {
  }

  lemma SameSessionsTransitive(d: Desk, d': Desk, d'': Desk)
    requires SameSessions(d, d') && SameSessions(d', d'')
    ensures SameSessions(d, d'')
  {
  }

  lemma LegSameSessions(d: Desk, name: Username, side: Side, r: Response, release: bool)
    requires r.TradeResponse?
    ensures SameSessions(d, Leg(d, name, side, r, release))
  {
    hide SameSessions, SetAccount, Respond;
    SameSessionsReflexive(d);
    if name in d.accounts {
      var a := d.accounts[name];
      var a' := Booked(if release then a.(orders := a.orders - {r.orderId}) else a, side, r.quantity, r.price);
      var d' := SetAccount(d, name, a');
      SetAccountSameSessions(d, name, a');
      if name in d'.accounts && d'.accounts[name].handler.Some? {
        RespondSameSessions(d', d'.accounts[name].handler.value, r);
        SameSessionsTransitive(d, d', Respond(d', d'.accounts[name].handler.value, r));
      }
    }
  }

  lemma SameSessionsReflexive(d: Desk)
    ensures SameSessions(d, d)
  {
  }

  lemma FillSameSessions(d: Desk, taker: Username, side: Side, maker: Username, f: Fill)
    ensures SameSessions(d, ApplyFill(d, taker, side, maker, f))
  {
    hide SameSessions, Leg;
    var d' := Leg(d, taker, side, TakerReport(side, f), false);
    LegSameSessions(d, taker, side, TakerReport(side, f), false);
    LegSameSessions(d', maker, side.Opposite(), MakerReport(side, f), f.makerLeaves == 0);
    SameSessionsTransitive(d, d', ApplyFill(d, taker, side, maker, f));
  }

  lemma {:induction false} FillsSameSessions(d: Desk, taker: Username, side: Side, owner: map<UID, Username>,
                                             fills: seq<Fill>)
    ensures SameSessions(d, ApplyFills(d, taker, side, owner, fills))
  {
    hide SameSessions, ApplyFill;
    SameSessionsReflexive(d);
    if fills != [] {
      var n := |fills| - 1;
      FillsSameSessions(d, taker, side, owner, fills[..n]);
      FillSameSessions(ApplyFills(d, taker, side, owner, fills[..n]), taker, side, OwnerOf(owner, fills[n].uid),
                       fills[n]);
      SameSessionsTransitive(d, ApplyFills(d, taker, side, owner, fills[..n]),
                             ApplyFills(d, taker, side, owner, fills));
    }
  }

  // ---------------------------------------------------------------------------
  // Order sets
  // ---------------------------------------------------------------------------

  /** Every account holds exactly the resting orders it owns. */
  ghost predicate HoldingsOk(d: Desk, owner: map<UID, Username>) {
    && (forall u | u in owner :: owner[u] in d.accounts)
    && forall a, u | a in d.accounts :: u in d.accounts[a].orders <==> u in owner && owner[u] == a
  }

  lemma LegOrders(d: Desk, name: Username, side: Side, r: Response, release: bool, a: Username)
    requires r.TradeResponse? && a in d.accounts
    ensures var d' := Leg(d, name, side, r, release);
      && a in d'.accounts
      && d'.accounts[a].orders ==
           if a == name && release then d.accounts[a].orders - {r.orderId} else d.accounts[a].orders
  {
  }

  lemma FillOrders(d: Desk, taker: Username, side: Side, maker: Username, f: Fill, a: Username)
    requires a in d.accounts
    ensures var d' := ApplyFill(d, taker, side, maker, f);
      && a in d'.accounts
      && d'.accounts[a].orders ==
           if a == maker && f.makerLeaves == 0 then d.accounts[a].orders - {f.uid} else d.accounts[a].orders
  {
    hide Leg;
    var d' := Leg(d, taker, side, TakerReport(side, f), false);
    LegOrders(d, taker, side, TakerReport(side, f), false, a);
    LegOrders(d', maker, side.Opposite(), MakerReport(side, f), f.makerLeaves == 0, a);
  }

  lemma FillKeepsHoldings(d: Desk, taker: Username, side: Side, owner: map<UID, Username>, f: Fill)
    requires HoldingsOk(d, owner) && f.uid in owner
    ensures HoldingsOk(ApplyFill(d, taker, side, owner[f.uid], f),
                       if f.makerLeaves == 0 then owner - {f.uid} else owner)
  {
    hide ApplyFill;
    var d' := ApplyFill(d, taker, side, owner[f.uid], f);
    FillSameSessions(d, taker, side, owner[f.uid], f);
    forall a | a in d.accounts
      ensures d'.accounts[a].orders ==
        if a == owner[f.uid] && f.makerLeaves == 0 then d.accounts[a].orders - {f.uid} else d.accounts[a].orders
    {
      FillOrders(d, taker, side, owner[f.uid], f, a);
    }
  }

  lemma {:induction false} FillsKeepHoldings(
      d: Desk, taker: Username, side: Side, owner: map<UID, Username>, fills: seq<Fill>)
    requires HoldingsOk(d, owner) && DistinctFills(fills)
    requires forall i | 0 <= i < |fills| :: fills[i].uid in owner
    ensures HoldingsOk(ApplyFills(d, taker, side, owner, fills), owner - UsedUp(fills))
  {
    hide HoldingsOk, ApplyFill, UsedUp;
    if fills == [] {
      UsedUpNone();
      assert owner - UsedUp([]) == owner;
    } else {
      var n := |fills| - 1;
      var f, before, left := fills[n], ApplyFills(d, taker, side, owner, fills[..n]), owner - UsedUp(fills[..n]);
      FillsKeepHoldings(d, taker, side, owner, fills[..n]);
      UsedUpMember(fills[..n], f.uid);
      assert left[f.uid] == owner[f.uid];
      FillKeepsHoldings(before, taker, side, left, f);
      UsedUpOne(fills);
      assert owner - UsedUp(fills) == if f.makerLeaves == 0 then left - {f.uid} else left;
    }
  }

  // ---------------------------------------------------------------------------
  // Conservation
  // ---------------------------------------------------------------------------

  function TotalShares(names: seq<Username>, accounts: map<Username, Account>): int
    requires forall i | 0 <= i < |names| :: names[i] in accounts
  {
    if names == [] then 0 else accounts[names[0]].shares + TotalShares(names[1..], accounts)
  }

  function TotalCapital(names: seq<Username>, accounts: map<Username, Account>): int
    requires forall i | 0 <= i < |names| :: names[i] in accounts
  {
    if names == [] then 0 else accounts[names[0]].capital + TotalCapital(names[1..], accounts)
  }

  /** `names` lists every account once. */
  predicate Roster(names: seq<Username>, accounts: map<Username, Account>) {
    && (forall i | 0 <= i < |names| :: names[i] in accounts)
    && (forall i, j | 0 <= i < j < |names| :: names[i] != names[j])
    && forall a | a in accounts :: a in names
  }

  lemma {:induction false} TotalsUpdate(
      names: seq<Username>, accounts: map<Username, Account>, name: Username, a: Account)
    requires name in accounts
    requires forall i | 0 <= i < |names| :: names[i] in accounts
    requires forall i, j | 0 <= i < j < |names| :: names[i] != names[j]
    ensures var delta := if name in names then 1 else 0;
      && TotalShares(names, accounts[name := a]) ==
           TotalShares(names, accounts) + delta * (a.shares - accounts[name].shares)
      && TotalCapital(names, accounts[name := a]) ==
           TotalCapital(names, accounts) + delta * (a.capital - accounts[name].capital)
  {
    if names != [] {
      TotalsUpdate(names[1..], accounts, name, a);
      assert forall i | 1 <= i < |names| :: names[i] == names[1..][i - 1];
    }
  }

  predicate SameTotals(names: seq<Username>, d: Desk, d': Desk) {
    && Roster(names, d.accounts) && Roster(names, d'.accounts)
    && Congruent(TotalShares(names, d'.accounts), TotalShares(names, d.accounts), TWO_64)
    && Congruent(TotalCapital(names, d'.accounts), TotalCapital(names, d.accounts), TWO_64)
  }

  /** The totals are not only congruent but the same. */
  predicate ExactTotals(names: seq<Username>, d: Desk, d': Desk) {
    && Roster(names, d.accounts) && Roster(names, d'.accounts)
    && TotalShares(names, d'.accounts) == TotalShares(names, d.accounts)
    && TotalCapital(names, d'.accounts) == TotalCapital(names, d.accounts)
  }

  predicate Fits64(x: int) {
    -(TWO_64 / 2) <= x < TWO_64 / 2
  }

  /** Booking this leg leaves the account's balances within 64 bits. */
  predicate LegFits(d: Desk, name: Username, side: Side, r: Response)
    requires r.TradeResponse?
  {
    name in d.accounts ==>
      var a, sign := d.accounts[name], if side.Buy? then 1 else -1;
      Fits64(a.shares + sign * r.quantity) && Fits64(a.capital - sign * Cost(r.quantity, r.price))
  }

  predicate FillFits(d: Desk, taker: Username, side: Side, maker: Username, f: Fill) {
    && LegFits(d, taker, side, TakerReport(side, f))
    && LegFits(Leg(d, taker, side, TakerReport(side, f), false), maker, side.Opposite(), MakerReport(side, f))
  }

  /** No booking of these executions leaves 64 bits. */
  predicate FillsFit(d: Desk, taker: Username, side: Side, owner: map<UID, Username>, fills: seq<Fill>) {
    fills == [] ||
    var n := |fills| - 1;
    && FillsFit(d, taker, side, owner, fills[..n])
    && FillFits(ApplyFills(d, taker, side, owner, fills[..n]), taker, side, OwnerOf(owner, fills[n].uid), fills[n])
  }

  lemma SignedFits(x: int)
    requires Fits64(x)
    ensures Signed64(x) == x
  {
  }

  lemma LegAccount(d: Desk, name: Username, side: Side, r: Response, release: bool) returns (a': Account)
    requires r.TradeResponse? && name in d.accounts
    ensures Leg(d, name, side, r, release).accounts == d.accounts[name := a']
    ensures var a, sign := d.accounts[name], if side.Buy? then 1 else -1;
      && a'.shares == Signed64(a.shares + sign * r.quantity)
      && a'.capital == Signed64(a.capital - sign * Cost(r.quantity, r.price))
  {
    var a := d.accounts[name];
    a' := Booked(if release then a.(orders := a.orders - {r.orderId}) else a, side, r.quantity, r.price);
  }

  /** What booking one leg of a trade adds to the totals, up to a multiple of 2^64. */
  lemma LegTotals(names: seq<Username>, d: Desk, name: Username, side: Side, r: Response, release: bool)
    requires r.TradeResponse? && Roster(names, d.accounts) && name in d.accounts
    ensures var d' := Leg(d, name, side, r, release);
      var sign := if side.Buy? then 1 else -1;
      && Roster(names, d'.accounts)
      && Congruent(TotalShares(names, d'.accounts), TotalShares(names, d.accounts) + sign * r.quantity, TWO_64)
      && Congruent(TotalCapital(names, d'.accounts),
                   TotalCapital(names, d.accounts) - sign * Cost(r.quantity, r.price), TWO_64)
      && (LegFits(d, name, side, r) ==>
            && TotalShares(names, d'.accounts) == TotalShares(names, d.accounts) + sign * r.quantity
            && TotalCapital(names, d'.accounts) == TotalCapital(names, d.accounts) - sign * Cost(r.quantity, r.price))
  {
    hide Leg, TotalShares, TotalCapital, Cost, Congruent, Signed64, Fits64;
    var a, sign := d.accounts[name], if side.Buy? then 1 else -1;
    var a' := LegAccount(d, name, side, r, release);
    TotalsUpdate(names, d.accounts, name, a');
    Signed64Congruent(a.shares + sign * r.quantity, 0);
    Signed64Congruent(a.capital - sign * Cost(r.quantity, r.price), 0);
    if LegFits(d, name, side, r) {
      SignedFits(a.shares + sign * r.quantity);
      SignedFits(a.capital - sign * Cost(r.quantity, r.price));
    }
    CongruentSum(TotalShares(names, d.accounts), a.shares, a'.shares, sign * r.quantity);
    CongruentSum(TotalCapital(names, d.accounts), a.capital, a'.capital, -sign * Cost(r.quantity, r.price));
  }

  /** An execution moves shares one way and capital the other between its two accounts, which
      may be the same account; the totals over all accounts do not change. */
  lemma FillSameTotals(names: seq<Username>, d: Desk, taker: Username, side: Side, maker: Username, f: Fill)
    requires Roster(names, d.accounts) && taker in d.accounts && maker in d.accounts
    ensures SameTotals(names, d, ApplyFill(d, taker, side, maker, f))
    ensures FillFits(d, taker, side, maker, f) ==> ExactTotals(names, d, ApplyFill(d, taker, side, maker, f))
  {
    hide Leg, LegFits, Cost, Congruent, TotalShares, TotalCapital;
    var d' := Leg(d, taker, side, TakerReport(side, f), false);
    LegSameAccounts(d, taker, side, TakerReport(side, f), false);
    LegTotals(names, d, taker, side, TakerReport(side, f), false);
    LegTotals(names, d', maker, side.Opposite(), MakerReport(side, f), f.makerLeaves == 0);
    var sign := if side.Buy? then 1 else -1;
    var d'' := ApplyFill(d, taker, side, maker, f);
    CongruentBack(TotalShares(names, d.accounts), TotalShares(names, d'.accounts), TotalShares(names, d''.accounts),
                  sign * f.quantity);
    CongruentBack(TotalCapital(names, d.accounts), TotalCapital(names, d'.accounts), TotalCapital(names, d''.accounts),
                  -sign * Cost(f.quantity, f.price));
  }

  lemma LegSameAccounts(d: Desk, name: Username, side: Side, r: Response, release: bool)
    requires r.TradeResponse?
    ensures Leg(d, name, side, r, release).accounts.Keys == d.accounts.Keys
  {
    LegSameSessions(d, name, side, r, release);
  }

  lemma {:induction false} FillsSameTotals(
      names: seq<Username>, d: Desk, taker: Username, side: Side, owner: map<UID, Username>, fills: seq<Fill>)
    requires Roster(names, d.accounts) && taker in d.accounts
    requires forall i | 0 <= i < |fills| :: fills[i].uid in owner && owner[fills[i].uid] in d.accounts
    ensures SameTotals(names, d, ApplyFills(d, taker, side, owner, fills))
    ensures FillsFit(d, taker, side, owner, fills) ==> ExactTotals(names, d, ApplyFills(d, taker, side, owner, fills))
  {
    hide ApplyFill, FillFits, Roster, TotalShares, TotalCapital;
    if fills != [] {
      var n := |fills| - 1;
      var before := ApplyFills(d, taker, side, owner, fills[..n]);
      FillsSameTotals(names, d, taker, side, owner, fills[..n]);
      FillsSameSessions(d, taker, side, owner, fills[..n]);
      FillSameTotals(names, before, taker, side, owner[fills[n].uid], fills[n]);
    }
  }
}
