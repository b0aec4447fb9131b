/**
 The accounts and connections, updated in place. The four fill operations mirror the account's
 virtual methods; each books the trade and reports it to the handling connection, if any.
 */
module Registries {
  import opened MarketTypes
  import opened Protocol
  import opened Outboxes
  import opened Desks

  class Registry {
    var accounts: map<Username, Account>
    var connections: map<ConnectionId, Connection>

    function Contents(): Desk
      reads this
    {
      Desk(accounts, connections)
    }

    /** The accounts of the configuration, nobody connected, nothing resting. */
    constructor (passwords: map<Username, string>)
      ensures connections == map[] && accounts.Keys == passwords.Keys
      ensures forall a | a in accounts :: accounts[a] == Account(passwords[a], 0, 0, {}, None, false)
    {
      accounts := map a | a in passwords :: Account(passwords[a], 0, 0, {}, None, false);
      connections := map[];
    }

    method Fill(name: Username, side: Side, quantity: Quantity, price: Price)
      requires name in accounts
      modifies this`accounts
      ensures accounts == old(accounts)[name := Booked(old(accounts)[name], side, quantity, price)]
      ensures var was, now := old(accounts)[name], accounts[name];
        && now == was.(shares := now.shares, capital := now.capital)
        && Shows64(now.shares, if side.Buy? then was.shares + quantity else was.shares - quantity)
        && Shows64(now.capital, if side.Buy? then was.capital - quantity * price else was.capital + quantity * price)
    {
      hide Shows64, Signed64, Cost;
      SignedShows64(accounts[name].shares + quantity);
      SignedShows64(accounts[name].shares - quantity);
      CostShows(accounts[name].capital, quantity, price);
      var a := accounts[name];
      match side {
        case Sell =>
          a := a.(shares := Signed64(a.shares - quantity), capital := Signed64(a.capital + Cost(quantity, price)));
        case Buy =>
          a := a.(shares := Signed64(a.shares + quantity), capital := Signed64(a.capital - Cost(quantity, price)));
      }
      accounts := accounts[name := a];
    }

    /** Number and queue a response; start writing if it is the first one waiting. */
    method Tell(c: ConnectionId, r: Response)
      modifies this`connections
      ensures Contents() == Respond(old(Contents()), c, r)
    {
      if c !in connections {
        return;
      }
      var connection := connections[c];
      var o := connection.outbox;
      var packet := Packet(o.sequence, r);
      o := o.(sequence := (o.sequence + 1) % TWO_32, queue := o.queue + [packet], enqueued := o.enqueued + [packet]);
      o := o.(size := (o.size + 1) % TWO_32);
      if o.size == 1 {
        o := o.(inFlight := o.inFlight + [o.queue[0]]);
      }
      connections := connections[c := connection.(outbox := o)];
    }

    /** A write has completed: drop the front and start the next one, if any. */
    method Completed(c: ConnectionId)
      requires c in connections
      modifies this`connections
      ensures connections == old(connections)[c := old(connections)[c].(outbox := Complete(old(connections)[c].outbox))]
    {
      hide Send;
      var connection := connections[c];
      var o := connection.outbox;
      if o.inFlight == [] || o.queue == [] {
        assert connections == connections[c := connection];
        return;
      }
      o := o.(wire := o.wire + [o.inFlight[0]], inFlight := o.inFlight[1..], queue := o.queue[1..]);
      o := o.(size := (o.size + TWO_32 - 1) % TWO_32);
      if o.size != 0 && o.queue != [] {
        o := o.(inFlight := o.inFlight + [o.queue[0]]);
      } else {
        assert o.inFlight + [] == o.inFlight;
      }
      connections := connections[c := connection.(outbox := o)];
    }

    method ReportTrade(name: Username, r: Response)
      requires name in accounts
      modifies this`connections
      ensures Contents() == Report(old(Contents()), name, r)
    {
      if accounts[name].handler.Some? {
        Tell(accounts[name].handler.value, r);
      }
    }

    method LimitFill(name: Username, uid: UID, side: Side, quantity: Quantity, price: Price)
      requires name in accounts
      modifies this
      ensures Contents() == Leg(old(Contents()), name, side, TradeResponse(uid, price, quantity, 0, side), true)
    {
      Drop(name, uid);
      Fill(name, side, quantity, price);
      ReportTrade(name, TradeResponse(uid, price, quantity, 0, side));
    }

    method LimitPartial(name: Username, uid: UID, side: Side, traded: Quantity, left: Quantity, price: Price)
      requires name in accounts
      modifies this
      ensures Contents() == Leg(old(Contents()), name, side, TradeResponse(uid, price, traded, left, side), false)
    {
      Fill(name, side, traded, price);
      ReportTrade(name, TradeResponse(uid, price, traded, left, side));
    }

    method MarketFill(name: Username, side: Side, quantity: Quantity, price: Price)
      requires name in accounts
      modifies this
      ensures Contents() == Leg(old(Contents()), name, side, TradeResponse(0, price, quantity, 0, side), false)
    {
      Fill(name, side, quantity, price);
      ReportTrade(name, TradeResponse(0, price, quantity, 0, side));
    }

    method MarketPartial(name: Username, side: Side, traded: Quantity, left: Quantity, price: Price)
      requires name in accounts
      modifies this
      ensures Contents() == Leg(old(Contents()), name, side, TradeResponse(0, price, traded, left, side), false)
    {
      Fill(name, side, traded, price);
      ReportTrade(name, TradeResponse(0, price, traded, left, side));
    }

    method Keep(name: Username, uid: UID)
      requires name in accounts
      modifies this`accounts
      ensures Contents() == Hold(old(Contents()), name, uid)
      ensures accounts.Keys == old(accounts.Keys)
    {
      accounts := accounts[name := accounts[name].(orders := accounts[name].orders + {uid})];
    }

    method Drop(name: Username, uid: UID)
      requires name in accounts
      modifies this`accounts
      ensures Contents() == Release(old(Contents()), name, uid)
      ensures accounts.Keys == old(accounts.Keys)
    {
      accounts := accounts[name := accounts[name].(orders := accounts[name].orders - {uid})];
    }
  }
}
