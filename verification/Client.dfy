/** The client's picture of its account, built only from the responses it receives. */
module Clients {
  import opened MarketTypes
  import opened Protocol

  datatype ClientState = ClientState(isAuthorized: bool, activeOrders: set<UID>, shares: int, capital: int)

  function Handle(s: ClientState, r: Response): ClientState {
    match r
    case LoginResponse(login) => s.(isAuthorized := login.LoginAccepted? || login.AlreadyAuthorized?)
    case LogoutResponse(_) => s.(isAuthorized := false, activeOrders := {})
    case OrderResponse(orderId, status) =>
      if status.Rejected? || orderId == 0 then s else s.(activeOrders := s.activeOrders + {orderId})
    case CancelResponse(orderId, status) =>
      if status.Rejected? then s else s.(activeOrders := s.activeOrders - {orderId})
    case ReplaceResponse(canceled, newOrderId, status) =>
      if status.Rejected? then s
      else
        var kept := if canceled != 0 then s.activeOrders - {canceled} else s.activeOrders;
        s.(activeOrders := if newOrderId != 0 then kept + {newOrderId} else kept)
    case PurgeResponse(status) =>
      if status.Rejected? then s else s.(activeOrders := {})
    case TradeResponse(orderId, price, quantity, leaves, side) =>
      var sign := if side.Buy? then 1 else -1;
      ClientState(s.isAuthorized,
                  if orderId != 0 && leaves == 0 then s.activeOrders - {orderId} else s.activeOrders,
                  Signed32(s.shares + sign * quantity), Signed64(s.capital - sign * Cost(quantity, price)))
  }

  /** What a response makes of the client, field by field, in plain arithmetic. */
  ghost predicate Understood(s: ClientState, r: Response, t: ClientState) {
    && t.isAuthorized == (match r
                          case LoginResponse(login) => login == LoginAccepted || login == AlreadyAuthorized
                          case LogoutResponse(_) => false
                          case _ => s.isAuthorized)
    && (forall u :: u in t.activeOrders <==>
          match r
          case LogoutResponse(_) => false
          case OrderResponse(id, status) => u in s.activeOrders || (status == Accepted && id != 0 && u == id)
          case CancelResponse(id, status) => u in s.activeOrders && !(status == Accepted && u == id)
          case ReplaceResponse(canceled, id, status) =>
            if status == Rejected then u in s.activeOrders
            else (id != 0 && u == id) || (u in s.activeOrders && !(canceled != 0 && u == canceled))
          case PurgeResponse(status) => u in s.activeOrders && status == Rejected
          case TradeResponse(id, _, _, leaves, _) => u in s.activeOrders && !(id != 0 && leaves == 0 && u == id)
          case LoginResponse(_) => u in s.activeOrders)
    && match r
       case TradeResponse(_, price, quantity, _, side) =>
         && Shows32(t.shares, if side.Buy? then s.shares + quantity else s.shares - quantity)
         && Shows64(t.capital, if side.Buy? then s.capital - quantity * price else s.capital + quantity * price)
       case _ => t.shares == s.shares && t.capital == s.capital
  }

  lemma HandleUnderstood(s: ClientState, r: Response)
    ensures Understood(s, r, Handle(s, r))
  {
    hide Shows32, Shows64, Signed32, Signed64, Cost;
    if r.TradeResponse? {
      SignedShows32(s.shares + r.quantity);
      SignedShows32(s.shares - r.quantity);
      CostShows(s.capital, r.quantity, r.price);
    }
  }

  function Fold(s: ClientState, responses: seq<Response>): ClientState {
    if responses == [] then s
    else Handle(Fold(s, responses[..|responses| - 1]), responses[|responses| - 1])
  }

  lemma FoldOne(s: ClientState, responses: seq<Response>, r: Response)
    ensures Fold(s, responses + [r]) == Handle(Fold(s, responses), r)
  {
    assert (responses + [r])[..|responses|] == responses;
  }

  /** Delivered responses first, then those still queued: the same as all of them in order. */
  lemma {:induction false} FoldConcat(s: ClientState, a: seq<Response>, b: seq<Response>)
    ensures Fold(s, a + b) == Fold(Fold(s, a), b)
  {
    if b == [] {
      assert a + b == a;
    } else {
      var n := |b| - 1;
      assert (a + b)[..|a + b| - 1] == a + b[..n];
      FoldConcat(s, a, b[..n]);
    }
  }

  class Client {
    var isAuthorized: bool
    var activeOrders: set<UID>
    var shares: int
    var capital: int

    function State(): ClientState
      reads this
    {
      ClientState(isAuthorized, activeOrders, shares, capital)
    }

    constructor ()
      ensures State() == ClientState(false, {}, 0, 0)
    {
      isAuthorized, activeOrders, shares, capital := false, {}, 0, 0;
    }

    method Receive(r: Response)
      modifies this
      ensures State() == Handle(old(State()), r) && Understood(old(State()), r, State())
    {
      hide Understood;
      HandleUnderstood(State(), r);
      match r {
        case LoginResponse(login) =>
          match login {
            case LoginAccepted => isAuthorized := true;
            case NotAuthorized => isAuthorized := false;
            case AlreadyAuthorized => isAuthorized := true;
            case SessionInUse => isAuthorized := false;
          }
        case LogoutResponse(_) =>
          isAuthorized := false;
          activeOrders := {};
        case OrderResponse(orderId, status) =>
          if status.Rejected? || orderId == 0 {
            return;
          }
          activeOrders := activeOrders + {orderId};
        case CancelResponse(orderId, status) =>
          if status.Rejected? {
            return;
          }
          activeOrders := activeOrders - {orderId};
        case ReplaceResponse(canceled, newOrderId, status) =>
          if status.Rejected? {
            return;
          }
          if canceled != 0 {
            activeOrders := activeOrders - {canceled};
          }
          if newOrderId != 0 {
            activeOrders := activeOrders + {newOrderId};
          }
        case PurgeResponse(status) =>
          if status.Rejected? {
            return;
          }
          activeOrders := {};
        case TradeResponse(orderId, price, quantity, leaves, side) =>
          match side {
            case Sell =>
              shares := Signed32(shares - quantity);
              capital := Signed64(capital + Cost(quantity, price));
            case Buy =>
              shares := Signed32(shares + quantity);
              capital := Signed64(capital - Cost(quantity, price));
          }
          if orderId != 0 && leaves == 0 {
            activeOrders := activeOrders - {orderId};
          }
      }
    }

    /** Read responses one after the other. */
    method ReceiveAll(responses: seq<Response>)
      modifies this
      ensures State() == Fold(old(State()), responses)
    {
      hide Handle;
      var n := 0;
      while n < |responses|
        invariant n <= |responses| && State() == Fold(old(State()), responses[..n])
      {
        assert responses[..n + 1] == responses[..n] + [responses[n]];
        FoldOne(old(State()), responses[..n], responses[n]);
        Receive(responses[n]);
        n := n + 1;
      }
      assert responses[..n] == responses;
    }
  }
}
