/**
 The vocabulary shared by the matching engine, the data feed and the order-entry sessions.
 Prices and quantities keep the source's widths as subset types.
 */
module MarketTypes {

  const TWO_32: nat := 0x1_0000_0000
  const TWO_64: nat := 0x1_0000_0000_0000_0000

  type UID = nat
  type Quantity = q: nat | q < TWO_32
  type Price = p: nat | p < TWO_64
  type Username = string
  type ConnectionId = nat

  datatype Option<+T> = None | Some(value: T)

  datatype Side = Sell | Buy {
    function Opposite(): Side {
      if Sell? then Buy else Sell
    }
  }

  /** One resting order as market participants see it. */
  datatype Entry = Entry(uid: UID, price: Price, quantity: Quantity)

  /** One execution of an incoming order against a resting one. The leaves fields are
      what remains of the resting and of the incoming order once it has happened. */
  datatype Fill = Fill(uid: UID, price: Price, quantity: Quantity, makerLeaves: Quantity, takerLeaves: Quantity)

  datatype FeedMessage =
    | StartOfSession
    | EndOfSession
    | AddOrder(uid: UID, price: Price, quantity: Quantity, side: Side)
    | DeleteOrder(uid: UID)
    | Trade(uid: UID, price: Price, quantity: Quantity, side: Side)
    | Clear

  function Min(a: int, b: int): int {
    if a <= b then a else b
  }
}
