/** The order-entry messages and the machine arithmetic of balances. */
module Protocol {
  import opened MarketTypes

  datatype Status = Accepted | Rejected
  datatype LoginStatus = LoginAccepted | NotAuthorized | AlreadyAuthorized | SessionInUse
  datatype LogoutReason = UserRequested | ProtocolViolation

  /** Order ID 0 stands for a market order, for a limit order filled on entry and for a rejection. */
  datatype Response =
    | LoginResponse(login: LoginStatus)
    | LogoutResponse(reason: LogoutReason)
    | OrderResponse(orderId: UID, status: Status)
    | CancelResponse(orderId: UID, status: Status)
    | ReplaceResponse(canceled: UID, newOrderId: UID, status: Status)
    | PurgeResponse(status: Status)
    | TradeResponse(orderId: UID, price: Price, quantity: Quantity, leaves: Quantity, side: Side)

  /** A purge walks the account's set of order pointers in address order, which nothing in the
      system fixes; `picks` is that order. */
  datatype Request =
    | LoginRequest(username: Username, password: string)
    | LogoutRequest
    | OrderRequest(side: Side, quantity: Quantity, price: Price)
    | CancelRequest(orderId: UID)
    | ReplaceRequest(orderId: UID, side: Side, quantity: Quantity, price: Price)
    | PurgeRequest(picks: seq<UID>)
    | InvalidRequest

  /** Two's complement reading of x in 64 or 32 bits. */
  function Signed64(x: int): int {
    (x + TWO_64 / 2) % TWO_64 - TWO_64 / 2
  }

  function Signed32(x: int): int {
    (x + TWO_32 / 2) % TWO_32 - TWO_32 / 2
  }

  /** The unsigned 64-bit product of a quantity and a price. */
  function Cost(quantity: Quantity, price: Price): nat {
    (quantity * price) % TWO_64
  }

  predicate Congruent(a: int, b: int, m: nat)
    requires m > 0
  {
    (a - b) % m == 0
  }

  /** The two's complement reading is some number of widths away. */
  lemma Wrapped64(x: int) returns (k: int)
    ensures Signed64(x) - x == k * TWO_64
  {
    k := -((x + TWO_64 / 2) / TWO_64);
  }

  lemma Wrapped32(x: int) returns (k: int)
    ensures Signed32(x) - x == k * TWO_32
  {
    k := -((x + TWO_32 / 2) / TWO_32);
  }

  lemma Signed64Congruent(x: int, y: int)
    ensures Congruent(Signed64(x), x, TWO_64)
    ensures Congruent(x, y, TWO_64) ==> Congruent(Signed64(x), y, TWO_64) && Congruent(x, Signed64(y), TWO_64)
  {
    hide Signed64, Congruent;
    var i := Wrapped64(x);
    var j := Wrapped64(y);
    Together64(Signed64(x), x, i);
    if Congruent(x, y, TWO_64) {
      var k := Apart(x, y, TWO_64);
      Together64(Signed64(x), y, i + k);
      Together64(x, Signed64(y), k - j);
    }
  }

  lemma Signed32Congruent(x: int, y: int)
    ensures Congruent(Signed32(x), x, TWO_32)
    ensures Congruent(x, y, TWO_32) ==> Congruent(Signed32(x), y, TWO_32)
  {
    hide Signed32, Congruent;
    var i := Wrapped32(x);
    Together32(Signed32(x), x, i);
    if Congruent(x, y, TWO_32) {
      var k := Apart(x, y, TWO_32);
      Together32(Signed32(x), y, i + k);
    }
  }

  lemma NarrowCongruent(x: int)
    ensures Congruent(Signed64(x), x, TWO_32)
  {
    hide Signed64, Congruent;
    var i := Wrapped64(x);
    Together32(Signed64(x), x, i * TWO_32);
  }

  /** How many widths apart two congruent numbers are. */
  lemma Apart(a: int, b: int, m: nat) returns (k: int)
    requires m > 0 && Congruent(a, b, m)
    ensures a - b == k * m
  {
    k := (a - b) / m;
  }

  lemma Together32(a: int, b: int, k: int)
    requires a - b == k * TWO_32
    ensures Congruent(a, b, TWO_32)
  {
  }

  lemma Together64(a: int, b: int, k: int)
    requires a - b == k * TWO_64
    ensures Congruent(a, b, TWO_64)
  {
  }

  /** Changing one summand changes the sum alike. */
  lemma CongruentSum(total: int, s: int, s': int, x: int)
    requires Congruent(s', s + x, TWO_64)
    ensures Congruent(total + (s' - s), total + x, TWO_64)
  {
    var k := Apart(s', s + x, TWO_64);
    Together64(total + (s' - s), total + x, k);
  }

  /** There and back again. */
  lemma CongruentBack(a: int, b: int, c: int, x: int)
    requires Congruent(b, a + x, TWO_64) && Congruent(c, b - x, TWO_64)
    ensures Congruent(c, a, TWO_64)
  {
    var i := Apart(b, a + x, TWO_64);
    var j := Apart(c, b - x, TWO_64);
    Together64(c, a, i + j);
  }

  // ---------------------------------------------------------------------------
  // What a variable of fixed width shows
  // ---------------------------------------------------------------------------

  /** How a 64-bit signed variable shows an exact value: the value itself if it fits, and otherwise
      the one value of that width that is congruent to it. */
  predicate Shows64(now: int, exact: int) {
    && -0x8000_0000_0000_0000 <= now < 0x8000_0000_0000_0000
    && (now - exact) % 0x1_0000_0000_0000_0000 == 0
    && (-0x8000_0000_0000_0000 <= exact < 0x8000_0000_0000_0000 ==> now == exact)
  }

  predicate Shows32(now: int, exact: int) {
    && -0x8000_0000 <= now < 0x8000_0000
    && (now - exact) % 0x1_0000_0000 == 0
    && (-0x8000_0000 <= exact < 0x8000_0000 ==> now == exact)
  }

  lemma Multiple64(now: int, exact: int, k: int)
    requires -0x8000_0000_0000_0000 <= now < 0x8000_0000_0000_0000 && now - exact == k * 0x1_0000_0000_0000_0000
    ensures Shows64(now, exact)
  {
  }

  lemma Apart64(now: int, exact: int) returns (k: int)
    requires Shows64(now, exact)
    ensures now - exact == k * 0x1_0000_0000_0000_0000
  {
    k := (now - exact) / 0x1_0000_0000_0000_0000;
  }

  lemma SignedShows64(x: int)
    ensures Shows64(Signed64(x), x)
  {
    var k := Wrapped64(x);
    Multiple64(Signed64(x), x, k);
  }

  lemma SignedShows32(x: int)
    ensures Shows32(Signed32(x), x)
  {
    var k := Wrapped32(x);
    assert -0x8000_0000 <= Signed32(x) < 0x8000_0000;
  }

  /** What a move by the wrapped product of quantity and price shows. */
  lemma CostShows(x: int, quantity: Quantity, price: Price)
    ensures Shows64(Signed64(x + Cost(quantity, price)), x + quantity * price)
    ensures Shows64(Signed64(x - Cost(quantity, price)), x - quantity * price)
  {
    hide Signed64, Shows64;
    var product := quantity * price;
    var k := product / TWO_64;
    assert product - Cost(quantity, price) == k * TWO_64;
    SignedShows64(x + Cost(quantity, price));
    SignedShows64(x - Cost(quantity, price));
    ShowsShifted(Signed64(x + Cost(quantity, price)), x + Cost(quantity, price), x + product, -k);
    ShowsShifted(Signed64(x - Cost(quantity, price)), x - Cost(quantity, price), x - product, k);
  }

  lemma ShowsShifted(now: int, exact: int, exact': int, k: int)
    requires Shows64(now, exact) && exact - exact' == k * 0x1_0000_0000_0000_0000
    ensures Shows64(now, exact')
  {
    hide Shows64;
    var j := Apart64(now, exact);
    ShowsInRange(now, exact);
    Multiple64(now, exact', j + k);
  }

  lemma ShowsInRange(now: int, exact: int)
    requires Shows64(now, exact)
    ensures -0x8000_0000_0000_0000 <= now < 0x8000_0000_0000_0000
  {
  }

  lemma ShowsThen(now: int, middle: int, exact: int, x: int)
    requires Shows64(now, middle + x) && Shows64(middle, exact)
    ensures Shows64(now, exact + x)
  {
    hide Shows64;
    var j := Apart64(middle, exact);
    ShowsShifted(now, middle + x, exact + x, j);
  }

  lemma ShowsItself(now: int, exact: int)
    requires Shows64(now, exact)
    ensures Shows64(now, now)
  {
  }
}
