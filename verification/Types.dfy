/** Vocabulary shared by every module: orders, events, commands and outcomes. */
module Types {

  type OrderId = int
  type UserId = int
  type Price = int

  /** Orders of this user are seeded liquidity: nothing is logged, checked or settled for it. */
  const SYSTEM_USER_ID: UserId := 0

  datatype Option<+T> = None | Some(value: T)

  /** The Python exceptions the core can raise. */
  datatype Error = KeyError | ValueError | TypeError | AttributeError

  /** A step either returns a new state or raises; a raise stops the engine. */
  datatype Result<+T> = Ok(value: T) | Raised(error: Error) {
    predicate IsFailure() { Raised? }

    function PropagateFailure<U>(): Result<U>
      requires Raised?
    {
      Raised(error)
    }

    function Extract(): T
      requires Ok?
    {
      value
    }
  }

  datatype Side = Bid | Ask {
    function Opposite(): Side { if Bid? then Ask else Bid }
  }

  /** Price `p` is strictly ahead of `q` in the queue of this side. */
  predicate Better(side: Side, p: Price, q: Price) {
    if side.Bid? then p > q else p < q
  }

  datatype OrderType = Limit | Stop

  /** The strategy of an order together with the order objects it is linked to. */
  datatype Strategy =
    | Single
    | OtoParent(child: OrderId)
    | OtoChild(parent: OrderId)
    | OcoLeg(peer: OrderId)

  datatype Fill = Fill(quantity: int, price: Price)

  /** The address of a price level: one side of the book and a price. */
  datatype LevelKey = LevelKey(side: Side, price: Price)

  datatype Order = Order(
    id: OrderId, user: UserId, orderType: OrderType, side: Side, price: Price, quantity: int,
    strategy: Strategy, active: bool, executed: int, fills: seq<Fill>)
  {
    function Key(): LevelKey { LevelKey(side, price) }

    function Remaining(): int { quantity - executed }

    predicate Complete() { executed == quantity }

    /** `Order.add_fill`. */
    function AddFill(q: int, p: Price): Order {
      this.(executed := executed + q, fills := fills + [Fill(q, p)])
    }
  }

  /** What a client supplies for one order; `Order.__init__` adds the rest. */
  datatype OrderSpec = OrderSpec(
    id: OrderId, user: UserId, orderType: OrderType, side: Side, price: Price, quantity: int)
  {
    function ToOrder(strategy: Strategy, active: bool): Order {
      Order(id, user, orderType, side, price, quantity, strategy, active, 0, [])
    }
  }

  datatype Command =
    | NewSingle(order: OrderSpec)
    | NewOto(parent: OrderSpec, child: OrderSpec)
    | NewOco(legA: OrderSpec, legB: OrderSpec)
    | Cancel(orderId: OrderId)

  datatype Role = Taker | Maker

  /** One call into the balance manager. */
  datatype BalanceOp =
    | HoldCash(user: UserId, amount: int)
    | HoldAsset(user: UserId, amount: int)
    | ReleaseCash(user: UserId, amount: int)
    | ReleaseAsset(user: UserId, amount: int)
    | SettleBid(user: UserId, quantity: int, price: Price)
    | SettleAsk(user: UserId, quantity: int, price: Price)

  datatype Event =
    | OrderPlaced(id: OrderId, order: Order)
    | OrderCancelled(id: OrderId)
    | OrderFilled(id: OrderId)
    | OrderPartiallyFilled(id: OrderId)
    | NewTrade(id: OrderId, quantity: int, price: Price, role: Role)
    | BalanceChanged(op: BalanceOp)

  datatype MatchOutcome = Failure | Partial | Success | InsufficientBalance

  function Min(a: int, b: int): int { if a <= b then a else b }
}
