/** Values exchanged with the matching engine: orders, events, log entries. */
module MarketTypes {

  import opened Bytes

  type OrderId = u64
  type UserId = u64
  type Price = u64
  type Quantity = u64

  datatype Side = Bid | Ask {
    function Opposite(): (s: Side)
    {
      match this
      case Bid => Ask
      case Ask => Bid
    }
  }

  datatype Order = Order(id: OrderId, user: UserId, price: Price, quantity: Quantity, side: Side)

  datatype EngineEvent =
    | OrderPlaced(id: OrderId, user: UserId, price: Price, quantity: Quantity, side: Side)
    | OrderCancelled(id: OrderId)
    | TradeExecuted(maker: OrderId, taker: OrderId, price: Price, quantity: Quantity)
    | IntentResolved(intent: string, solver: string, amount: u64)

  datatype OrderLevel = OrderLevel(price: Price, quantity: Quantity)

  /** One logged operation; a sequence of these is a history of the book. */
  datatype LogEntry =
    | Place(orderId: OrderId, userId: UserId, side: Side, price: Price, quantity: Quantity)
    | Cancel(orderId: OrderId, userId: UserId)
}
