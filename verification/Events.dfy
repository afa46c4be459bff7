// The events the service consumes, as the handlers hand them to the service.
module Events {

  datatype Option<+T> = None | Some(value: T)

  // Instants are nanoseconds since 1970-01-01T00:00:00Z; a day key is the number
  // of the UTC day that holds the instant (see Calendar for its printed form).
  type Instant = int
  type Day = int

  const NANOS_PER_DAY: int := 86_400_000_000_000
  const NANOS_PER_MILLI: int := 1_000_000

  function UtcDay(t: Instant): Day {
    t / NANOS_PER_DAY
  }

  // Go's integer division: the quotient is truncated toward zero.
  function TruncDiv(a: int, b: int): int
    requires b > 0
  {
    if a >= 0 then a / b else -((-a) / b)
  }

  datatype Item = Item(product: int, quantity: int, lineTotal: int)

  datatype Event =
    | OrderPlaced(orderId: string, restaurant: int, branch: int, currency: string, total: int, placedAt: Instant,
      items: seq<Item>)
    | OrderDelivered(orderId: string, restaurant: int, branch: int, currency: string, deliveredAt: Instant)
    | OrderRejected(orderId: string, restaurant: int, branch: int, occurredAt: Instant)
    | PaymentCompleted(currency: string, amount: int, completedAt: Instant)

  // The row order.placed leaves behind for the events that follow it.
  datatype OrderContext = OrderContext(currency: string, placedAt: Instant)

  predicate NeedsContext(e: Event) {
    e.OrderDelivered? || e.OrderRejected?
  }

  function DeliveryMs(deliveredAt: Instant, placedAt: Instant): int {
    var ms := TruncDiv(deliveredAt - placedAt, NANOS_PER_MILLI);
    if ms < 0 then 0 else ms
  }

  // The fate of one store operation: done, failed without effect, or failed
  // although its effect landed.
  datatype Fate = Done | Lost | Torn
}
