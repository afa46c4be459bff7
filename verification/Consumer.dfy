// The consumer: parse, deduplicate, dispatch, settle. One call of HandleMessage
// settles one delivery; the fates of its store operations are parameters.
module Consumer {
  import opened Events
  import opened Aggregates
  import opened Repositories
  import opened Service
  import opened Protocol
  import opened Effects

  // ---------- Messages on the wire ----------

  datatype Handler = PlacedHandler | DeliveredHandler | RejectedHandler | PaymentHandler

  // A decoded payload. An instant is None if it is absent or not RFC 3339;
  // misfits are the handlers into whose payload type the JSON does not decode.
  datatype Raw = Raw(
    misfits: set<Handler>,
    orderId: string, restaurant: int, branch: int, currency: string, total: int, amount: int, items: seq<Item>,
    placedAt: Option<Instant>, deliveredAt: Option<Instant>, occurredAt: Option<Instant>, completedAt: Option<Instant>)

  datatype Body = Garbage | Json(eventId: string, eventType: string, payload: Raw)

  // ---------- What a body means to a consumer with the given handlers ----------

  function Decoded(h: Handler, p: Raw): Option<Event> {
    if h in p.misfits then None
    else
      match h
      case PlacedHandler =>
        if p.placedAt.None? then None
        else Some(OrderPlaced(p.orderId, p.restaurant, p.branch, p.currency, p.total, p.placedAt.value, p.items))
      case DeliveredHandler =>
        if p.deliveredAt.None? then None
        else Some(OrderDelivered(p.orderId, p.restaurant, p.branch, p.currency, p.deliveredAt.value))
      case RejectedHandler =>
        if p.occurredAt.None? then None
        else Some(OrderRejected(p.orderId, p.restaurant, p.branch, p.occurredAt.value))
      case PaymentHandler =>
        if p.completedAt.None? then None
        else Some(PaymentCompleted(p.currency, p.amount, p.completedAt.value))
  }

  function MessageOf(body: Body, handlers: map<string, Handler>): Message {
    if body.Garbage? || body.eventId == "" || body.eventType == "" then Malformed
    else if body.eventType !in handlers then Envelope(body.eventId, Unregistered)
    else
      var event := Decoded(handlers[body.eventType], body.payload);
      Envelope(body.eventId, if event.None? then Undecodable else Carries(event.value))
  }

  const HANDLERS: map<string, Handler> :=
    map["order.placed" := PlacedHandler, "order.delivered" := DeliveredHandler,
        "order.rejected" := RejectedHandler, "payment.completed" := PaymentHandler]

  // ---------- What a payload says, field by field ----------

  // Does the handler get an event out of the payload?
  predicate Readable(h: Handler, p: Raw) {
    && h !in p.misfits
    && match h
       case PlacedHandler => p.placedAt.Some?
       case DeliveredHandler => p.deliveredAt.Some?
       case RejectedHandler => p.occurredAt.Some?
       case PaymentHandler => p.completedAt.Some?
  }

  // The stores have counted the payload as the handler should.
  ghost predicate Counted(h: Handler, p: Raw, st: Store, st': Store)
    requires Readable(h, p)
  {
    match h
    case PlacedHandler =>
      PlacedCounted(st, st', p.orderId, p.restaurant, p.branch, p.currency, p.total, p.placedAt.value, p.items)
    case DeliveredHandler =>
      DeliveredCounted(st, st', p.orderId, p.restaurant, p.branch, p.currency, p.deliveredAt.value)
    case RejectedHandler => RejectedCounted(st, st', p.orderId, p.restaurant, p.branch, p.occurredAt.value)
    case PaymentHandler => PaymentCounted(st, st', p.currency, p.amount, p.completedAt.value)
  }

  lemma DecodedMeans(h: Handler, p: Raw, st: Store, net: nat -> Fate)
    ensures Decoded(h, p).Some? <==> Readable(h, p)
    ensures Decoded(h, p).Some? ==>
              var o := Serve(st, Decoded(h, p).value, net);
              && (o.ok ==> Counted(h, p, st, o.store))
              && ((forall i: nat :: net(i).Done?) ==> o.ok)
  {
    if Readable(h, p) {
      var e := Decoded(h, p).value;
      match h
      case PlacedHandler => PlacedOutcome(st, e, net);
      case DeliveredHandler => DeliveredOutcome(st, e, net);
      case RejectedHandler => RejectedOutcome(st, e, net);
      case PaymentHandler => PaymentOutcome(st, e, net);
    }
  }

  // A body that can be worked on: an envelope with an id and a type.
  predicate Addressed(body: Body) {
    body.Json? && body.eventId != "" && body.eventType != ""
  }

  // A call's whole effect in these terms, dedupe rows first, then the stores.
  ghost predicate Settles(body: Body, handlers: map<string, Handler>, rows: set<EventId>, st: Store, fates: Fates,
                          r: Reaction) {
    if !Addressed(body) then r == Reaction(rows, st, Nacked(false))
    else if !fates.mark.Done? then
      r == Reaction(if fates.mark.Lost? then rows else rows + {body.eventId}, st, Nacked(true))
    else if body.eventId in rows then r == Reaction(rows, st, Acked)
    else if body.eventType !in handlers then r == Reaction(rows + {body.eventId}, st, Acked)
    else
      var h := handlers[body.eventType];
      && (Readable(h, body.payload) && (forall i: nat :: fates.net(i).Done?) ==> r.verdict == Acked)
      && (r.verdict == Acked ==>
            Readable(h, body.payload) && r.rows == rows + {body.eventId} && Counted(h, body.payload, st, r.store))
      && (r.verdict != Acked ==>
            && r.verdict == Nacked(false)
            && r.rows == (if fates.unmark.Lost? then rows + {body.eventId} else rows - {body.eventId})
            && (!Readable(h, body.payload) ==> r.store == st))
  }

  lemma ReceivedSettles(body: Body, handlers: map<string, Handler>, rows: set<EventId>, st: Store, fates: Fates)
    ensures Settles(body, handlers, rows, st, fates, Receive(rows, st, MessageOf(body, handlers), fates))
  {
    if Addressed(body) && body.eventType in handlers {
      DecodedMeans(handlers[body.eventType], body.payload, st, fates.net);
      assert rows + {body.eventId} - {body.eventId} == rows - {body.eventId};
    }
  }

  // ---------- What one delivery does ----------

  datatype Verdict = Acked | Nacked(requeue: bool)

  datatype Fates = Fates(mark: Fate, net: nat -> Fate, unmark: Fate)

  datatype Reaction = Reaction(rows: set<EventId>, store: Store, verdict: Verdict)

  // The handler failed with its row inserted.
  function DeadLetter(rows: set<EventId>, st: Store, id: EventId, unmark: Fate): Reaction {
    Reaction(Kept(rows, rows - {id}, unmark), st, Nacked(false))
  }

  ghost function Receive(rows: set<EventId>, st: Store, m: Message, fates: Fates): Reaction {
    match m
    case Malformed => Reaction(rows, st, Nacked(false))
    case Envelope(id, payload) =>
      var rows' := Kept(rows, rows + {id}, fates.mark);
      if !fates.mark.Done? then Reaction(rows', st, Nacked(true))
      else if id in rows then Reaction(rows, st, Acked)
      else
        match payload
        case Unregistered => Reaction(rows', st, Acked)
        case Undecodable => DeadLetter(rows', st, id, fates.unmark)
        case Carries(e) =>
          var o := Serve(st, e, fates.net);
          if o.ok then Reaction(rows', o.store, Acked) else DeadLetter(rows', o.store, id, fates.unmark)
  }

  datatype Delivery = Delivery(body: Body, fates: Fates)

  // Deliveries of one queue are handled one at a time.
  ghost function ReceiveAll(rows: set<EventId>, st: Store, handlers: map<string, Handler>,
                            ds: seq<Delivery>): (set<EventId>, Store) {
    if ds == [] then (rows, st)
    else
      var n := |ds| - 1;
      var before := ReceiveAll(rows, st, handlers, ds[..n]);
      var r := Receive(before.0, before.1, MessageOf(ds[n].body, handlers), ds[n].fates);
      (r.rows, r.store)
  }

  // ---------- The consumer ----------

  class EventConsumer {
    const dedupe: EventIdsRepo
    const service: AnalyticsService
    var handlers: map<string, Handler>

    constructor (d: EventIdsRepo, s: AnalyticsService)
      ensures dedupe == d && service == s && handlers == map[]
    {
      dedupe, service, handlers := d, s, map[];
    }

    // A second registration of a type is a wiring bug: the source panics, and the
    // first handler stays.
    method Register(eventType: string, handler: Handler) returns (ok: bool)
      modifies this
      ensures ok <==> eventType !in old(handlers)
      ensures handlers == if ok then old(handlers)[eventType := handler] else old(handlers)
    {
      if eventType in handlers { return false; }
      handlers := handlers[eventType := handler];
      return true;
    }

    method RegisterAll() returns (ok: bool)
      modifies this
      ensures old(handlers) == map[] ==> ok && handlers == HANDLERS
      ensures ok <==> HANDLERS.Keys !! old(handlers).Keys
      ensures ok ==>
                && handlers.Keys == old(handlers).Keys +
                                    {"order.placed", "order.delivered", "order.rejected", "payment.completed"}
                && handlers["order.placed"] == PlacedHandler && handlers["order.delivered"] == DeliveredHandler
                && handlers["order.rejected"] == RejectedHandler && handlers["payment.completed"] == PaymentHandler
    {
      ok := Register("order.placed", PlacedHandler);
      if !ok { return; }
      ok := Register("order.delivered", DeliveredHandler);
      if !ok { return; }
      ok := Register("order.rejected", RejectedHandler);
      if !ok { return; }
      ok := Register("payment.completed", PaymentHandler);
    }

    function Stores(): set<object> {
      {service.restaurantDays, service.branchDays, service.productDays, service.platformDays, service.orderContexts}
    }

    // A handler fails before any write if the payload does not decode.
    method RunHandler(handler: Handler, p: Raw, net: nat -> Fate) returns (ok: bool)
      modifies Stores()
      ensures Decoded(handler, p).None? ==> !ok && service.View() == old(service.View())
      ensures Decoded(handler, p).Some? ==>
                Outcome(service.View(), ok) == Serve(old(service.View()), Decoded(handler, p).value, net)
      ensures ok ==> Readable(handler, p) && Counted(handler, p, old(service.View()), service.View())
      ensures !Readable(handler, p) ==> !ok && service.View() == old(service.View())
      ensures Readable(handler, p) && (forall i: nat :: net(i).Done?) ==> ok
    {
      DecodedMeans(handler, p, service.View(), net);
      if handler in p.misfits { return false; }
      match handler {
        case PlacedHandler =>
          if p.placedAt.None? { return false; }
          var items: seq<Item> := [];
          for i := 0 to |p.items|
            invariant items == p.items[..i]
          {
            items := items + [Item(p.items[i].product, p.items[i].quantity, p.items[i].lineTotal)];
          }
          assert items == p.items;
          var e := OrderPlaced(p.orderId, p.restaurant, p.branch, p.currency, p.total, p.placedAt.value, items);
          ok := service.OnOrderPlaced(e, net);
        case DeliveredHandler =>
          if p.deliveredAt.None? { return false; }
          ok := service.OnOrderDelivered(OrderDelivered(p.orderId, p.restaurant, p.branch, p.currency,
            p.deliveredAt.value), net);
        case RejectedHandler =>
          if p.occurredAt.None? { return false; }
          ok := service.OnOrderRejected(OrderRejected(p.orderId, p.restaurant, p.branch, p.occurredAt.value), net);
        case PaymentHandler =>
          if p.completedAt.None? { return false; }
          ok := service.OnPaymentCompleted(PaymentCompleted(p.currency, p.amount, p.completedAt.value), net);
      }
    }

    method HandleMessage(body: Body, fates: Fates) returns (verdict: Verdict)
      modifies dedupe, Stores()
      ensures Reaction(dedupe.rows, service.View(), verdict) ==
              Receive(old(dedupe.rows), old(service.View()), MessageOf(body, handlers), fates)
      ensures Settles(body, handlers, old(dedupe.rows), old(service.View()), fates,
                      Reaction(dedupe.rows, service.View(), verdict))
    {
      ReceivedSettles(body, handlers, dedupe.rows, service.View(), fates);
      if body.Garbage? || body.eventId == "" || body.eventType == "" { return Nacked(false); }
      var isNew, ok := dedupe.MarkSeen(body.eventId, fates.mark);
      if !ok { return Nacked(true); }
      if !isNew { return Acked; }
      if body.eventType !in handlers { return Acked; }
      ok := RunHandler(handlers[body.eventType], body.payload, fates.net);
      if !ok {
        var _ := dedupe.Unmark(body.eventId, fates.unmark);
        return Nacked(false);
      }
      return Acked;
    }

    method Consume(ds: seq<Delivery>)
      modifies dedupe, Stores()
      ensures (dedupe.rows, service.View()) == ReceiveAll(old(dedupe.rows), old(service.View()), handlers, ds)
    {
      for i := 0 to |ds|
        invariant (dedupe.rows, service.View()) == ReceiveAll(old(dedupe.rows), old(service.View()), handlers, ds[..i])
      {
        assert ds[..i + 1][..i] == ds[..i];
        var _ := HandleMessage(ds[i].body, ds[i].fates);
      }
      assert ds[..|ds|] == ds;
    }
  }
}
