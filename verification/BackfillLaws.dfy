// What a backfill without store failures adds, that a second one adds nothing, and
// how it mixes with live events.
module BackfillLaws {
  import opened Events
  import opened Folds
  import opened Sums
  import opened Aggregates
  import opened Runs
  import opened Protocol
  import opened Consumer
  import opened ConsumerLaws
  import opened Backfill

  function HandleAll(st: Store, h: seq<Event>): Store {
    Fold(st, h, Handle)
  }

  predicate Applies(o: Order, orderId: string) {
    o.placedAt.Some? && o.orderId == orderId
  }

  ghost predicate SeenIn(orders: seq<Order>, orderId: string) {
    exists k :: 0 <= k < |orders| && Applies(orders[k], orderId)
  }

  // The order.placed events of the orders with a readable instant, each order once,
  // whose rows were not there before.
  ghost function NewEvents(rows: set<EventId>, orders: seq<Order>): seq<Event> {
    if orders == [] then []
    else
      var n := |orders| - 1;
      var before, o := NewEvents(rows, orders[..n]), orders[n];
      if o.placedAt.Some? && DedupeId(o.orderId) !in rows
        && !SeenIn(orders[..n], o.orderId) then before + [PlacedEvent(o)] else before
  }

  ghost function Keys(orders: seq<Order>): set<EventId> {
    set o | o in orders && o.placedAt.Some? :: DedupeId(o.orderId)
  }

  lemma KeysAreInjective(a: string, b: string)
    requires DedupeId(a) == DedupeId(b)
    ensures a == b
  {
    assert DedupeId(a)[|PREFIX|..] == a && DedupeId(b)[|PREFIX|..] == b;
  }

  lemma KeyMeansSeen(orders: seq<Order>, orderId: string)
    ensures DedupeId(orderId) in Keys(orders) <==> SeenIn(orders, orderId)
  {
    if DedupeId(orderId) in Keys(orders) {
      var o :| o in orders && o.placedAt.Some? && DedupeId(o.orderId) == DedupeId(orderId);
      KeysAreInjective(o.orderId, orderId);
      var k :| 0 <= k < |orders| && orders[k] == o;
      assert Applies(orders[k], orderId);
    }
  }

  lemma KeysAppend(orders: seq<Order>, o: Order)
    ensures Keys(orders + [o]) == Keys(orders) + if o.placedAt.Some? then {DedupeId(o.orderId)} else {}
  {
  }

  lemma OneWithoutFaults(j: Job, o: Order, fates: Fates)
    requires !j.fatal && Faultless(fates)
    ensures var j', key := One(j, o, fates), DedupeId(o.orderId);
            var isNew := o.placedAt.Some? && key !in j.rows;
            && !j'.fatal
            && j'.rows == j.rows + (if o.placedAt.Some? then {key} else {})
            && j'.store == (if isNew then Handle(j.store, PlacedEvent(o)) else j.store)
            && j'.ledger.applied == j.ledger.applied + (if isNew then 1 else 0)
  {
    var key := DedupeId(o.orderId);
    if o.placedAt.Some? && key !in j.rows {
      ServeWithoutFaults(j.store, PlacedEvent(o), fates.net);
    } else if key !in j.rows {
      assert j.rows + {key} - {key} == j.rows;
    } else {
      assert j.rows + {key} == j.rows;
    }
  }

  lemma NewEventsAppend(rows: set<EventId>, orders: seq<Order>, o: Order)
    ensures NewEvents(rows, orders + [o]) ==
            NewEvents(rows, orders) +
            if o.placedAt.Some? && DedupeId(o.orderId) !in rows + Keys(orders) then [PlacedEvent(o)] else []
  {
    assert (orders + [o])[..|orders|] == orders;
    KeyMeansSeen(orders, o.orderId);
  }

  lemma HandleNext(st: Store, h: seq<Event>, e: Event)
    ensures HandleAll(st, h + [e]) == Handle(HandleAll(st, h), e)
  {
    FoldNext(st, h, e, Handle);
  }

  // What the job has come to after some orders without faults.
  ghost predicate Backfilled(j: Job, rows: set<EventId>, st: Store, orders: seq<Order>) {
    && !j.fatal
    && j.rows == rows + Keys(orders)
    && j.store == HandleAll(st, NewEvents(rows, orders))
    && j.ledger.applied == |NewEvents(rows, orders)|
  }

  lemma BackfillNext(j: Job, rows: set<EventId>, st: Store, orders: seq<Order>, o: Order, fates: Fates)
    requires Backfilled(j, rows, st, orders) && Faultless(fates)
    ensures Backfilled(One(j, o, fates), rows, st, orders + [o])
  {
    OneWithoutFaults(j, o, fates);
    NewEventsAppend(rows, orders, o);
    KeysAppend(orders, o);
    if o.placedAt.Some? { HandleNext(st, NewEvents(rows, orders), PlacedEvent(o)); }
  }

  lemma BackfillStart(rows: set<EventId>, st: Store)
    ensures Backfilled(Begin(rows, st), rows, st, [])
  {
    assert Keys([]) == {};
  }

  lemma BackfillMore(rows: set<EventId>, st: Store, orders: seq<Order>, o: Order, fates: nat -> Fates)
    requires Faultless(fates(|orders|)) && Backfilled(All(Begin(rows, st), orders, 0, fates), rows, st, orders)
    ensures Backfilled(All(Begin(rows, st), orders + [o], 0, fates), rows, st, orders + [o])
  {
    AllNext(Begin(rows, st), orders, o, 0, fates);
    BackfillNext(All(Begin(rows, st), orders, 0, fates), rows, st, orders, o, fates(|orders|));
  }

  // Main result: without store failures the stores grow by exactly the fold of
  // OnOrderPlaced over the distinct orders not yet marked.
  lemma {:induction false} BackfillFoldsNewOrders(rows: set<EventId>, st: Store, orders: seq<Order>,
                                                  fates: nat -> Fates)
    requires forall k: nat :: Faultless(fates(k))
    ensures Backfilled(All(Begin(rows, st), orders, 0, fates), rows, st, orders)
  {
    if orders == [] {
      BackfillStart(rows, st);
    } else {
      var n := |orders| - 1;
      assert orders == orders[..n] + [orders[n]];
      BackfillFoldsNewOrders(rows, st, orders[..n], fates);
      BackfillMore(rows, st, orders[..n], orders[n], fates);
    }
  }

  lemma {:induction false} NothingNew(rows: set<EventId>, orders: seq<Order>)
    requires Keys(orders) <= rows
    ensures NewEvents(rows, orders) == []
  {
    if orders != [] {
      var n := |orders| - 1;
      assert orders == orders[..n] + [orders[n]];
      KeysAppend(orders[..n], orders[n]);
      NothingNew(rows, orders[..n]);
    }
  }

  // Running it again over the same orders, or any of them, adds nothing.
  lemma SecondRunAddsNothing(rows: set<EventId>, st: Store, orders: seq<Order>, fates: nat -> Fates, again: seq<Order>,
                             fates': nat -> Fates)
    requires forall k: nat :: Faultless(fates(k)) && Faultless(fates'(k))
    requires forall o :: o in again ==> o in orders
    ensures var j := All(Begin(rows, st), orders, 0, fates);
            var j' := All(Begin(j.rows, j.store), again, 0, fates');
            !j'.fatal && j'.store == j.store && j'.rows == j.rows && j'.ledger.applied == 0
  {
    var j := All(Begin(rows, st), orders, 0, fates);
    BackfillFoldsNewOrders(rows, st, orders, fates);
    BackfillFoldsNewOrders(j.rows, j.store, again, fates');
    assert Keys(again) <= Keys(orders);
    NothingNew(j.rows, again);
  }

  function CountedShare(g: Gauge): Event -> int {
    (e: Event) => Share(Applied(e, None), g)
  }

  lemma OnePlacedReads(st: Store, e: Event, g: Gauge)
    requires e.OrderPlaced?
    ensures Read(Handle(st, e), g) == Read(st, g) + CountedShare(g)(e)
  {
    HandleReads(st, e, g);
  }

  lemma PlacedReads(st: Store, h: seq<Event>, g: Gauge)
    requires forall e :: e in h ==> e.OrderPlaced?
    ensures Read(HandleAll(st, h), g) == Read(st, g) + Sum(h, CountedShare(g))
  {
    ghost var measure := (x: Store) => Read(x, g);
    forall x, e | e in h ensures measure(Handle(x, e)) == measure(x) + CountedShare(g)(e) { OnePlacedReads(x, e, g); }
    FoldAdds(st, h, Handle, measure, CountedShare(g));
  }

  lemma {:induction false} NewEventsArePlaced(rows: set<EventId>, orders: seq<Order>)
    ensures forall e :: e in NewEvents(rows, orders) ==> e.OrderPlaced?
  {
    if orders != [] { NewEventsArePlaced(rows, orders[..|orders| - 1]); }
  }

  predicate Namespaced(id: EventId) {
    |PREFIX| <= |id| && id[..|PREFIX|] == PREFIX
  }

  lemma {:induction false} OtherNamespace(rows: set<EventId>, orders: seq<Order>)
    requires forall id :: id in rows ==> !Namespaced(id)
    ensures NewEvents(rows, orders) == NewEvents({}, orders)
  {
    if orders != [] {
      var n := |orders| - 1;
      OtherNamespace(rows, orders[..n]);
      assert Namespaced(DedupeId(orders[n].orderId));
    }
  }

  // ---------- Live events and backfill, interleaved ----------

  // Deliveries of the consumer and orders of the backfill, in the order in which
  // they reach the shared stores.
  datatype Feed = Live(delivery: Delivery) | Past(order: Order, fates: Fates)

  function FeedMessage(f: Feed, handlers: map<string, Handler>): Message {
    match f
    case Live(d) => MessageOf(d.body, handlers)
    case Past(o, _) => MessageFor(o)
  }

  function FeedMessages(fs: seq<Feed>, handlers: map<string, Handler>): seq<Message> {
    seq(|fs|, i requires 0 <= i < |fs| => FeedMessage(fs[i], handlers))
  }

  ghost function FeedOne(j: Job, handlers: map<string, Handler>, f: Feed): Job {
    match f
    case Live(d) =>
      var r := Receive(j.rows, j.store, MessageOf(d.body, handlers), d.fates);
      j.(rows := r.rows, store := r.store)
    case Past(o, fates) => One(j, o, fates)
  }

  ghost function FeedAll(j: Job, handlers: map<string, Handler>, fs: seq<Feed>): Job {
    if fs == [] then j else FeedOne(FeedAll(j, handlers, fs[..|fs| - 1]), handlers, fs[|fs| - 1])
  }

  function LiveOf(fs: seq<Feed>): seq<Delivery> {
    if fs == [] then []
    else
      var n := |fs| - 1;
      LiveOf(fs[..n]) + if fs[n].Live? then [fs[n].delivery] else []
  }

  function PastOf(fs: seq<Feed>): seq<Order> {
    if fs == [] then []
    else
      var n := |fs| - 1;
      PastOf(fs[..n]) + if fs[n].Past? then [fs[n].order] else []
  }

  function FatesOf(f: Feed): Fates {
    match f
    case Live(d) => d.fates
    case Past(_, fates) => fates
  }

  lemma MessagesAppend(fs: seq<Feed>, handlers: map<string, Handler>)
    requires fs != []
    ensures FeedMessages(fs, handlers) == FeedMessages(fs[..|fs| - 1], handlers) + [FeedMessage(fs[|fs| - 1], handlers)]
  {
  }

  lemma FeedNext(j: Job, handlers: map<string, Handler>, f: Feed, ms: seq<Message>)
    requires Faultless(FatesOf(f)) && !j.fatal && j.rows == ClosedBy(ms) && j.store == RunAll(FirstEvents(ms))
    ensures var j', ms' := FeedOne(j, handlers, f), ms + [FeedMessage(f, handlers)];
            !j'.fatal && j'.rows == ClosedBy(ms') && j'.store == RunAll(FirstEvents(ms'))
  {
    var m := FeedMessage(f, handlers);
    FaultlessReaction(ClosedBy(ms), FirstEvents(ms), m, FatesOf(f));
    var r := Receive(j.rows, j.store, m, FatesOf(f));
    assert FeedOne(j, handlers, f).rows == r.rows && FeedOne(j, handlers, f).store == r.store
           && !FeedOne(j, handlers, f).fatal;
    ClosedLater(ms, m);
    NextOccurrence(ms, m);
  }

  // Without store failures a mixed feed is the plain run over the first occurrence
  // of each id, whichever namespace it is of.
  lemma {:induction false} FeedIsRunningFirstOccurrences(handlers: map<string, Handler>, fs: seq<Feed>)
    requires forall f :: f in fs ==> Faultless(FatesOf(f))
    ensures var j, ms := FeedAll(Begin({}, EMPTY), handlers, fs), FeedMessages(fs, handlers);
            !j.fatal && j.rows == ClosedBy(ms) && j.store == RunAll(FirstEvents(ms))
  {
    if fs == [] {
      assert FeedMessages(fs, handlers) == [] && ClosedBy([]) == {};
    } else {
      var n := |fs| - 1;
      MessagesAppend(fs, handlers);
      assert fs[n] in fs;
      FeedIsRunningFirstOccurrences(handlers, fs[..n]);
      FeedNext(FeedAll(Begin({}, EMPTY), handlers, fs[..n]), handlers, fs[n], FeedMessages(fs[..n], handlers));
    }
  }

  // No delivery has an id of the backfill's namespace.
  ghost predicate Apart(fs: seq<Feed>, handlers: map<string, Handler>) {
    forall f :: f in fs && f.Live? && FeedMessage(f, handlers).Envelope? ==> !Namespaced(FeedMessage(f, handlers).id)
  }

  lemma LiveMessagesAppend(ds: seq<Delivery>, d: Delivery, handlers: map<string, Handler>)
    ensures Messages(ds + [d], handlers) == Messages(ds, handlers) + [MessageOf(d.body, handlers)]
  {
  }

  ghost predicate Parted(ms: seq<Message>, live: seq<Message>, past: seq<Order>) {
    && ClosedBy(ms) == ClosedBy(live) + Keys(past)
    && (forall id :: id in ClosedBy(live) ==> !Namespaced(id))
    && multiset(FirstEvents(ms)) == multiset(FirstEvents(live)) + multiset(NewEvents({}, past))
  }

  lemma KeysAreNamespaced(orders: seq<Order>)
    ensures forall id :: id in Keys(orders) ==> Namespaced(id)
  {
    forall id | id in Keys(orders) ensures Namespaced(id) {
      var o :| o in orders && o.placedAt.Some? && DedupeId(o.orderId) == id;
    }
  }

  lemma LivePart(ms: seq<Message>, live: seq<Message>, past: seq<Order>, m: Message)
    requires Parted(ms, live, past) && (m.Envelope? ==> !Namespaced(m.id))
    ensures Parted(ms + [m], live + [m], past)
  {
    KeysAreNamespaced(past);
    ClosedLater(ms, m);
    ClosedLater(live, m);
    NextOccurrence(ms, m);
    NextOccurrence(live, m);
  }

  lemma PastOccurrence(ms: seq<Message>, live: seq<Message>, past: seq<Order>, o: Order)
    requires Parted(ms, live, past)
    ensures DedupeId(o.orderId) in ClosedBy(ms) <==> DedupeId(o.orderId) in Keys(past)
    ensures multiset(FirstEvents(ms + [MessageFor(o)])) == multiset(FirstEvents(live))
            + multiset(NewEvents({}, past + [o]))
  {
    assert Namespaced(DedupeId(o.orderId));
    NextOccurrence(ms, MessageFor(o));
    NewEventsAppend({}, past, o);
    assert {} + Keys(past) == Keys(past);
  }

  lemma PastPart(ms: seq<Message>, live: seq<Message>, past: seq<Order>, o: Order)
    requires Parted(ms, live, past)
    ensures Parted(ms + [MessageFor(o)], live, past + [o])
  {
    PastOccurrence(ms, live, past, o);
    ClosedLater(ms, MessageFor(o));
    KeysAppend(past, o);
  }

  lemma {:induction false} FeedParts(handlers: map<string, Handler>, fs: seq<Feed>)
    requires Apart(fs, handlers)
    ensures Parted(FeedMessages(fs, handlers), Messages(LiveOf(fs), handlers), PastOf(fs))
  {
    if fs == [] {
      assert FeedMessages(fs, handlers) == [] && Messages([], handlers) == [] && ClosedBy([]) == {} && Keys([]) == {};
    } else {
      var n := |fs| - 1;
      var ms, live, past := FeedMessages(fs[..n], handlers), Messages(LiveOf(fs[..n]), handlers), PastOf(fs[..n]);
      assert fs[n] in fs;
      FeedParts(handlers, fs[..n]);
      MessagesAppend(fs, handlers);
      if fs[n].Live? {
        LiveMessagesAppend(LiveOf(fs[..n]), fs[n].delivery, handlers);
        LivePart(ms, live, past, FeedMessage(fs[n], handlers));
        assert PastOf(fs) == past + [] == past;
      } else {
        PastPart(ms, live, past, fs[n].order);
        assert LiveOf(fs) == LiveOf(fs[..n]) + [] == LiveOf(fs[..n]);
      }
    }
  }

  function PlacesOrder(orderId: string): Event -> bool {
    (e: Event) => Places(e, orderId)
  }

  // The backfill counts an order of its history once.
  lemma {:induction false} EachOrderOnce(orders: seq<Order>, orderId: string)
    ensures Count(NewEvents({}, orders), PlacesOrder(orderId)) == if SeenIn(orders, orderId) then 1 else 0
  {
    if orders != [] {
      var n := |orders| - 1;
      var before, o := orders[..n], orders[n];
      assert orders == before + [o];
      EachOrderOnce(before, orderId);
      KeyMeansSeen(before, o.orderId);
      NewEventsAppend({}, before, o);
      assert {} + Keys(before) == Keys(before);
      if o.placedAt.Some? { SumAppend(NewEvents({}, before), PlacedEvent(o), Indicator(PlacesOrder(orderId))); }
      assert SeenIn(orders, orderId) <==> SeenIn(before, orderId) || Applies(o, orderId) by {
        if k :| 0 <= k < |before| && Applies(before[k], orderId) { assert Applies(orders[k], orderId); }
        if k :| 0 <= k < |orders| && Applies(orders[k], orderId) { assert k < n ==> Applies(before[k], orderId); }
        if Applies(o, orderId) { assert Applies(orders[n], orderId); }
      }
    }
  }

  lemma CountOfParts(h: seq<Event>, a: seq<Event>, b: seq<Event>, p: Event -> bool)
    requires multiset(h) == multiset(a) + multiset(b)
    ensures Count(h, p) == Count(a, p) + Count(b, p)
  {
    assert multiset(a + b) == multiset(h);
    SumPermutation(h, a + b, Indicator(p));
    SumConcat(a, b, Indicator(p));
  }

  // Main result: however live deliveries and backfilled orders interleave, without
  // store failures and with no live id in the backfill's namespace, the events
  // handled are the first occurrences of the live feed and the distinct orders of
  // the history, whatever was counted live; each counter is the sum of their shares
  // in the order in which they came.
  lemma OncePerNamespace(handlers: map<string, Handler>, fs: seq<Feed>, g: Gauge)
    requires (forall f :: f in fs ==> Faultless(FatesOf(f))) && Apart(fs, handlers)
    ensures var j, h := FeedAll(Begin({}, EMPTY), handlers, fs), FirstEvents(FeedMessages(fs, handlers));
            && !j.fatal && Read(j.store, g) == Sum(Trail(h), ShareOf(g))
            && multiset(h) ==
                 multiset(FirstEvents(Messages(LiveOf(fs), handlers))) + multiset(NewEvents({}, PastOf(fs)))
            && forall orderId :: Count(h, PlacesOrder(orderId)) ==
                 Count(FirstEvents(Messages(LiveOf(fs), handlers)), PlacesOrder(orderId))
                   + if SeenIn(PastOf(fs), orderId) then 1 else 0
  {
    var h, live, past := FirstEvents(FeedMessages(fs, handlers)), FirstEvents(Messages(LiveOf(fs), handlers)),
      NewEvents({}, PastOf(fs));
    FeedIsRunningFirstOccurrences(handlers, fs);
    RunReads(h, g);
    FeedParts(handlers, fs);
    forall orderId
      ensures Count(h, PlacesOrder(orderId)) ==
              Count(live, PlacesOrder(orderId)) + if SeenIn(PastOf(fs), orderId) then 1 else 0
    {
      CountOfParts(h, live, past, PlacesOrder(orderId));
      EachOrderOnce(PastOf(fs), orderId);
    }
  }

  // In particular, after the live events a backfill adds every order of the history
  // once: each counter is the live sum plus the sum over the history's orders.
  lemma LiveThenBackfill(handlers: map<string, Handler>, ds: seq<Delivery>, orders: seq<Order>, fates: nat -> Fates,
                         g: Gauge)
    requires forall d :: d in ds ==> Faultless(d.fates)
    requires forall k: nat :: Faultless(fates(k))
    requires forall id :: id in ClosedBy(Messages(ds, handlers)) ==> !Namespaced(id)
    ensures var live := ReceiveAll({}, EMPTY, handlers, ds);
            Read(All(Begin(live.0, live.1), orders, 0, fates).store, g) ==
            Sum(Trail(FirstEvents(Messages(ds, handlers))), ShareOf(g)) + Sum(NewEvents({}, orders), CountedShare(g))
  {
    var live := ReceiveAll({}, EMPTY, handlers, ds);
    ConsumingIsRunningFirstOccurrences(handlers, ds);
    ConsumedReads(handlers, ds, g);
    BackfillFoldsNewOrders(live.0, live.1, orders, fates);
    OtherNamespace(live.0, orders);
    NewEventsArePlaced({}, orders);
    PlacedReads(live.1, NewEvents({}, orders), g);
  }
}
