// Runs of the four handlers without store failures: what every counter is worth
// after a whole history of events, as a function of that history alone.
module Runs {
  import opened Events
  import opened Sums
  import opened Aggregates

  function RunAll(h: seq<Event>): Store {
    if h == [] then EMPTY else Handle(RunAll(h[..|h| - 1]), h[|h| - 1])
  }

  predicate Places(e: Event, orderId: string) {
    e.OrderPlaced? && e.orderId == orderId
  }

  function OrderOf(e: Event): string {
    if e.PaymentCompleted? then "" else e.orderId
  }

  function ContextOf(e: Event): OrderContext
    requires e.OrderPlaced?
  {
    OrderContext(e.currency, e.placedAt)
  }

  // The context row of each order: what its latest order.placed carried.
  function ContextsAfter(h: seq<Event>): map<string, OrderContext> {
    if h == [] then map[]
    else
      var n := |h| - 1;
      if h[n].OrderPlaced? then ContextsAfter(h[..n])[h[n].orderId := ContextOf(h[n])] else ContextsAfter(h[..n])
  }

  // An event together with what its handler found in order_context.
  datatype Applied = Applied(event: Event, found: Option<OrderContext>)

  function Trail(h: seq<Event>): seq<Applied> {
    if h == [] then []
    else
      var n := |h| - 1;
      Trail(h[..n]) + [Applied(h[n], Lookup(ContextsAfter(h[..n]), h[n]))]
  }

  // ---------- The share of one event in one gauge, read off the event ----------

  predicate ForProducts(g: Gauge) {
    (g.At? && g.cell.ProductCell?) || g.OverProducts?
  }

  function CounterOf(g: Gauge): Counter
    requires !ForProducts(g)
  {
    if g.At? then g.cell.counter else g.counter
  }

  function ProductCounterOf(g: Gauge): ProductCounter
    requires ForProducts(g)
  {
    if g.At? then g.cell.productCounter else g.productCounter
  }

  // The gauge on the same rows, of another counter.
  function Of(g: Gauge, c: Counter): Gauge
    requires !ForProducts(g)
  {
    match g
    case At(RestaurantCell(k, _)) => At(RestaurantCell(k, c))
    case At(BranchCell(k, _)) => At(BranchCell(k, c))
    case At(PlatformCell(k, _)) => At(PlatformCell(k, c))
    case OverRestaurants(days, _) => OverRestaurants(days, c)
    case OverBranches(days, _) => OverBranches(days, c)
    case OverPlatform(dates, _) => OverPlatform(dates, c)
  }

  // Does the gauge cover the row an order's event goes to in the gauge's own
  // collection? The platform row needs a currency.
  predicate Selects(g: Gauge, restaurant: int, branch: int, day: Day, currency: Option<string>)
    requires !ForProducts(g)
  {
    match g
    case At(RestaurantCell(k, _)) => k == DayKey(restaurant, day)
    case At(BranchCell(k, _)) => k == DayKey(branch, day)
    case At(PlatformCell(k, _)) => currency.Some? && k == PlatformKey(day, currency.value)
    case OverRestaurants(days, _) => days(DayKey(restaurant, day))
    case OverBranches(days, _) => days(DayKey(branch, day))
    case OverPlatform(dates, _) => currency.Some? && dates(PlatformKey(day, currency.value))
  }

  predicate SelectsLine(g: Gauge, branch: int, product: int, day: Day)
    requires ForProducts(g)
  {
    if g.At? then g.cell.productKey == ProductKey(branch, product, day) else g.lines(ProductKey(branch, product, day))
  }

  predicate SelectsPayment(g: Gauge, day: Day, currency: string) {
    match g
    case At(PlatformCell(k, _)) => k == PlatformKey(day, currency)
    case OverPlatform(dates, _) => dates(PlatformKey(day, currency))
    case _ => false
  }

  function LineShare(g: Gauge, branch: int, day: Day): Item -> int
    requires ForProducts(g)
  {
    (i: Item) =>
      if !SelectsLine(g, branch, i.product, day) then 0
      else if ProductCounterOf(g).Quantity? then i.quantity else i.lineTotal
  }

  function Share(a: Applied, g: Gauge): int {
    match a.event
    case OrderPlaced(_, restaurant, branch, currency, total, placedAt, items) =>
      if ForProducts(g) then Sum(items, LineShare(g, branch, UtcDay(placedAt)))
      else if !Selects(g, restaurant, branch, UtcDay(placedAt), Some(currency)) then 0
      else if CounterOf(g).Orders? then 1
      else if CounterOf(g).Revenue? then total
      else 0
    case OrderDelivered(_, restaurant, branch, currency, deliveredAt) =>
      if ForProducts(g) || a.found.None? then 0
      else if !Selects(g, restaurant, branch, UtcDay(a.found.value.placedAt), Some(currency)) then 0
      else if CounterOf(g).DeliveryMsCount? then 1
      else if CounterOf(g).DeliveryMsSum? then DeliveryMs(deliveredAt, a.found.value.placedAt)
      else 0
    case OrderRejected(_, restaurant, branch, occurredAt) =>
      var currency := if a.found.Some? then Some(a.found.value.currency) else None;
      if ForProducts(g) || !CounterOf(g).Failed? then 0
      else if Selects(g, restaurant, branch, UtcDay(occurredAt), currency) then 1
      else 0
    case PaymentCompleted(currency, amount, completedAt) =>
      if ForProducts(g) || !SelectsPayment(g, UtcDay(completedAt), currency) then 0
      else if CounterOf(g).Payments? then 1
      else if CounterOf(g).PaymentsAmount? then amount
      else 0
  }

  function ShareOf(g: Gauge): Applied -> int {
    (a: Applied) => Share(a, g)
  }

  // ---------- A handler run adds exactly its event's share ----------

  lemma SumOne(w: Write, g: Gauge)
    ensures Sum([w], DeltaOf(g)) == Delta(w, g)
  {
    SumAppend([], w, DeltaOf(g));
    assert [] + [w] == [w];
  }

  lemma FlatAppend(batches: seq<seq<Write>>, batch: seq<Write>, g: Gauge)
    ensures Flat(batches + [batch]) == Flat(batches) + batch
    ensures Sum(Flat(batches + [batch]), DeltaOf(g)) == Sum(Flat(batches), DeltaOf(g)) + Sum(batch, DeltaOf(g))
  {
    assert (batches + [batch])[..|batches|] == batches;
    SumConcat(Flat(batches), batch, DeltaOf(g));
  }

  lemma FlatOne(a: Write, g: Gauge)
    ensures Sum(Flat([[a]]), DeltaOf(g)) == Delta(a, g)
  {
    SumOne(a, g);
    FlatAppend([], [a], g);
    assert [] + [[a]] == [[a]];
  }

  lemma FlatTwo(a: Write, b: Write, g: Gauge)
    ensures Sum(Flat([[a], [b]]), DeltaOf(g)) == Delta(a, g) + Delta(b, g)
  {
    FlatOne(a, g);
    SumOne(b, g);
    FlatAppend([[a]], [b], g);
    assert [[a]] + [[b]] == [[a], [b]];
  }

  lemma FlatThree(a: Write, b: Write, c: Write, g: Gauge)
    ensures Sum(Flat([[a], [b], [c]]), DeltaOf(g)) == Delta(a, g) + Delta(b, g) + Delta(c, g)
  {
    FlatTwo(a, b, g);
    SumOne(c, g);
    FlatAppend([[a], [b]], [c], g);
    assert [[a], [b]] + [[c]] == [[a], [b], [c]];
  }

  lemma LinesShare(branch: int, day: Day, currency: string, items: seq<Item>, g: Gauge)
    ensures Sum(ItemWrites(branch, day, currency, items), DeltaOf(g)) ==
            if ForProducts(g) then Sum(items, LineShare(g, branch, day)) else 0
  {
    var ws := ItemWrites(branch, day, currency, items);
    if ForProducts(g) {
      SumEqual(ws, DeltaOf(g), items, LineShare(g, branch, day));
    } else {
      SumEqual(ws, DeltaOf(g), ws, _ => 0);
      ZeroSum(ws, _ => 0);
    }
  }

  lemma {:induction false} ZeroSum<T>(s: seq<T>, f: T -> int)
    requires forall x :: f(x) == 0
    ensures Sum(s, f) == 0
  {
    if s != [] { ZeroSum(s[..|s| - 1], f); }
  }

  lemma FlatFour(r: Write, b: Write, p: Write, c: Write, g: Gauge)
    ensures Sum(Flat([[r], [b], [p], [c]]), DeltaOf(g)) == Delta(r, g) + Delta(b, g) + Delta(p, g) + Delta(c, g)
  {
    FlatThree(r, b, p, g);
    SumOne(c, g);
    FlatAppend([[r], [b], [p]], [c], g);
    assert [[r], [b], [p]] + [[c]] == [[r], [b], [p], [c]];
  }

  lemma FlatLines(r: Write, b: Write, lines: seq<Write>, g: Gauge)
    ensures Sum(Flat([[r], [b], lines]), DeltaOf(g)) == Delta(r, g) + Delta(b, g) + Sum(lines, DeltaOf(g))
  {
    FlatTwo(r, b, g);
    FlatAppend([[r], [b]], lines, g);
    assert [[r], [b]] + [lines] == [[r], [b], lines];
  }

  lemma FlatFive(r: Write, b: Write, lines: seq<Write>, p: Write, c: Write, g: Gauge)
    ensures Sum(Flat([[r], [b], lines, [p], [c]]), DeltaOf(g)) ==
            Delta(r, g) + Delta(b, g) + Sum(lines, DeltaOf(g)) + Delta(p, g) + Delta(c, g)
  {
    FlatLines(r, b, lines, g);
    SumOne(p, g);
    SumOne(c, g);
    FlatAppend([[r], [b], lines], [p], g);
    assert [[r], [b], lines] + [[p]] == [[r], [b], lines, [p]];
    FlatAppend([[r], [b], lines, [p]], [c], g);
    assert [[r], [b], lines, [p]] + [[c]] == [[r], [b], lines, [p], [c]];
  }

  lemma FourOrFive(r: Write, b: Write, lines: seq<Write>, p: Write, c: Write, g: Gauge)
    requires c.ToContext?
    ensures Sum(Flat([[r], [b], lines, [p], [c]]), DeltaOf(g)) ==
            Delta(r, g) + Delta(b, g) + Sum(lines, DeltaOf(g)) + Delta(p, g)
    ensures Sum(Flat([[r], [b], [p], [c]]), DeltaOf(g)) == Delta(r, g) + Delta(b, g) + Delta(p, g)
  {
    FlatFive(r, b, lines, p, c, g);
    FlatFour(r, b, p, c, g);
  }

  lemma PlacedPlan(e: Event, found: Option<OrderContext>)
    requires e.OrderPlaced?
    ensures var day, change := UtcDay(e.placedAt), Placed(e.currency, e.total);
            var r, b := ToRestaurant(DayKey(e.restaurant, day), change), ToBranch(DayKey(e.branch, day), change);
            var p, c := ToPlatform(PlatformKey(day, e.currency), change), ToContext(e.orderId, ContextOf(e));
            Plan(e, found) ==
            if e.items == [] then [[r], [b], [p], [c]]
            else [[r], [b], ItemWrites(e.branch, day, e.currency, e.items), [p], [c]]
  {
  }

  lemma PlacedDeltas(e: Event, found: Option<OrderContext>, g: Gauge)
    requires e.OrderPlaced?
    ensures var day, change := UtcDay(e.placedAt), Placed(e.currency, e.total);
            Share(Applied(e, found), g) ==
            Delta(ToRestaurant(DayKey(e.restaurant, day), change), g)
            + Delta(ToBranch(DayKey(e.branch, day), change), g)
            + Delta(ToPlatform(PlatformKey(day, e.currency), change), g)
            + if ForProducts(g) then Sum(e.items, LineShare(g, e.branch, day)) else 0
  {
  }

  lemma PlacedShare(e: Event, found: Option<OrderContext>, g: Gauge)
    requires e.OrderPlaced?
    ensures Sum(Flat(Plan(e, found)), DeltaOf(g)) == Share(Applied(e, found), g)
  {
    var day, change := UtcDay(e.placedAt), Placed(e.currency, e.total);
    var lines := ItemWrites(e.branch, day, e.currency, e.items);
    PlacedPlan(e, found);
    FourOrFive(ToRestaurant(DayKey(e.restaurant, day), change), ToBranch(DayKey(e.branch, day), change), lines,
               ToPlatform(PlatformKey(day, e.currency), change), ToContext(e.orderId, ContextOf(e)), g);
    PlacedDeltas(e, found, g);
    LinesShare(e.branch, day, e.currency, e.items, g);
  }

  lemma DeliveredDeltas(e: Event, placed: OrderContext, g: Gauge)
    requires e.OrderDelivered?
    ensures var day, change := UtcDay(placed.placedAt), Delivered(DeliveryMs(e.deliveredAt, placed.placedAt));
            Delta(ToRestaurant(DayKey(e.restaurant, day), change), g)
            + Delta(ToBranch(DayKey(e.branch, day), change), g)
            + Delta(ToPlatform(PlatformKey(day, e.currency), change), g) == Share(Applied(e, Some(placed)), g)
  {
  }

  lemma DeliveredShare(e: Event, found: Option<OrderContext>, g: Gauge)
    requires e.OrderDelivered?
    ensures Sum(Flat(Plan(e, found)), DeltaOf(g)) == Share(Applied(e, found), g)
  {
    if found.Some? {
      var day := UtcDay(found.value.placedAt);
      var change := Delivered(DeliveryMs(e.deliveredAt, found.value.placedAt));
      DeliveredDeltas(e, found.value, g);
      FlatThree(ToRestaurant(DayKey(e.restaurant, day), change), ToBranch(DayKey(e.branch, day), change),
                ToPlatform(PlatformKey(day, e.currency), change), g);
    }
  }

  lemma RejectedDeltas(e: Event, found: Option<OrderContext>, g: Gauge)
    requires e.OrderRejected?
    ensures var day := UtcDay(e.occurredAt);
            Share(Applied(e, found), g) ==
            Delta(ToRestaurant(DayKey(e.restaurant, day), Rejected), g)
            + Delta(ToBranch(DayKey(e.branch, day), Rejected), g)
            + if found.Some? then Delta(ToPlatform(PlatformKey(day, found.value.currency), Rejected), g) else 0
  {
  }

  lemma RejectedPlan(e: Event, found: Option<OrderContext>)
    requires e.OrderRejected?
    ensures var day := UtcDay(e.occurredAt);
            var r, b := ToRestaurant(DayKey(e.restaurant, day), Rejected), ToBranch(DayKey(e.branch, day), Rejected);
            Plan(e, found) ==
            if found.None? then [[r], [b]]
            else [[r], [b], [ToPlatform(PlatformKey(day, found.value.currency), Rejected)]]
  {
  }

  lemma RejectedShare(e: Event, found: Option<OrderContext>, g: Gauge)
    requires e.OrderRejected?
    ensures Sum(Flat(Plan(e, found)), DeltaOf(g)) == Share(Applied(e, found), g)
  {
    var day := UtcDay(e.occurredAt);
    var r, b := ToRestaurant(DayKey(e.restaurant, day), Rejected), ToBranch(DayKey(e.branch, day), Rejected);
    RejectedDeltas(e, found, g);
    RejectedPlan(e, found);
    match found
    case None => FlatTwo(r, b, g);
    case Some(placed) => FlatThree(r, b, ToPlatform(PlatformKey(day, placed.currency), Rejected), g);
  }

  lemma PaymentShare(e: Event, found: Option<OrderContext>, g: Gauge)
    requires e.PaymentCompleted?
    ensures Sum(Flat(Plan(e, found)), DeltaOf(g)) == Share(Applied(e, found), g)
  {
    FlatOne(ToPayments(PlatformKey(UtcDay(e.completedAt), e.currency), e.amount), g);
  }

  // The writes of a handler run add up to the share read off its event.
  lemma PlanShare(a: Applied, g: Gauge)
    ensures Sum(Flat(Plan(a.event, a.found)), DeltaOf(g)) == Share(a, g)
  {
    var e, found := a.event, a.found;
    if e.OrderPlaced? { PlacedShare(e, found, g); }
    else if e.OrderDelivered? { DeliveredShare(e, found, g); }
    else if e.OrderRejected? { RejectedShare(e, found, g); }
    else { PaymentShare(e, found, g); }
  }

  lemma HandleReads(st: Store, e: Event, g: Gauge)
    ensures Read(Handle(st, e), g) == Read(st, g) + Share(Applied(e, Lookup(st.contexts, e)), g)
  {
    ApplyAllReads(st, Flat(Plan(e, Lookup(st.contexts, e))), g);
    PlanShare(Applied(e, Lookup(st.contexts, e)), g);
  }

  // ---------- Context rows ----------

  lemma {:induction false} WithoutContextWrites(st: Store, ws: seq<Write>)
    requires forall w :: w in ws ==> !w.ToContext?
    ensures ApplyAll(st, ws).contexts == st.contexts
  {
    if ws != [] {
      var n := |ws| - 1;
      assert ws[n] in ws;
      WithoutContextWrites(st, ws[..n]);
    }
  }

  lemma {:induction false} FlatMembers(batches: seq<seq<Write>>, w: Write)
    ensures w in Flat(batches) <==> exists i :: 0 <= i < |batches| && w in batches[i]
  {
    if batches != [] {
      var n := |batches| - 1;
      FlatMembers(batches[..n], w);
      assert forall i :: 0 <= i < n ==> batches[..n][i] == batches[i];
    }
  }

  lemma HandleContexts(st: Store, e: Event)
    ensures Handle(st, e).contexts ==
            if e.OrderPlaced? then st.contexts[e.orderId := ContextOf(e)] else st.contexts
  {
    var plan := Plan(e, Lookup(st.contexts, e));
    var n := |plan| - 1;
    if e.OrderPlaced? {
      forall w | w in Flat(plan[..n]) ensures !w.ToContext? { FlatMembers(plan[..n], w); }
      WithoutContextWrites(st, Flat(plan[..n]));
      ApplyAllConcat(st, Flat(plan[..n]), plan[n]);
    } else {
      forall w | w in Flat(plan) ensures !w.ToContext? { FlatMembers(plan, w); }
      WithoutContextWrites(st, Flat(plan));
    }
  }

  lemma {:induction false} RunContexts(h: seq<Event>)
    ensures RunAll(h).contexts == ContextsAfter(h)
  {
    if h != [] {
      var n := |h| - 1;
      RunContexts(h[..n]);
      HandleContexts(RunAll(h[..n]), h[n]);
    }
  }

  // A context row is there exactly when some order.placed of that order was
  // handled, and it holds what one of them carried.
  lemma {:induction false} ContextOrigin(h: seq<Event>, orderId: string)
    ensures orderId in ContextsAfter(h) <==> exists j :: 0 <= j < |h| && Places(h[j], orderId)
    ensures orderId in ContextsAfter(h) ==>
              exists j :: 0 <= j < |h| && Places(h[j], orderId) && ContextsAfter(h)[orderId] == ContextOf(h[j])
  {
    if h != [] {
      var n := |h| - 1;
      var h' := h[..n];
      ContextOrigin(h', orderId);
      assert forall j :: 0 <= j < n ==> h'[j] == h[j];
      if Places(h[n], orderId) {
        assert ContextsAfter(h)[orderId] == ContextOf(h[n]);
      } else {
        assert orderId in ContextsAfter(h) <==> orderId in ContextsAfter(h');
        if orderId in ContextsAfter(h') {
          var j :| 0 <= j < n && Places(h'[j], orderId) && ContextsAfter(h')[orderId] == ContextOf(h'[j]);
          assert Places(h[j], orderId);
        }
      }
    }
  }

  // ---------- The closed form of a run ----------

  lemma {:induction false} TrailEntries(h: seq<Event>)
    ensures |Trail(h)| == |h|
    ensures forall i :: 0 <= i < |h| ==> Trail(h)[i] == Applied(h[i], Lookup(ContextsAfter(h[..i]), h[i]))
  {
    if h != [] {
      var n := |h| - 1;
      var h' := h[..n];
      TrailEntries(h');
      forall i | 0 <= i < |h|
        ensures Trail(h)[i] == Applied(h[i], Lookup(ContextsAfter(h[..i]), h[i]))
      {
        if i < n { assert h'[..i] == h[..i]; }
      }
    }
  }

  // Every counter, and every total over a collection, is the sum of the shares of
  // the events handled.
  lemma {:induction false} RunReads(h: seq<Event>, g: Gauge)
    ensures Read(RunAll(h), g) == Sum(Trail(h), ShareOf(g))
  {
    if h != [] {
      var n := |h| - 1;
      RunReads(h[..n], g);
      RunContexts(h[..n]);
      HandleReads(RunAll(h[..n]), h[n], g);
      SumAppend(Trail(h[..n]), Applied(h[n], Lookup(ContextsAfter(h[..n]), h[n])), ShareOf(g));
    }
  }
}
