// The service over its five repositories. Each handler is a sequence of store
// calls with early exit; net gives the fate of the i-th store operation of a call
// of the service.
module Service {
  import opened Events
  import opened Aggregates
  import opened Repositories
  import opened Runs
  import opened Effects

  // ---------- What a handler does to the store, fate by fate ----------

  datatype Outcome = Outcome(store: Store, ok: bool)

  // The writes of a call that reach the store, as they reach it.
  function Surviving(batch: seq<Write>, net: nat -> Fate, from: nat): seq<Write> {
    if batch == [] then []
    else
      var n := |batch| - 1;
      var before := Surviving(batch[..n], net, from);
      if net(from + n).Lost? then before else before + [batch[n]]
  }

  // One call more, unless an earlier one failed.
  ghost function Then(o: Outcome, batch: seq<Write>, net: nat -> Fate, from: nat): Outcome {
    if !o.ok then o else Outcome(ApplyAll(o.store, Surviving(batch, net, from)), AllDone(|batch|, net, from))
  }

  ghost function Calls(o: Outcome, plan: seq<seq<Write>>, net: nat -> Fate, from: nat): Outcome
    decreases |plan|
  {
    if plan == [] then o else Calls(Then(o, plan[0], net, from), plan[1..], net, from + |plan[0]|)
  }

  // The context lookup, and the calls it allows.
  ghost function Resume(st: Store, e: Event, net: nat -> Fate): Outcome
    requires NeedsContext(e)
  {
    var n := |Plan(e, None)|;
    if !net(n).Done? then Outcome(st, false)
    else Calls(Outcome(st, true), Plan(e, Lookup(st.contexts, e))[n..], net, n + 1)
  }

  // A whole handler run.
  ghost function Serve(st: Store, e: Event, net: nat -> Fate): Outcome {
    var before := Calls(Outcome(st, true), Plan(e, None), net, 0);
    if !NeedsContext(e) || !before.ok then before else Resume(before.store, e, net)
  }

  // ---------- The same, write by write ----------

  function ThenWrite(o: Outcome, w: Write, fate: Fate): Outcome {
    if !o.ok then o else Outcome(if fate.Lost? then o.store else Apply(o.store, w), fate.Done?)
  }

  ghost function ThenLines(o: Outcome, lines: seq<Write>, net: nat -> Fate): Outcome
    requires forall w :: w in lines ==> w.ToProduct?
  {
    if !o.ok then o else Outcome(o.store.(products := Bulk(o.store.products, lines, net, 2)), AllDone(|lines|, net, 2))
  }

  lemma OneWrite(o: Outcome, w: Write, net: nat -> Fate, from: nat)
    ensures Then(o, [w], net, from) == ThenWrite(o, w, net(from))
  {
    assert [w][..0] == [];
    assert Surviving([w], net, from) == if net(from).Lost? then [] else [w];
    assert AllDone(1, net, from) <==> net(from).Done?;
    if Surviving([w], net, from) == [w] { assert ApplyAll(o.store, [w][..0]) == o.store; }
  }

  lemma NextWrite(o: Outcome, plan: seq<seq<Write>>, w: Write, net: nat -> Fate, from: nat)
    requires plan != [] && plan[0] == [w]
    ensures Calls(o, plan, net, from) == Calls(ThenWrite(o, w, net(from)), plan[1..], net, from + 1)
  {
    OneWrite(o, w, net, from);
  }

  lemma BulkOneMore(st: Store, models: seq<Write>, net: nat -> Fate, from: nat)
    requires forall w :: w in models ==> w.ToProduct?
    requires models != []
    ensures var n := |models| - 1;
            var before := Bulk(st.products, models[..n], net, from);
            st.(products := Bulk(st.products, models, net, from)) ==
            if net(from + n).Lost? then st.(products := before) else Apply(st.(products := before), models[n])
  {
    assert models[|models| - 1] in models;
  }

  // The product repository's bulk call is one call of product writes.
  lemma {:induction false} BulkLands(st: Store, models: seq<Write>, net: nat -> Fate, from: nat)
    requires forall w :: w in models ==> w.ToProduct?
    ensures ApplyAll(st, Surviving(models, net, from)) == st.(products := Bulk(st.products, models, net, from))
  {
    if models != [] {
      var n := |models| - 1;
      BulkLands(st, models[..n], net, from);
      BulkOneMore(st, models, net, from);
      ApplyMore(st, Surviving(models[..n], net, from), models[n]);
    }
  }

  function ThenTwo(o: Outcome, r: Write, b: Write, x: Fate, y: Fate): Outcome {
    ThenWrite(ThenWrite(o, r, x), b, y)
  }

  lemma TwoWrites(o: Outcome, plan: seq<seq<Write>>, r: Write, b: Write, net: nat -> Fate, from: nat)
    requires |plan| >= 2 && plan[0] == [r] && plan[1] == [b]
    ensures Calls(o, plan, net, from) == Calls(ThenTwo(o, r, b, net(from), net(from + 1)), plan[2..], net, from + 2)
  {
    NextWrite(o, plan, r, net, from);
    NextWrite(ThenWrite(o, r, net(from)), plan[1..], b, net, from + 1);
    assert plan[1..][1..] == plan[2..];
  }

  function AfterRestaurantAndBranch(st: Store, e: Event, day: Day, change: Change, a: Fate, b: Fate): Outcome
    requires !e.PaymentCompleted?
  {
    ThenTwo(Outcome(st, true), ToRestaurant(DayKey(e.restaurant, day), change), ToBranch(DayKey(e.branch, day), change),
      a, b)
  }

  ghost function PlacedInOrder(st: Store, e: Event, net: nat -> Fate): Outcome
    requires e.OrderPlaced?
  {
    var day, change, n := UtcDay(e.placedAt), Placed(e.currency, e.total), |e.items|;
    var o := ThenLines(AfterRestaurantAndBranch(st, e, day, change, net(0), net(1)),
      ItemWrites(e.branch, day, e.currency, e.items), net);
    ThenWrite(ThenWrite(o, ToPlatform(PlatformKey(day, e.currency), change), net(2 + n)),
      ToContext(e.orderId, ContextOf(e)), net(3 + n))
  }

  lemma LinesCall(o: Outcome, lines: seq<Write>, net: nat -> Fate)
    requires forall w :: w in lines ==> w.ToProduct?
    ensures ThenLines(o, lines, net) == Then(o, lines, net, 2)
    ensures lines == [] ==> ThenLines(o, lines, net) == o
  {
    BulkLands(o.store, lines, net, 2);
  }

  // The product call, if there is one.
  lemma LinesNext(o: Outcome, rest: seq<seq<Write>>, lines: seq<Write>, net: nat -> Fate)
    requires forall w :: w in lines ==> w.ToProduct?
    ensures Calls(o, if lines == [] then rest else [lines] + rest, net, 2)
            == Calls(ThenLines(o, lines, net), rest, net, 2 + |lines|)
  {
    LinesCall(o, lines, net);
    assert ([lines] + rest)[1..] == rest;
  }

  lemma LastTwo(o: Outcome, p: Write, c: Write, net: nat -> Fate, from: nat)
    ensures Calls(o, [[p], [c]], net, from) == ThenWrite(ThenWrite(o, p, net(from)), c, net(from + 1))
  {
    var rest := [[p], [c]];
    NextWrite(o, rest, p, net, from);
    assert rest[1..] == [[c]];
    NextWrite(ThenWrite(o, p, net(from)), [[c]], c, net, from + 1);
  }

  lemma PlacedRest(o: Outcome, lines: seq<Write>, p: Write, c: Write, plan: seq<seq<Write>>, net: nat -> Fate)
    requires forall w :: w in lines ==> w.ToProduct?
    requires plan == if lines == [] then [[p], [c]] else [lines] + [[p], [c]]
    ensures Calls(o, plan, net, 2) ==
            ThenWrite(ThenWrite(ThenLines(o, lines, net), p, net(2 + |lines|)), c, net(3 + |lines|))
  {
    LinesNext(o, [[p], [c]], lines, net);
    LastTwo(ThenLines(o, lines, net), p, c, net, 2 + |lines|);
  }

  lemma PlacedShape(e: Event)
    requires e.OrderPlaced?
    ensures var day, change, plan := UtcDay(e.placedAt), Placed(e.currency, e.total), Plan(e, None);
            var lines := ItemWrites(e.branch, day, e.currency, e.items);
            var last := [[ToPlatform(PlatformKey(day, e.currency), change)], [ToContext(e.orderId, ContextOf(e))]];
            && |plan| >= 2
            && plan[0] == [ToRestaurant(DayKey(e.restaurant, day), change)]
            && plan[1] == [ToBranch(DayKey(e.branch, day), change)]
            && plan[2..] == if lines == [] then last else [lines] + last
  {
  }

  lemma PlacedRun(o: Outcome, plan: seq<seq<Write>>, r: Write, b: Write, lines: seq<Write>, p: Write, c: Write,
                  net: nat -> Fate)
    requires forall w :: w in lines ==> w.ToProduct?
    requires |plan| >= 2 && plan[0] == [r] && plan[1] == [b]
    requires plan[2..] == if lines == [] then [[p], [c]] else [lines] + [[p], [c]]
    ensures var n, o' := |lines|, ThenLines(ThenTwo(o, r, b, net(0), net(1)), lines, net);
            Calls(o, plan, net, 0) == ThenWrite(ThenWrite(o', p, net(2 + n)), c, net(3 + n))
  {
    TwoWrites(o, plan, r, b, net, 0);
    PlacedRest(ThenTwo(o, r, b, net(0), net(1)), lines, p, c, plan[2..], net);
  }

  lemma PlacedCalls(st: Store, e: Event, net: nat -> Fate)
    requires e.OrderPlaced?
    ensures Serve(st, e, net) == PlacedInOrder(st, e, net)
  {
    var day, change := UtcDay(e.placedAt), Placed(e.currency, e.total);
    PlacedShape(e);
    PlacedRun(Outcome(st, true), Plan(e, None), ToRestaurant(DayKey(e.restaurant, day), change),
              ToBranch(DayKey(e.branch, day), change),
              ItemWrites(e.branch, day, e.currency, e.items), ToPlatform(PlatformKey(day, e.currency), change),
              ToContext(e.orderId, ContextOf(e)), net);
  }

  function DeliveredOnDay(st: Store, e: Event, day: Day, ms: int, net: nat -> Fate): Outcome
    requires e.OrderDelivered?
  {
    ThenWrite(AfterRestaurantAndBranch(st, e, day, Delivered(ms), net(1), net(2)),
              ToPlatform(PlatformKey(day, e.currency), Delivered(ms)), net(3))
  }

  function DeliveredInOrder(st: Store, e: Event, net: nat -> Fate): Outcome
    requires e.OrderDelivered?
  {
    if !net(0).Done? then Outcome(st, false)
    else if e.orderId !in st.contexts then Outcome(st, true)
    else
      var placedAt := st.contexts[e.orderId].placedAt;
      DeliveredOnDay(st, e, UtcDay(placedAt), DeliveryMs(e.deliveredAt, placedAt), net)
  }

  lemma ThreeWrites(o: Outcome, plan: seq<seq<Write>>, r: Write, b: Write, p: Write, net: nat -> Fate, from: nat)
    requires plan == [[r], [b], [p]]
    ensures Calls(o, plan, net, from) == ThenWrite(ThenTwo(o, r, b, net(from), net(from + 1)), p, net(from + 2))
  {
    TwoWrites(o, plan, r, b, net, from);
    assert plan[2..] == [[p]];
    NextWrite(ThenTwo(o, r, b, net(from), net(from + 1)), [[p]], p, net, from + 2);
  }

  lemma FoundCalls(st: Store, plan: seq<seq<Write>>, e: Event, day: Day, ms: int, net: nat -> Fate)
    requires e.OrderDelivered?
    requires plan == [[ToRestaurant(DayKey(e.restaurant, day), Delivered(ms))],
                      [ToBranch(DayKey(e.branch, day), Delivered(ms))],
                      [ToPlatform(PlatformKey(day, e.currency), Delivered(ms))]]
    ensures Calls(Outcome(st, true), plan, net, 1) == DeliveredOnDay(st, e, day, ms, net)
  {
    ThreeWrites(Outcome(st, true), plan, ToRestaurant(DayKey(e.restaurant, day), Delivered(ms)),
                ToBranch(DayKey(e.branch, day), Delivered(ms)),
                ToPlatform(PlatformKey(day, e.currency), Delivered(ms)), net, 1);
  }

  lemma LookupFirst(st: Store, e: Event, net: nat -> Fate)
    requires e.OrderDelivered?
    ensures Serve(st, e, net) ==
            if !net(0).Done? then Outcome(st, false)
              else Calls(Outcome(st, true), Plan(e, Lookup(st.contexts, e)), net, 1)
  {
    assert Plan(e, None) == [];
    assert Calls(Outcome(st, true), [], net, 0) == Outcome(st, true);
    assert Plan(e, Lookup(st.contexts, e))[0..] == Plan(e, Lookup(st.contexts, e));
  }

  lemma DeliveredCalls(st: Store, e: Event, net: nat -> Fate)
    requires e.OrderDelivered?
    ensures Serve(st, e, net) == DeliveredInOrder(st, e, net)
  {
    LookupFirst(st, e, net);
    var found := Lookup(st.contexts, e);
    if found.Some? {
      FoundCalls(st, Plan(e, found), e, UtcDay(found.value.placedAt), DeliveryMs(e.deliveredAt, found.value.placedAt),
        net);
    }
  }

  ghost function RejectedInOrder(st: Store, e: Event, net: nat -> Fate): Outcome
    requires e.OrderRejected?
  {
    RejectedLookup(AfterRestaurantAndBranch(st, e, UtcDay(e.occurredAt), Rejected, net(0), net(1)),
                   Lookup(st.contexts, e), UtcDay(e.occurredAt), net(2), net(3))
  }

  // The lookup after the restaurant's and the branch's row, and what it allows.
  function RejectedLookup(o: Outcome, found: Option<OrderContext>, day: Day, x: Fate, y: Fate): Outcome {
    if !o.ok then o
    else if !x.Done? then o.(ok := false)
    else if found.None? then o
    else ThenWrite(o, ToPlatform(PlatformKey(day, found.value.currency), Rejected), y)
  }

  lemma RejectedShape(st: Store, e: Event)
    requires e.OrderRejected?
    ensures var day, first, found := UtcDay(e.occurredAt), Plan(e, None), Lookup(st.contexts, e);
            && first == [[ToRestaurant(DayKey(e.restaurant, day), Rejected)],
                [ToBranch(DayKey(e.branch, day), Rejected)]]
            && Plan(e, found)[2..] ==
               if found.None? then [] else [[ToPlatform(PlatformKey(day, found.value.currency), Rejected)]]
  {
  }

  lemma FirstTwoKeepContexts(o: Outcome, r: Write, b: Write, x: Fate, y: Fate)
    requires !r.ToContext? && !b.ToContext?
    ensures ThenTwo(o, r, b, x, y).store.contexts == o.store.contexts
  {
  }

  lemma RejectedCalls(st: Store, e: Event, net: nat -> Fate)
    requires e.OrderRejected?
    ensures Serve(st, e, net) == RejectedInOrder(st, e, net)
  {
    var day, found := UtcDay(e.occurredAt), Lookup(st.contexts, e);
    var r, b := ToRestaurant(DayKey(e.restaurant, day), Rejected), ToBranch(DayKey(e.branch, day), Rejected);
    var o := ThenTwo(Outcome(st, true), r, b, net(0), net(1));
    RejectedShape(st, e);
    TwoWrites(Outcome(st, true), Plan(e, None), r, b, net, 0);
    assert Plan(e, None)[2..] == [];
    FirstTwoKeepContexts(Outcome(st, true), r, b, net(0), net(1));
    if o.ok && net(2).Done? && found.Some? {
      var p := ToPlatform(PlatformKey(day, found.value.currency), Rejected);
      NextWrite(o, [[p]], p, net, 3);
    }
  }

  lemma PaymentCalls(st: Store, e: Event, net: nat -> Fate)
    requires e.PaymentCompleted?
    ensures Serve(st, e, net) ==
            ThenWrite(Outcome(st, true), ToPayments(PlatformKey(UtcDay(e.completedAt), e.currency), e.amount), net(0))
  {
    NextWrite(Outcome(st, true), Plan(e, None), ToPayments(PlatformKey(UtcDay(e.completedAt), e.currency), e.amount),
      net, 0);
  }

  // ---------- What the calls come to ----------

  lemma {:induction false} BulkWithoutFaults(rows: map<ProductKey, ProductRow>, models: seq<Write>, net: nat -> Fate,
                                             from: nat, st: Store)
    requires (forall w :: w in models ==> w.ToProduct?) && AllDone(|models|, net, from) && st.products == rows
    ensures st.(products := Bulk(rows, models, net, from)) == ApplyAll(st, models)
  {
    if models != [] {
      var n := |models| - 1;
      assert models[n] in models;
      BulkWithoutFaults(rows, models[..n], net, from, st);
      BulkOneMore(st, models, net, from);
    }
  }

  // The calls of a placed event, each made only if all before it succeeded.
  ghost predicate PlacedStops(st: Store, st': Store, n: nat, net: nat -> Fate) {
    && (!net(0).Done? ==> st'.branches == st.branches)
    && (!net(0).Done? || !net(1).Done? ==> st'.products == st.products)
    && (!net(0).Done? || !net(1).Done? || !AllDone(n, net, 2) ==> st'.platform == st.platform)
    && (!net(0).Done? || !net(1).Done? || !AllDone(n, net, 2) || !net(2 + n).Done? ==> st'.contexts == st.contexts)
  }

  lemma LinesOutcome(o: Outcome, e: Event, net: nat -> Fate)
    requires e.OrderPlaced?
    ensures var lines := ItemWrites(e.branch, UtcDay(e.placedAt), e.currency, e.items);
            var o' := ThenLines(o, lines, net);
            && o'.store == o.store.(products := o'.store.products)
            && (o'.ok <==> o.ok && AllDone(|e.items|, net, 2))
            && (!o.ok ==> o'.store == o.store)
            && (o'.ok ==> ProductRowsGrew(o.store.products, o'.store.products, e.branch, UtcDay(e.placedAt), e.currency,
                  e.items))
  {
    var lines := ItemWrites(e.branch, UtcDay(e.placedAt), e.currency, e.items);
    if o.ok && AllDone(|lines|, net, 2) {
      BulkWithoutFaults(o.store.products, lines, net, 2, o.store);
      ProductWrites(o.store, e.branch, UtcDay(e.placedAt), e.currency, e.items);
    }
  }

  lemma PairOutcome(st: Store, e: Event, day: Day, change: Change, x: Fate, y: Fate)
    requires !e.PaymentCompleted?
    ensures var o := AfterRestaurantAndBranch(st, e, day, change, x, y);
            var currency := if change.Placed? then Some(change.currency) else None;
            && (o.ok <==> x.Done? && y.Done?)
            && o.store == st.(restaurants := o.store.restaurants, branches := o.store.branches)
            && (!x.Done? ==> o.store.branches == st.branches)
            && (o.ok ==> DayRowGrew(st.restaurants, o.store.restaurants, e.restaurant, day, currency, Gained(change)))
            && (o.ok ==> DayRowGrew(st.branches, o.store.branches, e.branch, day, currency, Gained(change)))
  {
    var r, b := ToRestaurant(DayKey(e.restaurant, day), change), ToBranch(DayKey(e.branch, day), change);
    RestaurantWrite(st, r.dayKey, change);
    BranchWrite(Apply(st, r), b.dayKey, change);
  }

  lemma PlacedEnd(o: Outcome, e: Event, x: Fate, y: Fate)
    requires e.OrderPlaced?
    ensures var day, change := UtcDay(e.placedAt), Placed(e.currency, e.total);
            var p, c := ToPlatform(PlatformKey(day, e.currency), change), ToContext(e.orderId, ContextOf(e));
            var o' := ThenWrite(ThenWrite(o, p, x), c, y);
            && (o'.ok <==> o.ok && x.Done? && y.Done?)
            && o'.store == o.store.(platform := o'.store.platform, contexts := o'.store.contexts)
            && (!o.ok ==> o'.store == o.store)
            && (!x.Done? ==> o'.store.contexts == o.store.contexts)
            && (o'.ok ==> PlatformRowGrew(o.store.platform, o'.store.platform, day, e.currency, Gained(change), 0, 0))
            && (o'.ok ==> o'.store.contexts == o.store.contexts[e.orderId := OrderContext(e.currency, e.placedAt)])
  {
    PlatformWrite(o.store, PlatformKey(UtcDay(e.placedAt), e.currency), Placed(e.currency, e.total));
  }

  // When it succeeds, what it has counted then, and what a failure leaves undone.
  ghost predicate PlacedMeans(st: Store, e: Event, net: nat -> Fate, o: Outcome)
    requires e.OrderPlaced?
  {
    && (o.ok <==> net(0).Done? && net(1).Done? && AllDone(|e.items|, net, 2) && net(2 + |e.items|).Done?
                  && net(3 + |e.items|).Done?)
    && PlacedStops(st, o.store, |e.items|, net)
    && (o.ok ==>
          PlacedCounted(st, o.store, e.orderId, e.restaurant, e.branch, e.currency, e.total, e.placedAt, e.items))
  }

  // The run in its three parts, and what each came to.
  lemma PlacedParts(st: Store, e: Event, net: nat -> Fate) returns (o1: Outcome, o2: Outcome, o: Outcome)
    requires e.OrderPlaced?
    ensures o == Serve(st, e, net)
    ensures o1.ok <==> net(0).Done? && net(1).Done?
    ensures o1.store == st.(restaurants := o1.store.restaurants, branches := o1.store.branches)
    ensures !net(0).Done? ==> o1.store.branches == st.branches
    ensures var day, currency := UtcDay(e.placedAt), Some(e.currency);
            o1.ok ==>
              && DayRowGrew(st.restaurants, o1.store.restaurants, e.restaurant, day, currency,
                  Tally(1, e.total, 0, 0, 0))
              && DayRowGrew(st.branches, o1.store.branches, e.branch, day, currency, Tally(1, e.total, 0, 0, 0))
    ensures o2.ok <==> o1.ok && AllDone(|e.items|, net, 2)
    ensures o2.store == o1.store.(products := o2.store.products) && (!o1.ok ==> o2.store == o1.store)
    ensures o2.ok ==>
              ProductRowsGrew(o1.store.products, o2.store.products, e.branch, UtcDay(e.placedAt), e.currency, e.items)
    ensures o.ok <==> o2.ok && net(2 + |e.items|).Done? && net(3 + |e.items|).Done?
    ensures o.store == o2.store.(platform := o.store.platform, contexts := o.store.contexts)
    ensures (!o2.ok ==> o.store == o2.store) && (!net(2 + |e.items|).Done? ==> o.store.contexts == o2.store.contexts)
    ensures o.ok ==>
              && PlatformRowGrew(o2.store.platform, o.store.platform, UtcDay(e.placedAt), e.currency,
                                 Tally(1, e.total, 0, 0, 0), 0, 0)
              && o.store.contexts == o2.store.contexts[e.orderId := OrderContext(e.currency, e.placedAt)]
  {
    var day, change, n := UtcDay(e.placedAt), Placed(e.currency, e.total), |e.items|;
    PlacedCalls(st, e, net);
    PairOutcome(st, e, day, change, net(0), net(1));
    o1 := AfterRestaurantAndBranch(st, e, day, change, net(0), net(1));
    LinesOutcome(o1, e, net);
    o2 := ThenLines(o1, ItemWrites(e.branch, day, e.currency, e.items), net);
    PlacedEnd(o2, e, net(2 + n), net(3 + n));
    o := Serve(st, e, net);
  }

  lemma PlacedOutcome(st: Store, e: Event, net: nat -> Fate)
    requires e.OrderPlaced?
    ensures PlacedMeans(st, e, net, Serve(st, e, net))
  {
    var o1, o2, o := PlacedParts(st, e, net);
  }

  lemma MillisCounted(deliveredAt: Instant, placedAt: Instant)
    ensures Millis(DeliveryMs(deliveredAt, placedAt), placedAt, deliveredAt)
  {
  }

  lemma DeliveredEnd(st: Store, e: Event, day: Day, ms: int, net: nat -> Fate)
    requires e.OrderDelivered?
    ensures var o := DeliveredOnDay(st, e, day, ms, net);
            && (o.ok <==> net(1).Done? && net(2).Done? && net(3).Done?)
            && (!net(1).Done? ==> o.store.branches == st.branches)
            && (!net(1).Done? || !net(2).Done? ==> o.store.platform == st.platform)
            && o.store.products == st.products && o.store.contexts == st.contexts
            && (o.ok ==> DeliveredIn(st, o.store, e.restaurant, e.branch, e.currency, day, ms))
  {
    PairOutcome(st, e, day, Delivered(ms), net(1), net(2));
    var o := AfterRestaurantAndBranch(st, e, day, Delivered(ms), net(1), net(2));
    PlatformWrite(o.store, PlatformKey(day, e.currency), Delivered(ms));
  }

  // The lookup comes first, and nothing follows its failure or its miss.
  ghost predicate DeliveredStops(st: Store, st': Store, orderId: string, net: nat -> Fate) {
    && (!net(0).Done? || orderId !in st.contexts ==> st' == st)
    && (!net(1).Done? ==> st'.branches == st.branches)
    && (!net(1).Done? || !net(2).Done? ==> st'.platform == st.platform)
    && st'.products == st.products && st'.contexts == st.contexts
  }

  // Likewise for a delivered event.
  ghost predicate DeliveredMeans(st: Store, e: Event, net: nat -> Fate, o: Outcome)
    requires e.OrderDelivered?
  {
    && (o.ok <==> net(0).Done? && (e.orderId in st.contexts ==> net(1).Done? && net(2).Done? && net(3).Done?))
    && DeliveredStops(st, o.store, e.orderId, net)
    && (o.ok ==> DeliveredCounted(st, o.store, e.orderId, e.restaurant, e.branch, e.currency, e.deliveredAt))
  }

  lemma DeliveredOutcome(st: Store, e: Event, net: nat -> Fate)
    requires e.OrderDelivered?
    ensures DeliveredMeans(st, e, net, Serve(st, e, net))
  {
    DeliveredCalls(st, e, net);
    if net(0).Done? && e.orderId in st.contexts {
      var placedAt := st.contexts[e.orderId].placedAt;
      MillisCounted(e.deliveredAt, placedAt);
      DeliveredEnd(st, e, UtcDay(placedAt), DeliveryMs(e.deliveredAt, placedAt), net);
    }
  }

  // The lookup comes after the restaurant's and the branch's row.
  ghost predicate RejectedStops(st: Store, st': Store, orderId: string, net: nat -> Fate) {
    && (!net(0).Done? ==> st'.branches == st.branches)
    && (!net(0).Done? || !net(1).Done? || !net(2).Done? || orderId !in st.contexts ==> st'.platform == st.platform)
    && st'.products == st.products && st'.contexts == st.contexts
  }

  // Likewise for a rejected event.
  ghost predicate RejectedMeans(st: Store, e: Event, net: nat -> Fate, o: Outcome)
    requires e.OrderRejected?
  {
    && (o.ok <==> net(0).Done? && net(1).Done? && net(2).Done? && (e.orderId in st.contexts ==> net(3).Done?))
    && RejectedStops(st, o.store, e.orderId, net)
    && (o.ok ==> RejectedCounted(st, o.store, e.orderId, e.restaurant, e.branch, e.occurredAt))
  }

  lemma RejectedRows(st: Store, e: Event, x: Fate, y: Fate)
    requires e.OrderRejected?
    ensures var o, day := AfterRestaurantAndBranch(st, e, UtcDay(e.occurredAt), Rejected, x, y), UtcDay(e.occurredAt);
            && (o.ok <==> x.Done? && y.Done?)
            && o.store == st.(restaurants := o.store.restaurants, branches := o.store.branches)
            && (!x.Done? ==> o.store.branches == st.branches)
            && (o.ok ==> DayRowGrew(st.restaurants, o.store.restaurants, e.restaurant, day, None, Tally(0, 0, 0, 0, 1)))
            && (o.ok ==> DayRowGrew(st.branches, o.store.branches, e.branch, day, None, Tally(0, 0, 0, 0, 1)))
  {
    PairOutcome(st, e, UtcDay(e.occurredAt), Rejected, x, y);
  }

  lemma RejectedOutcome(st: Store, e: Event, net: nat -> Fate)
    requires e.OrderRejected?
    ensures RejectedMeans(st, e, net, Serve(st, e, net))
  {
    var day := UtcDay(e.occurredAt);
    var o := AfterRestaurantAndBranch(st, e, day, Rejected, net(0), net(1));
    RejectedCalls(st, e, net);
    RejectedRows(st, e, net(0), net(1));
    RejectedEnd(o, Lookup(st.contexts, e), day, net(2), net(3));
  }

  lemma RejectedEnd(o: Outcome, found: Option<OrderContext>, day: Day, x: Fate, y: Fate)
    ensures var o' := RejectedLookup(o, found, day, x, y);
            && (o'.ok <==> o.ok && x.Done? && (found.Some? ==> y.Done?))
            && o'.store == o.store.(platform := o'.store.platform)
            && (!o.ok || !x.Done? || found.None? ==> o'.store == o.store)
            && (o'.ok && found.Some? ==>
                  PlatformRowGrew(o.store.platform, o'.store.platform, day, found.value.currency, Tally(0, 0, 0, 0, 1),
                    0, 0))
  {
    if found.Some? { PlatformWrite(o.store, PlatformKey(day, found.value.currency), Rejected); }
  }

  // Likewise for a payment.
  ghost predicate PaymentMeans(st: Store, e: Event, net: nat -> Fate, o: Outcome)
    requires e.PaymentCompleted?
  {
    && (o.ok <==> net(0).Done?)
    && (o.ok ==> PaymentCounted(st, o.store, e.currency, e.amount, e.completedAt))
  }

  lemma OneWriteSucceeds(st: Store, w: Write, fate: Fate)
    ensures var o := ThenWrite(Outcome(st, true), w, fate);
            (o.ok <==> fate.Done?) && (o.ok ==> o.store == Apply(st, w))
  {
  }

  lemma PaymentOutcome(st: Store, e: Event, net: nat -> Fate)
    requires e.PaymentCompleted?
    ensures PaymentMeans(st, e, net, Serve(st, e, net))
  {
    PaymentCalls(st, e, net);
    OneWriteSucceeds(st, ToPayments(PlatformKey(UtcDay(e.completedAt), e.currency), e.amount), net(0));
    PaymentWriteCounts(st, e.currency, e.amount, e.completedAt);
  }

  // ---------- The service ----------

  class AnalyticsService {
    const restaurantDays: RestaurantDayRepo
    const branchDays: BranchDayRepo
    const productDays: ProductDayRepo
    const platformDays: PlatformDayRepo
    const orderContexts: OrderContextRepo

    constructor (r: RestaurantDayRepo, b: BranchDayRepo, p: ProductDayRepo, f: PlatformDayRepo, c: OrderContextRepo)
      ensures restaurantDays == r && branchDays == b && productDays == p && platformDays == f && orderContexts == c
    {
      restaurantDays, branchDays, productDays, platformDays, orderContexts := r, b, p, f, c;
    }

    function View(): Store
      reads restaurantDays, branchDays, productDays, platformDays, orderContexts
    {
      Store(restaurantDays.rows, branchDays.rows, productDays.rows, platformDays.rows, orderContexts.rows)
    }

    method OnOrderPlaced(e: Event, net: nat -> Fate) returns (ok: bool)
      requires e.OrderPlaced?
      modifies restaurantDays, branchDays, productDays, platformDays, orderContexts
      ensures Outcome(View(), ok) == Serve(old(View()), e, net)
      ensures PlacedMeans(old(View()), e, net, Outcome(View(), ok))
    {
      PlacedOutcome(View(), e, net);
      ok := ApplyPlacement(e, net);
    }

    method ApplyPlacement(e: Event, net: nat -> Fate) returns (ok: bool)
      requires e.OrderPlaced?
      modifies restaurantDays, branchDays, productDays, platformDays, orderContexts
      ensures Outcome(View(), ok) == Serve(old(View()), e, net)
    {
      var day, n := UtcDay(e.placedAt), |e.items|;
      PlacedCalls(View(), e, net);
      ok := ApplyToRestaurantAndBranch(e, day, net);
      if !ok { return; }
      ok := productDays.ApplyOrderPlacedItems(e.branch, day, e.currency, e.items, net, 2);
      if !ok { return; }
      ok := ApplyToPlatformAndContext(e, day, net(2 + n), net(3 + n));
    }

    method ApplyToPlatformAndContext(e: Event, day: Day, x: Fate, y: Fate) returns (ok: bool)
      requires e.OrderPlaced?
      modifies platformDays, orderContexts
      ensures var p := ToPlatform(PlatformKey(day, e.currency), Placed(e.currency, e.total));
              Outcome(View(), ok) ==
              ThenWrite(ThenWrite(Outcome(old(View()), true), p, x), ToContext(e.orderId, ContextOf(e)), y)
    {
      ok := platformDays.ApplyOrderPlaced(day, e.currency, e.total, x);
      if !ok { return; }
      ok := orderContexts.Save(e.orderId, e.currency, e.placedAt, y);
    }

    method ApplyToRestaurantAndBranch(e: Event, day: Day, net: nat -> Fate) returns (ok: bool)
      requires e.OrderPlaced? && day == UtcDay(e.placedAt)
      modifies restaurantDays, branchDays
      ensures Outcome(View(), ok) ==
              AfterRestaurantAndBranch(old(View()), e, day, Placed(e.currency, e.total), net(0), net(1))
    {
      ok := restaurantDays.ApplyOrderPlaced(e, net(0));
      if !ok { return; }
      ok := branchDays.ApplyOrderPlaced(e.branch, day, e.currency, e.total, net(1));
    }

    method OnOrderDelivered(e: Event, net: nat -> Fate) returns (ok: bool)
      requires e.OrderDelivered?
      modifies restaurantDays, branchDays, productDays, platformDays, orderContexts
      ensures Outcome(View(), ok) == Serve(old(View()), e, net)
      ensures DeliveredMeans(old(View()), e, net, Outcome(View(), ok))
    {
      DeliveredCalls(View(), e, net);
      DeliveredOutcome(View(), e, net);
      var found: Option<OrderContext>;
      ok, found := orderContexts.Find(e.orderId, net(0));
      if !ok || found.None? { return; }
      var placedAt := found.value.placedAt;
      ok := ApplyDelivery(e, UtcDay(placedAt), DeliveryMs(e.deliveredAt, placedAt), net);
    }

    method ApplyDelivery(e: Event, day: Day, ms: int, net: nat -> Fate) returns (ok: bool)
      requires e.OrderDelivered?
      modifies restaurantDays, branchDays, productDays, platformDays, orderContexts
      ensures Outcome(View(), ok) == DeliveredOnDay(old(View()), e, day, ms, net)
    {
      ok := restaurantDays.ApplyOrderDelivered(e.restaurant, day, ms, net(1));
      if !ok { return; }
      ok := branchDays.ApplyOrderDelivered(e.branch, day, ms, net(2));
      if !ok { return; }
      ok := platformDays.ApplyOrderDelivered(day, e.currency, ms, net(3));
    }

    method OnOrderRejected(e: Event, net: nat -> Fate) returns (ok: bool)
      requires e.OrderRejected?
      modifies restaurantDays, branchDays, productDays, platformDays, orderContexts
      ensures Outcome(View(), ok) == Serve(old(View()), e, net)
      ensures RejectedMeans(old(View()), e, net, Outcome(View(), ok))
    {
      RejectedOutcome(View(), e, net);
      ok := ApplyRejection(e, net);
    }

    method ApplyRejection(e: Event, net: nat -> Fate) returns (ok: bool)
      requires e.OrderRejected?
      modifies restaurantDays, branchDays, productDays, platformDays, orderContexts
      ensures Outcome(View(), ok) == Serve(old(View()), e, net)
    {
      RejectedCalls(View(), e, net);
      var day := UtcDay(e.occurredAt);
      ok := restaurantDays.ApplyOrderRejected(e.restaurant, day, net(0));
      if !ok { return; }
      ok := branchDays.ApplyOrderRejected(e.branch, day, net(1));
      if !ok { return; }
      var found: Option<OrderContext>;
      ok, found := orderContexts.Find(e.orderId, net(2));
      if !ok || found.None? { return; }
      ok := platformDays.ApplyOrderRejected(day, found.value.currency, net(3));
    }

    method OnPaymentCompleted(e: Event, net: nat -> Fate) returns (ok: bool)
      requires e.PaymentCompleted?
      modifies restaurantDays, branchDays, productDays, platformDays, orderContexts
      ensures Outcome(View(), ok) == Serve(old(View()), e, net)
      ensures PaymentMeans(old(View()), e, net, Outcome(View(), ok))
    {
      PaymentCalls(View(), e, net);
      PaymentOutcome(View(), e, net);
      ok := platformDays.ApplyPaymentCompleted(UtcDay(e.completedAt), e.currency, e.amount, net(0));
    }
  }
}
