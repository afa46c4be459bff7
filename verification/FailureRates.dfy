// The failure rate, documented as a fraction between 0 and 1: when it is one.
module FailureRates {
  import opened Events
  import opened Sums
  import opened Aggregates
  import opened Runs
  import opened Protocol
  import opened ProtocolLog
  import opened ProtocolDominance
  import opened Reports

  lemma ScaledOrder(a: real, b: real, w: real)
    requires w > 0.0
    ensures a <= b <==> a * w <= b * w
  {
    if a <= b { assert (b - a) * w >= 0.0; } else { assert (a - b) * w > 0.0; }
  }

  lemma RateBounds(failed: int, orders: int, rate: real)
    requires failed >= 0 && orders >= 0 && IsRate(rate, failed, orders)
    ensures 0.0 <= rate
    ensures rate <= 1.0 <==> orders == 0 || failed <= orders
  {
    if orders > 0 {
      ScaledOrder(0.0, rate, orders as real);
      ScaledOrder(rate, 1.0, orders as real);
    }
  }

  lemma {:induction false} NoNegativeCount<T>(s: seq<T>, p: T -> bool)
    ensures Count(s, p) >= 0
  {
    if s != [] { NoNegativeCount(s[..|s| - 1], p); }
  }

  // ---------- In every reachable state ----------

  // Rejections that landed in the gauge's rows, of orders with no placement there.
  ghost function RejectedFromElsewhere(s: State, g: Gauge): Landed -> bool
    requires !ForProducts(g)
  {
    Unmatched(Log(s), AddsTo(Of(g, Failed)), AddsTo(Of(g, Orders)), OrderName())
  }

  // Placements that landed in the gauge's rows, of orders with no rejection there.
  ghost function PlacedNotRejected(s: State, g: Gauge): Landed -> bool
    requires !ForProducts(g)
  {
    Unmatched(Log(s), AddsTo(Of(g, Orders)), AddsTo(Of(g, Failed)), OrderName())
  }

  // For the rate of any row, or of any set of rows, in every reachable state where
  // each order's placement and rejection landed there at most once: it is a
  // fraction between 0 and 1 if and only if there are no orders, or the rejections
  // of orders placed elsewhere are at most the orders not rejected here.
  lemma RateIsFractionExactly(n: nat, hasDlx: bool, run: seq<Action>, g: Gauge, rate: real)
    requires !ForProducts(g)
    requires var s := Exec(Initial(n, hasDlx), run);
             && DistinctKeys(Log(s), AddsTo(Of(g, Failed)), OrderName())
             && DistinctKeys(Log(s), AddsTo(Of(g, Orders)), OrderName())
             && IsRate(rate, Read(s.store, Of(g, Failed)), Read(s.store, Of(g, Orders)))
    ensures var s := Exec(Initial(n, hasDlx), run);
            0.0 <= rate <= 1.0 <==>
            || Read(s.store, Of(g, Orders)) == 0
            || Count(Log(s), RejectedFromElsewhere(s, g)) <= Count(Log(s), PlacedNotRejected(s, g))
  {
    var s := Exec(Initial(n, hasDlx), run);
    CountedLandings(n, hasDlx, run, Of(g, Failed));
    CountedLandings(n, hasDlx, run, Of(g, Orders));
    NoNegativeCount(Log(s), AddsTo(Of(g, Failed)));
    NoNegativeCount(Log(s), AddsTo(Of(g, Orders)));
    RateBounds(Read(s.store, Of(g, Failed)), Read(s.store, Of(g, Orders)), rate);
    CountDifference(Log(s), AddsTo(Of(g, Failed)), AddsTo(Of(g, Orders)), OrderName());
  }

  // ---------- After failure-free histories, from the events alone ----------

  function OrderKey(): Applied -> string {
    (a: Applied) => OrderOf(a.event)
  }

  ghost predicate AtMostOnePerOrder(h: seq<Event>, kind: Event -> bool) {
    forall i, j :: 0 <= i < j < |h| && kind(h[i]) && kind(h[j]) ==> OrderOf(h[i]) != OrderOf(h[j])
  }

  function IsRejected(): Event -> bool { (e: Event) => e.OrderRejected? }
  function IsPlaced(): Event -> bool { (e: Event) => e.OrderPlaced? }

  // Does the event, with what its handler found, count in the gauge?
  function SharesIn(g: Gauge): Applied -> bool {
    (a: Applied) => Share(a, g) > 0
  }

  lemma SharesByOne(a: Applied, g: Gauge)
    requires Counting(g)
    ensures ShareOf(g)(a) == Indicator(SharesIn(g))(a)
    ensures CounterOf(g).Failed? && SharesIn(g)(a) ==> a.event.OrderRejected?
    ensures CounterOf(g).Orders? && SharesIn(g)(a) ==> a.event.OrderPlaced?
  {
    match a.event
    case OrderPlaced(_, _, _, _, _, _, _) =>
    case OrderDelivered(_, _, _, _, _) =>
    case OrderRejected(_, _, _, _) =>
    case PaymentCompleted(_, _, _) =>
  }

  lemma CountedShares(h: seq<Event>, g: Gauge)
    requires Counting(g)
    ensures Read(RunAll(h), g) == Count(Trail(h), SharesIn(g)) >= 0
  {
    RunReads(h, g);
    forall a ensures ShareOf(g)(a) == Indicator(SharesIn(g))(a) { SharesByOne(a, g); }
    SumEqual(Trail(h), ShareOf(g), Trail(h), Indicator(SharesIn(g)));
    NoNegativeCount(Trail(h), SharesIn(g));
  }

  lemma SharesHaveOwnOrders(h: seq<Event>, kind: Event -> bool, g: Gauge)
    requires AtMostOnePerOrder(h, kind)
    requires forall a :: SharesIn(g)(a) ==> kind(a.event)
    ensures DistinctKeys(Trail(h), SharesIn(g), OrderKey())
  {
    var t := Trail(h);
    TrailEntries(h);
    forall i, j | 0 <= i < j < |t| && SharesIn(g)(t[i]) && SharesIn(g)(t[j])
      ensures OrderKey()(t[i]) != OrderKey()(t[j])
    {
      assert kind(h[i]) && kind(h[j]);
    }
  }

  // The same condition, read off the events of a history with at most one placed
  // and one rejected event per order.
  lemma HistoryRateIsFractionExactly(h: seq<Event>, g: Gauge, rate: real)
    requires !ForProducts(g) && AtMostOnePerOrder(h, IsRejected()) && AtMostOnePerOrder(h, IsPlaced())
    requires IsRate(rate, Read(RunAll(h), Of(g, Failed)), Read(RunAll(h), Of(g, Orders)))
    ensures var rejected, placed := SharesIn(Of(g, Failed)), SharesIn(Of(g, Orders));
            0.0 <= rate <= 1.0 <==>
            || Read(RunAll(h), Of(g, Orders)) == 0
            || Count(Trail(h), Unmatched(Trail(h), rejected, placed, OrderKey()))
               <= Count(Trail(h), Unmatched(Trail(h), placed, rejected, OrderKey()))
  {
    var low, high := Of(g, Failed), Of(g, Orders);
    CountedShares(h, low);
    CountedShares(h, high);
    forall a
      ensures SharesIn(low)(a) ==> IsRejected()(a.event)
      ensures SharesIn(high)(a) ==> IsPlaced()(a.event)
    {
      SharesByOne(a, low);
      SharesByOne(a, high);
    }
    SharesHaveOwnOrders(h, IsRejected(), low);
    SharesHaveOwnOrders(h, IsPlaced(), high);
    RateBounds(Read(RunAll(h), low), Read(RunAll(h), high), rate);
    CountDifference(Trail(h), SharesIn(low), SharesIn(high), OrderKey());
  }

  ghost predicate HasPlacement(h: seq<Event>, g: Gauge, a: Applied)
    requires !ForProducts(g)
  {
    exists b :: b in Trail(h) && SharesIn(Of(g, Orders))(b) && OrderKey()(b) == OrderKey()(a)
  }

  lemma PairedRatesAreFractions(h: seq<Event>, g: Gauge, rate: real)
    requires !ForProducts(g) && AtMostOnePerOrder(h, IsRejected())
    requires forall a :: a in Trail(h) && SharesIn(Of(g, Failed))(a) ==> HasPlacement(h, g, a)
    requires IsRate(rate, Read(RunAll(h), Of(g, Failed)), Read(RunAll(h), Of(g, Orders)))
    ensures 0.0 <= rate <= 1.0
  {
    var t, low, high := Trail(h), Of(g, Failed), Of(g, Orders);
    CountedShares(h, low);
    CountedShares(h, high);
    forall a ensures SharesIn(low)(a) ==> IsRejected()(a.event) { SharesByOne(a, low); }
    SharesHaveOwnOrders(h, IsRejected(), low);
    forall a | a in t && SharesIn(low)(a)
      ensures exists b :: b in t && SharesIn(high)(b) && OrderKey()(b) == OrderKey()(a)
    {
      assert HasPlacement(h, g, a);
    }
    CountInjects(t, SharesIn(low), SharesIn(high), OrderKey());
    RateBounds(Read(RunAll(h), low), Read(RunAll(h), high), rate);
  }

  // Every rejection shares restaurant and UTC day with a placed event of its order.
  ghost predicate RejectedWhereAndWhenPlaced(h: seq<Event>) {
    forall i :: 0 <= i < |h| && h[i].OrderRejected? ==>
      exists j :: 0 <= j < |h| && Places(h[j], h[i].orderId)
                  && h[j].restaurant == h[i].restaurant && UtcDay(h[j].placedAt) == UtcDay(h[i].occurredAt)
  }

  lemma RestaurantShares(a: Applied, k: DayKey)
    ensures SharesIn(At(RestaurantCell(k, Failed)))(a) <==>
            a.event.OrderRejected? && DayKey(a.event.restaurant, UtcDay(a.event.occurredAt)) == k
    ensures SharesIn(At(RestaurantCell(k, Orders)))(a) <==>
            a.event.OrderPlaced? && DayKey(a.event.restaurant, UtcDay(a.event.placedAt)) == k
  {
  }

  lemma PlacedInSameRow(h: seq<Event>, k: DayKey, a: Applied) returns (b: Applied)
    requires RejectedWhereAndWhenPlaced(h) && a in Trail(h) && SharesIn(At(RestaurantCell(k, Failed)))(a)
    ensures b in Trail(h) && SharesIn(At(RestaurantCell(k, Orders)))(b) && OrderKey()(b) == OrderKey()(a)
  {
    var t := Trail(h);
    TrailEntries(h);
    RestaurantShares(a, k);
    var i :| 0 <= i < |t| && t[i] == a;
    var j :| 0 <= j < |h| && Places(h[j], h[i].orderId)
             && h[j].restaurant == h[i].restaurant && UtcDay(h[j].placedAt) == UtcDay(h[i].occurredAt);
    b := t[j];
    RestaurantShares(b, k);
  }

  // Then, with at most one rejection per order and in whatever order the events were
  // handled, the rate of every restaurant row is a fraction between 0 and 1.
  lemma SameDayRatesAreFractions(h: seq<Event>, k: DayKey, rate: real)
    requires AtMostOnePerOrder(h, IsRejected()) && RejectedWhereAndWhenPlaced(h)
    requires IsRate(rate, ReadCell(RunAll(h), RestaurantCell(k, Failed)),
             ReadCell(RunAll(h), RestaurantCell(k, Orders)))
    ensures 0.0 <= rate <= 1.0
  {
    var g := At(RestaurantCell(k, Failed));
    forall a | a in Trail(h) && SharesIn(Of(g, Failed))(a) ensures HasPlacement(h, g, a) {
      var b := PlacedInSameRow(h, k, a);
    }
    PairedRatesAreFractions(h, g, rate);
  }

  // ---------- Platform rows ----------

  // No rejection is on another UTC day than a placed event of its order.
  ghost predicate RejectedOnPlacementDay(h: seq<Event>) {
    forall i, j :: 0 <= i < |h| && 0 <= j < |h| && h[i].OrderRejected? && Places(h[j], h[i].orderId) ==>
      UtcDay(h[j].placedAt) == UtcDay(h[i].occurredAt)
  }

  predicate ForPlatform(g: Gauge) {
    (g.At? && g.cell.PlatformCell?) || g.OverPlatform?
  }

  lemma PlatformShares(a: Applied, b: Applied, g: Gauge)
    requires ForPlatform(g) && SharesIn(Of(g, Failed))(a)
    ensures a.event.OrderRejected? && a.found.Some?
    ensures b.event.OrderPlaced? && UtcDay(b.event.placedAt) == UtcDay(a.event.occurredAt)
            && b.event.currency == a.found.value.currency ==>
              SharesIn(Of(g, Orders))(b)
  {
    SharesByOne(a, Of(g, Failed));
  }

  // A rejection counts in a platform row only if its order's placement is known; it
  // then counts where that placement did.
  lemma PlacedInSamePlatformRow(h: seq<Event>, g: Gauge, a: Applied) returns (b: Applied)
    requires RejectedOnPlacementDay(h) && ForPlatform(g) && a in Trail(h) && SharesIn(Of(g, Failed))(a)
    ensures b in Trail(h) && SharesIn(Of(g, Orders))(b) && OrderKey()(b) == OrderKey()(a)
  {
    var t := Trail(h);
    TrailEntries(h);
    PlatformShares(a, a, g);
    var i :| 0 <= i < |t| && t[i] == a;
    ContextOrigin(h[..i], h[i].orderId);
    var j :| 0 <= j < i && Places(h[..i][j], h[i].orderId)
      && ContextsAfter(h[..i])[h[i].orderId] == ContextOf(h[..i][j]);
    assert h[..i][j] == h[j];
    b := t[j];
    PlatformShares(a, b, g);
  }

  // So with at most one rejection per order, none on another day than its
  // placement, the rate of every platform row, and of every set of them that a
  // summary line adds up, is a fraction between 0 and 1.
  lemma SameDayPlatformRatesAreFractions(h: seq<Event>, g: Gauge, rate: real)
    requires ForPlatform(g) && AtMostOnePerOrder(h, IsRejected()) && RejectedOnPlacementDay(h)
    requires IsRate(rate, Read(RunAll(h), Of(g, Failed)), Read(RunAll(h), Of(g, Orders)))
    ensures 0.0 <= rate <= 1.0
  {
    forall a | a in Trail(h) && SharesIn(Of(g, Failed))(a) ensures HasPlacement(h, g, a) {
      var b := PlacedInSamePlatformRow(h, g, a);
    }
    PairedRatesAreFractions(h, g, rate);
  }

  // ---------- A rate of two ----------

  ghost predicate NoneRejectedBeforePlacement(h: seq<Event>) {
    forall i, j :: 0 <= i < |h| && 0 <= j < |h| && h[i].OrderRejected? && Places(h[j], h[i].orderId) ==>
      UtcDay(h[j].placedAt) <= UtcDay(h[i].occurredAt)
  }

  // On one day the failure rate of a restaurant can exceed one: two orders placed
  // the day before are rejected after midnight, and one order is placed that day.
  function MidnightRun(): seq<Event> {
    [OrderPlaced("a", 1, 1, "EGP", 100, 0, []),
     OrderPlaced("b", 1, 1, "EGP", 100, 0, []),
     OrderPlaced("c", 1, 1, "EGP", 100, NANOS_PER_DAY, []),
     OrderRejected("a", 1, 1, NANOS_PER_DAY),
     OrderRejected("b", 1, 1, NANOS_PER_DAY)]
  }

  lemma MidnightReads(g: Gauge)
    ensures var h := MidnightRun();
            Read(RunAll(h), g) ==
            Share(Applied(h[0], None), g) + Share(Applied(h[1], None), g) + Share(Applied(h[2], None), g)
            + Share(Applied(h[3], Some(ContextOf(h[0]))), g) + Share(Applied(h[4], Some(ContextOf(h[1]))), g)
  {
    var h := MidnightRun();
    var t := Trail(h);
    TrailEntries(h);
    assert h[..0] == [] && h[..1][..0] == h[..0] && h[..2][..1] == h[..1] && h[..3][..2] == h[..2]
           && h[..4][..3] == h[..3];
    assert ContextsAfter(h[..1]) == map["a" := ContextOf(h[0])];
    assert ContextsAfter(h[..2]) == ContextsAfter(h[..1])["b" := ContextOf(h[1])];
    assert ContextsAfter(h[..3]) == ContextsAfter(h[..2])["c" := ContextOf(h[2])];
    assert ContextsAfter(h[..4]) == ContextsAfter(h[..3]);
    RunReads(h, g);
    SumOfFive(t, ShareOf(g));
  }

  lemma SumOfFive<T>(s: seq<T>, f: T -> int)
    requires |s| == 5
    ensures Sum(s, f) == f(s[0]) + f(s[1]) + f(s[2]) + f(s[3]) + f(s[4])
  {
    assert s == [] + [s[0]] + [s[1]] + [s[2]] + [s[3]] + [s[4]];
    SumAppend([], s[0], f);
    SumAppend([] + [s[0]], s[1], f);
    SumAppend([] + [s[0]] + [s[1]], s[2], f);
    SumAppend([] + [s[0]] + [s[1]] + [s[2]], s[3], f);
    SumAppend([] + [s[0]] + [s[1]] + [s[2]] + [s[3]], s[4], f);
  }

  lemma MidnightCounts(g: Gauge)
    requires !ForProducts(g)
    requires !Selects(g, 1, 1, 0, Some("EGP")) && Selects(g, 1, 1, 1, Some("EGP"))
    ensures CounterOf(g).Orders? ==> Read(RunAll(MidnightRun()), g) == 1
    ensures CounterOf(g).Failed? ==> Read(RunAll(MidnightRun()), g) == 2
  {
    MidnightReads(g);
    assert UtcDay(0) == 0 && UtcDay(NANOS_PER_DAY) == 1;
  }

  lemma MidnightRows()
    ensures Read(RunAll(MidnightRun()), At(RestaurantCell(DayKey(1, 1), Orders))) == 1
    ensures Read(RunAll(MidnightRun()), At(RestaurantCell(DayKey(1, 1), Failed))) == 2
  {
    MidnightCounts(At(RestaurantCell(DayKey(1, 1), Orders)));
    MidnightCounts(At(RestaurantCell(DayKey(1, 1), Failed)));
  }

  lemma MidnightPlatform()
    ensures Read(RunAll(MidnightRun()), At(PlatformCell(PlatformKey(1, "EGP"), Orders))) == 1
    ensures Read(RunAll(MidnightRun()), At(PlatformCell(PlatformKey(1, "EGP"), Failed))) == 2
  {
    MidnightCounts(At(PlatformCell(PlatformKey(1, "EGP"), Orders)));
    MidnightCounts(At(PlatformCell(PlatformKey(1, "EGP"), Failed)));
  }

  ghost predicate OnlyRate(rate: real, failed: int, orders: int) {
    IsRate(rate, failed, orders) && forall r :: IsRate(r, failed, orders) ==> r == rate
  }

  lemma TwoOfOne()
    ensures OnlyRate(2.0, 2, 1)
  {
  }

  // On that day the rate of the restaurant, and of the platform, is two.
  lemma MidnightRate()
    ensures var h, day := MidnightRun(), PlatformKey(1, "EGP");
            && AtMostOnePerOrder(h, IsRejected()) && AtMostOnePerOrder(h, IsPlaced()) && NoneRejectedBeforePlacement(h)
            && OnlyRate(2.0, ReadCell(RunAll(h), RestaurantCell(DayKey(1, 1), Failed)),
                ReadCell(RunAll(h), RestaurantCell(DayKey(1, 1), Orders)))
            && OnlyRate(2.0, ReadCell(RunAll(h), PlatformCell(day, Failed)),
                ReadCell(RunAll(h), PlatformCell(day, Orders)))
  {
    MidnightPremises();
    MidnightRows();
    MidnightPlatform();
    TwoOfOne();
  }

  lemma MidnightPremises()
    ensures var h := MidnightRun();
            AtMostOnePerOrder(h, IsRejected()) && AtMostOnePerOrder(h, IsPlaced()) && NoneRejectedBeforePlacement(h)
  {
    var h := MidnightRun();
    assert forall i :: 0 <= i < |h| ==> (h[i].OrderPlaced? <==> i < 3) && (h[i].OrderRejected? <==> i >= 3);
    assert "a"[0] != "b"[0] && "a"[0] != "c"[0] && "b"[0] != "c"[0];
    assert UtcDay(0) == 0 && UtcDay(NANOS_PER_DAY) == 1;
  }
}
