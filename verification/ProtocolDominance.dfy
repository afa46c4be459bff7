// Which counters bound which in every reachable state, failures, crashes, replays
// and handlers under way included, read off the log of landed writes.
module ProtocolDominance {
  import opened Events
  import opened Sums
  import opened Aggregates
  import opened Runs
  import opened Laws
  import opened Protocol
  import opened ProtocolCounters
  import opened ProtocolAccounting
  import opened ProtocolLog

  function OrderName(): Landed -> string {
    (x: Landed) => OrderOf(x.event)
  }

  // ---------- Counting landings ----------

  predicate Adds(x: Landed, g: Gauge) {
    Delta(x.write, g) > 0
  }

  function AddsTo(g: Gauge): Landed -> bool {
    (x: Landed) => Adds(x, g)
  }

  // A gauge of orders, deliveries or rejections, over any rows but product rows.
  predicate Counting(g: Gauge) {
    !ForProducts(g) && Counts(CounterOf(g))
  }

  lemma CountsByOne(x: Landed, g: Gauge)
    requires Counting(g)
    ensures Worth(g)(x) == Indicator(AddsTo(g))(x)
  {
    match x.write
    case ToRestaurant(_, _) =>
    case ToBranch(_, _) =>
    case ToProduct(_, _, _, _, _) =>
    case ToPlatform(_, _) =>
    case ToPayments(_, _) =>
    case ToContext(_, _) =>
  }

  // Such a gauge is the number of log entries that add to it.
  lemma CountedLandings(n: nat, hasDlx: bool, run: seq<Action>, g: Gauge)
    requires Counting(g)
    ensures var s := Exec(Initial(n, hasDlx), run);
            Read(s.store, g) == Count(Log(s), AddsTo(g))
  {
    var log := Log(Exec(Initial(n, hasDlx), run));
    LogReads(n, hasDlx, run, g);
    forall i | 0 <= i < |log| ensures Worth(g)(log[i]) == Indicator(AddsTo(g))(log[i]) { CountsByOne(log[i], g); }
    SumEqual(log, Worth(g), log, Indicator(AddsTo(g)));
  }

  // If the entries that add to one gauge are of different orders, and each order has
  // an entry that adds to another gauge, then the first never exceeds the second.
  lemma LandingsWithin(n: nat, hasDlx: bool, run: seq<Action>, low: Gauge, high: Gauge)
    requires Counting(low) && Counting(high)
    requires var log := Log(Exec(Initial(n, hasDlx), run));
             && DistinctKeys(log, AddsTo(low), OrderName())
             && forall x :: x in log && Adds(x, low) ==>
                  exists y :: y in log && Adds(y, high) && OrderOf(y.event) == OrderOf(x.event)
    ensures var s := Exec(Initial(n, hasDlx), run); Read(s.store, low) <= Read(s.store, high)
  {
    var log := Log(Exec(Initial(n, hasDlx), run));
    CountedLandings(n, hasDlx, run, low);
    CountedLandings(n, hasDlx, run, high);
    forall x | x in log && AddsTo(low)(x)
      ensures exists y :: y in log && AddsTo(high)(y) && OrderName()(y) == OrderName()(x)
    {
      var y :| y in log && Adds(y, high) && OrderOf(y.event) == OrderOf(x.event);
      assert AddsTo(high)(y);
    }
    CountInjects(log, AddsTo(low), AddsTo(high), OrderName());
  }

  // ---------- Landings, collection by collection ----------

  predicate LandedAt(x: Landed, rank: nat, c: Counter) {
    OfRank(x.write, rank) && Amount(x.write.change, c) > 0
  }

  function LandedFor(rank: nat, c: Counter): Landed -> bool {
    (x: Landed) => LandedAt(x, rank, c)
  }

  // At most one landing per order of this kind in this collection: 0 for the
  // restaurant rows, 1 for the branch rows, 2 for the platform rows.
  ghost predicate LandsOnce(s: State, rank: nat, c: Counter) {
    DistinctKeys(Log(s), LandedFor(rank, c), OrderName())
  }

  predicate OnRank(g: Gauge, rank: nat) {
    match g
    case At(RestaurantCell(_, _)) => rank == 0
    case At(BranchCell(_, _)) => rank == 1
    case At(PlatformCell(_, _)) => rank == 2
    case OverRestaurants(_, _) => rank == 0
    case OverBranches(_, _) => rank == 1
    case OverPlatform(_, _) => rank == 2
    case _ => false
  }

  lemma AddsOnRank(x: Landed, g: Gauge, rank: nat)
    requires Counting(g) && OnRank(g, rank) && Adds(x, g)
    ensures LandedAt(x, rank, CounterOf(g))
  {
  }

  lemma DistinctOnRank(s: State, g: Gauge, rank: nat)
    requires Counting(g) && OnRank(g, rank) && LandsOnce(s, rank, CounterOf(g))
    ensures DistinctKeys(Log(s), AddsTo(g), OrderName())
  {
    var log := Log(s);
    forall i, j | 0 <= i < j < |log| && AddsTo(g)(log[i]) && AddsTo(g)(log[j])
      ensures OrderName()(log[i]) != OrderName()(log[j])
    {
      AddsOnRank(log[i], g, rank);
      AddsOnRank(log[j], g, rank);
      assert LandedFor(rank, CounterOf(g))(log[i]) && LandedFor(rank, CounterOf(g))(log[j]);
    }
  }

  // The write a placed event makes in the collection.
  function PlacementWrite(e: Event, rank: nat): Write
    requires e.OrderPlaced?
  {
    var day, change := UtcDay(e.placedAt), Placed(e.currency, e.total);
    if rank == 0 then ToRestaurant(DayKey(e.restaurant, day), change)
    else if rank == 1 then ToBranch(DayKey(e.branch, day), change)
    else ToPlatform(PlatformKey(day, e.currency), change)
  }

  lemma PlacementIsPlanned(e: Event, rank: nat)
    requires e.OrderPlaced? && rank < 3
    ensures exists b, i :: InPlan(Plan(e, None), b, i) && Plan(e, None)[b][i] == PlacementWrite(e, rank)
  {
    var p := Plan(e, None);
    var b := if rank < 2 then rank else |p| - 2;
    assert InPlan(p, b, 0) && p[b][0] == PlacementWrite(e, rank);
  }

  // What a delivery or a rejection that landed was read off.
  lemma DeliveryPlanned(x: Landed, rank: nat)
    requires Planned(x) && LandedAt(x, rank, DeliveryMsCount) && rank < 3
    ensures x.event.OrderDelivered? && x.found.Some?
    ensures var day, ms := UtcDay(x.found.value.placedAt), DeliveryMs(x.event.deliveredAt, x.found.value.placedAt);
            x.write == if rank == 0 then ToRestaurant(DayKey(x.event.restaurant, day), Delivered(ms))
                       else if rank == 1 then ToBranch(DayKey(x.event.branch, day), Delivered(ms))
                       else ToPlatform(PlatformKey(day, x.event.currency), Delivered(ms))
  {
  }

  lemma RejectionPlanned(x: Landed)
    requires Planned(x) && LandedAt(x, 2, Failed)
    ensures x.event.OrderRejected? && x.found.Some?
    ensures x.write == ToPlatform(PlatformKey(UtcDay(x.event.occurredAt), x.found.value.currency), Rejected)
  {
  }

  // The log entry of the placement that a handler found.
  lemma PlacementLogged(n: nat, hasDlx: bool, run: seq<Action>, x: Landed, rank: nat) returns (y: Landed)
    requires x in Log(Exec(Initial(n, hasDlx), run)) && x.found.Some? && rank < 3
    ensures NeedsContext(x.event)
    ensures y in Log(Exec(Initial(n, hasDlx), run)) && Places(y.event, x.event.orderId)
            && ContextOf(y.event) == x.found.value
    ensures y.write == PlacementWrite(y.event, rank)
  {
    LoggedAfterPlaced(n, hasDlx, run, x);
    var z :| PlacedFor(Exec(Initial(n, hasDlx), run), x, z);
    PlacementIsPlanned(z.event, rank);
    var b, i :| InPlan(Plan(z.event, None), b, i) && Plan(z.event, None)[b][i] == PlacementWrite(z.event, rank);
    y := Landed(z.event, z.found, Plan(z.event, None)[b][i]);
  }

  // ---------- Deliveries within orders ----------

  ghost predicate DeliveredWherePlaced(s: State) {
    forall x, y :: x in Log(s) && y in Log(s) && x.event.OrderDelivered? && Places(y.event, x.event.orderId) ==>
      x.event.restaurant == y.event.restaurant && x.event.branch == y.event.branch
  }

  // A gauge over platform rows that does not tell currencies apart.
  ghost predicate AnyCurrency(g: Gauge) {
    g.OverPlatform? && forall d, c1, c2 :: g.dates(PlatformKey(d, c1)) == g.dates(PlatformKey(d, c2))
  }

  lemma DeliveryHasOrder(n: nat, hasDlx: bool, run: seq<Action>, g: Gauge, rank: nat, x: Landed) returns (y: Landed)
    requires !ForProducts(g) && rank < 3 && OnRank(g, rank)
    requires if rank == 2 then AnyCurrency(g) else DeliveredWherePlaced(Exec(Initial(n, hasDlx), run))
    requires x in Log(Exec(Initial(n, hasDlx), run)) && Adds(x, Of(g, DeliveryMsCount))
    ensures y in Log(Exec(Initial(n, hasDlx), run)) && Adds(y, Of(g, Orders)) && OrderOf(y.event) == OrderOf(x.event)
  {
    AddsOnRank(x, Of(g, DeliveryMsCount), rank);
    LoggedAfterPlaced(n, hasDlx, run, x);
    DeliveryPlanned(x, rank);
    y := PlacementLogged(n, hasDlx, run, x, rank);
  }

  lemma DeliveriesWithinOrders(n: nat, hasDlx: bool, run: seq<Action>, g: Gauge, rank: nat)
    requires !ForProducts(g) && rank < 3 && OnRank(g, rank)
    requires var s := Exec(Initial(n, hasDlx), run);
             LandsOnce(s, rank, DeliveryMsCount) && if rank == 2 then AnyCurrency(g) else DeliveredWherePlaced(s)
    ensures var s := Exec(Initial(n, hasDlx), run);
            Read(s.store, Of(g, DeliveryMsCount)) <= Read(s.store, Of(g, Orders))
  {
    var s := Exec(Initial(n, hasDlx), run);
    var low, high := Of(g, DeliveryMsCount), Of(g, Orders);
    DistinctOnRank(s, low, rank);
    forall x | x in Log(s) && Adds(x, low)
      ensures exists y :: y in Log(s) && Adds(y, high) && OrderOf(y.event) == OrderOf(x.event)
    {
      var y := DeliveryHasOrder(n, hasDlx, run, g, rank, x);
    }
    LandingsWithin(n, hasDlx, run, low, high);
  }

  // In every reachable state, whatever has failed or is under way, if each order's
  // delivery landed at most once in a collection: no restaurant or branch row, if
  // deliveries name the restaurant and branch of their order, and no platform date
  // over its currencies counts more deliveries than orders. Deliveries are bucketed
  // on the placement's day, and a lookup only hits after the placement landed.
  lemma DeliveredWithinPlaced(n: nat, hasDlx: bool, run: seq<Action>, k: DayKey, days: Day -> bool)
    ensures var s := Exec(Initial(n, hasDlx), run);
            && (DeliveredWherePlaced(s) && LandsOnce(s, 0, DeliveryMsCount) ==>
                  ReadCell(s.store, RestaurantCell(k, DeliveryMsCount)) <= ReadCell(s.store, RestaurantCell(k, Orders)))
            && (DeliveredWherePlaced(s) && LandsOnce(s, 1, DeliveryMsCount) ==>
                  ReadCell(s.store, BranchCell(k, DeliveryMsCount)) <= ReadCell(s.store, BranchCell(k, Orders)))
            && (LandsOnce(s, 2, DeliveryMsCount) ==>
                  Read(s.store, OverPlatform(DatesIn(days), DeliveryMsCount)) <=
                  Read(s.store, OverPlatform(DatesIn(days), Orders)))
  {
    var s := Exec(Initial(n, hasDlx), run);
    if DeliveredWherePlaced(s) && LandsOnce(s, 0, DeliveryMsCount) {
      DeliveriesWithinOrders(n, hasDlx, run, At(RestaurantCell(k, Orders)), 0);
    }
    if DeliveredWherePlaced(s) && LandsOnce(s, 1, DeliveryMsCount) {
      DeliveriesWithinOrders(n, hasDlx, run, At(BranchCell(k, Orders)), 1);
    }
    if LandsOnce(s, 2, DeliveryMsCount) {
      DeliveriesWithinOrders(n, hasDlx, run, OverPlatform(DatesIn(days), Orders), 2);
    }
  }

  // ---------- Rejections within orders, up to any day ----------

  predicate UpTo(k: PlatformKey, currency: string, last: Day) {
    k.currency == currency && k.day <= last
  }

  function DatesUpTo(currency: string, last: Day): PlatformKey -> bool {
    (k: PlatformKey) => UpTo(k, currency, last)
  }

  ghost predicate RejectedOnOrAfterPlacement(s: State) {
    forall x, y :: x in Log(s) && y in Log(s) && x.event.OrderRejected? && Places(y.event, x.event.orderId) ==>
      UtcDay(y.event.placedAt) <= UtcDay(x.event.occurredAt)
  }

  lemma RejectionHasOrder(n: nat, hasDlx: bool, run: seq<Action>, currency: string, last: Day, x: Landed)
    returns (y: Landed)
    requires RejectedOnOrAfterPlacement(Exec(Initial(n, hasDlx), run))
    requires x in Log(Exec(Initial(n, hasDlx), run)) && Adds(x, OverPlatform(DatesUpTo(currency, last), Failed))
    ensures y in Log(Exec(Initial(n, hasDlx), run)) && Adds(y, OverPlatform(DatesUpTo(currency, last), Orders))
    ensures OrderOf(y.event) == OrderOf(x.event)
  {
    AddsOnRank(x, OverPlatform(DatesUpTo(currency, last), Failed), 2);
    LoggedAfterPlaced(n, hasDlx, run, x);
    RejectionPlanned(x);
    y := PlacementLogged(n, hasDlx, run, x, 2);
  }

  // In every reachable state, if each order's rejection landed at most once in the
  // platform rows and on no day before its placement: up to any day and for every
  // currency the platform has no more rejections than orders. Single days can
  // (FailureRates.MidnightRate), as the two are bucketed on different days.
  lemma CumulativeRejectionsWithinOrders(n: nat, hasDlx: bool, run: seq<Action>, currency: string, last: Day)
    requires var s := Exec(Initial(n, hasDlx), run); LandsOnce(s, 2, Failed) && RejectedOnOrAfterPlacement(s)
    ensures var s := Exec(Initial(n, hasDlx), run);
            Read(s.store, OverPlatform(DatesUpTo(currency, last), Failed)) <=
            Read(s.store, OverPlatform(DatesUpTo(currency, last), Orders))
  {
    var s := Exec(Initial(n, hasDlx), run);
    var low, high := OverPlatform(DatesUpTo(currency, last), Failed), OverPlatform(DatesUpTo(currency, last), Orders);
    DistinctOnRank(s, low, 2);
    forall x | x in Log(s) && Adds(x, low)
      ensures exists y :: y in Log(s) && Adds(y, high) && OrderOf(y.event) == OrderOf(x.event)
    {
      var y := RejectionHasOrder(n, hasDlx, run, currency, last, x);
    }
    LandingsWithin(n, hasDlx, run, low, high);
  }
}
