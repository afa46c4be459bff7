// What the reports are worth: averages in every reachable state, and the count of
// active restaurants after a run.
module ReportLaws {
  import opened Events
  import opened Sums
  import opened Aggregates
  import opened Runs
  import opened Queries
  import opened Averages
  import opened Protocol
  import opened ProtocolCounters
  import opened ProtocolLog
  import opened ProtocolDominance

  // ---------- Rows in every reachable state ----------

  predicate Sound(t: Tally) {
    && t.orders >= 0 && (t.orders == 0 ==> t.revenue == 0)
    && t.deliveryMsCount >= 0 && t.deliveryMsSum >= 0 && (t.deliveryMsCount == 0 ==> t.deliveryMsSum == 0)
  }

  ghost predicate AllSound(st: Store) {
    && (forall k :: k in st.restaurants ==> Sound(st.restaurants[k].tally))
    && (forall k :: k in st.branches ==> Sound(st.branches[k].tally))
    && (forall k :: k in st.platform ==> Sound(st.platform[k].tally))
  }

  // Durations are clamped at zero before they are written.
  predicate Sensible(w: Write) {
    (w.ToRestaurant? || w.ToBranch? || w.ToPlatform?) && w.change.Delivered? ==> w.change.ms >= 0
  }

  lemma BumpKeepsSound(t: Tally, change: Change)
    requires Sound(t) && (change.Delivered? ==> change.ms >= 0)
    ensures Sound(Bump(t, change))
  {
  }

  lemma ApplyKeepsSound(st: Store, w: Write)
    requires AllSound(st) && Sensible(w)
    ensures AllSound(Apply(st, w))
  {
    match w
    case ToRestaurant(k, change) => BumpKeepsSound(RowAt(st.restaurants, k, NEW_DAY_ROW).tally, change);
    case ToBranch(k, change) => BumpKeepsSound(RowAt(st.branches, k, NEW_DAY_ROW).tally, change);
    case ToPlatform(k, change) => BumpKeepsSound(RowAt(st.platform, k, NEW_PLATFORM_ROW).tally, change);
    case _ =>
  }

  lemma PlanIsSensible(e: Event, found: Option<OrderContext>, b: int, i: int)
    requires 0 <= b < |Plan(e, found)| && 0 <= i < |Plan(e, found)[b]|
    ensures Sensible(Plan(e, found)[b][i])
  {
  }

  lemma LandKeepsSound(s: State, w: nat, i: nat, fate: Fate)
    requires AllSound(s.store) && w < |s.workers|
    ensures AllSound(Landing(s, w, i, fate).store)
  {
    var h := s.workers[w];
    if CanLand(h, i) {
      PlanIsSensible(h.event, h.found, h.at, i);
      ApplyKeepsSound(s.store, WriteAt(h, i));
    }
  }

  lemma OthersKeepStore(s: State, a: Action)
    requires !a.Land?
    ensures Step(s, a).store == s.store
  {
  }

  // In every reachable state a row without orders has no revenue, and a row without
  // deliveries no duration; no duration total is negative.
  lemma {:induction false} ReachableRowsAreSound(n: nat, hasDlx: bool, run: seq<Action>)
    ensures AllSound(Exec(Initial(n, hasDlx), run).store)
  {
    if run != [] {
      var m := |run| - 1;
      var s, a := Exec(Initial(n, hasDlx), run[..m]), run[m];
      ReachableRowsAreSound(n, hasDlx, run[..m]);
      if a.Land? {
        if a.w < |s.workers| { LandKeepsSound(s, a.w, a.i, a.fate); }
      } else {
        OthersKeepStore(s, a);
      }
    }
  }

  // ---------- Averages of the summary ----------

  lemma PartsAreWeighted(found: seq<Found<PlatformKey, PlatformRow>>, st: Store, from: Day, to: Day, currency: string)
    requires AllSound(st) && Answers(found, st.platform, DatesWithin(from, to), PlatformLess)
    ensures Weighted(found, CurrencyPart(currency, Revenue), CurrencyPart(currency, Orders))
    ensures Weighted(found, CurrencyPart(currency, DeliveryMsSum), CurrencyPart(currency, DeliveryMsCount))
  {
    forall f | f in found ensures Sound(f.row.tally) {
      assert st.platform[f.key] == f.row;
    }
  }

  // Each day average the range query gives for a currency.
  function DayAverage(f: Found<PlatformKey, PlatformRow>): int {
    Average(f.row.tally.revenue, f.row.tally.orders)
  }

  // A currency's average over the range lies between the least and the greatest of
  // its day averages.
  lemma SummaryAverageBetween(st: Store, out: seq<Found<string, PlatformRow>>,
                              found: seq<Found<PlatformKey, PlatformRow>>,
                              from: Day, to: Day, i: nat, lo: int, hi: int)
    requires AllSound(st) && Summarises(out, st.platform, from, to)
             && Answers(found, st.platform, DatesWithin(from, to), PlatformLess)
    requires i < |out| && out[i].row.tally.orders > 0
    requires forall f :: f in found && f.key.currency == out[i].key && f.row.tally.orders > 0 ==>
             lo <= DayAverage(f) <= hi
    ensures lo <= Average(out[i].row.tally.revenue, out[i].row.tally.orders) <= hi
  {
    var currency := out[i].key;
    SummaryFoldsRange(out, found, st.platform, from, to, i, Orders);
    SummaryFoldsRange(out, found, st.platform, from, to, i, Revenue);
    PartsAreWeighted(found, st, from, to, currency);
    AverageBetween(found, CurrencyPart(currency, Revenue), CurrencyPart(currency, Orders), lo, hi);
  }

  // With no negative revenue, the day averages account for the revenue of a
  // currency up to less than one minor unit per order.
  lemma SummaryRoundingLoss(st: Store, out: seq<Found<string, PlatformRow>>,
                            found: seq<Found<PlatformKey, PlatformRow>>,
                            from: Day, to: Day, i: nat)
    requires AllSound(st) && Summarises(out, st.platform, from, to)
             && Answers(found, st.platform, DatesWithin(from, to), PlatformLess)
    requires i < |out| && forall f :: f in found && f.key.currency == out[i].key ==> f.row.tally.revenue >= 0
    ensures var sum, count := CurrencyPart(out[i].key, Revenue), CurrencyPart(out[i].key, Orders);
            0 <= out[i].row.tally.revenue - Sum(found, Rebuilt(sum, count)) <= Sum(found, Slack(count))
  {
    SummaryFoldsRange(out, found, st.platform, from, to, i, Revenue);
    PartsAreWeighted(found, st, from, to, out[i].key);
    RoundingLoss(found, CurrencyPart(out[i].key, Revenue), CurrencyPart(out[i].key, Orders));
  }

  // ---------- Delivery averages ----------

  // How long the delivery took that a log entry counts.
  function Took(x: Landed): int
    requires x.event.OrderDelivered? && x.found.Some?
  {
    DeliveryMs(x.event.deliveredAt, x.found.value.placedAt)
  }

  // A delivery that landed in the rows of the gauge.
  predicate DeliveredInto(x: Landed, g: Gauge)
    requires !ForProducts(g)
  {
    x.event.OrderDelivered? && x.found.Some? && Adds(x, Of(g, DeliveryMsCount))
  }

  lemma DeliveryWorth(x: Landed, g: Gauge)
    requires !ForProducts(g) && Planned(x)
    ensures Worth(Of(g, DeliveryMsCount))(x) == if DeliveredInto(x, g) then 1 else 0
    ensures Worth(Of(g, DeliveryMsSum))(x) == if DeliveredInto(x, g) then Took(x) else 0
    ensures Worth(Of(g, DeliveryMsSum))(x) >= 0
  {
    var b, i :| InPlan(Plan(x.event, x.found), b, i) && Plan(x.event, x.found)[b][i] == x.write;
    match x.event
    case OrderPlaced(_, _, _, _, _, _, _) => PlacedAddsNoDelivery(x.event, x.found, b, i);
    case OrderDelivered(_, _, _, _, _) =>
    case OrderRejected(_, _, _, _) =>
    case PaymentCompleted(_, _, _) =>
  }

  lemma PlacedAddsNoDelivery(e: Event, found: Option<OrderContext>, b: int, i: int)
    requires e.OrderPlaced? && InPlan(Plan(e, found), b, i)
    ensures var x := Plan(e, found)[b][i]; x.ToRestaurant? || x.ToBranch? || x.ToPlatform? ==> x.change.Placed?
    ensures !Plan(e, found)[b][i].ToPayments?
  {
  }

  lemma AverageNotNegative(sum: int, count: int)
    requires sum >= 0
    ensures Average(sum, count) >= 0
  {
  }

  ghost function DeliveryAverage(st: Store, g: Gauge): int
    requires !ForProducts(g)
  {
    Average(Read(st, Of(g, DeliveryMsSum)), Read(st, Of(g, DeliveryMsCount)))
  }

  // In every reachable state the average delivery time of any row, or any set of
  // rows, is not negative and lies between the shortest and the longest duration
  // that went into it, those of failed and of unfinished handler runs included.
  lemma DeliveryAverageBetween(n: nat, hasDlx: bool, run: seq<Action>, g: Gauge, lo: int, hi: int)
    requires !ForProducts(g)
    requires var s := Exec(Initial(n, hasDlx), run);
             && Read(s.store, Of(g, DeliveryMsCount)) > 0
             && forall x :: x in Log(s) && DeliveredInto(x, g) ==> lo <= Took(x) <= hi
    ensures var s := Exec(Initial(n, hasDlx), run);
            lo <= DeliveryAverage(s.store, g) <= hi && DeliveryAverage(s.store, g) >= 0
  {
    var s := Exec(Initial(n, hasDlx), run);
    var sum, count := Worth(Of(g, DeliveryMsSum)), Worth(Of(g, DeliveryMsCount));
    LogReads(n, hasDlx, run, Of(g, DeliveryMsSum));
    LogReads(n, hasDlx, run, Of(g, DeliveryMsCount));
    forall x | x in Log(s)
      ensures count(x) >= 0 && (count(x) == 0 ==> sum(x) == 0) && sum(x) >= 0
      ensures count(x) > 0 ==> lo <= Average(sum(x), count(x)) <= hi
    {
      LoggedAfterPlaced(n, hasDlx, run, x);
      DeliveryWorth(x, g);
    }
    AverageBetween(Log(s), sum, count, lo, hi);
    NoNegatives(Log(s), sum);
    AverageNotNegative(Sum(Log(s), sum), Sum(Log(s), count));
  }

  lemma {:induction false} NoNegatives<T(!new)>(s: seq<T>, f: T -> int)
    requires forall x :: x in s ==> f(x) >= 0
    ensures Sum(s, f) >= 0
  {
    if s != [] {
      assert s[|s| - 1] in s;
      NoNegatives(s[..|s| - 1], f);
    }
  }

  // ---------- Active restaurants ----------

  predicate PlacedAt(e: Event, k: DayKey) {
    e.OrderPlaced? && DayKey(e.restaurant, UtcDay(e.placedAt)) == k
  }

  ghost function PlacedIn(h: seq<Event>, from: Day, to: Day): set<int> {
    set e | e in h && e.OrderPlaced? && from <= UtcDay(e.placedAt) <= to :: e.restaurant
  }

  function PlacedAtKey(k: DayKey): Event -> bool {
    (e: Event) => PlacedAt(e, k)
  }

  lemma {:induction false} CountIsPositive<T(!new)>(s: seq<T>, p: T -> bool)
    ensures Count(s, p) >= 0
    ensures Count(s, p) > 0 <==> exists x :: x in s && p(x)
  {
    if s != [] {
      var n := |s| - 1;
      assert s == s[..n] + [s[n]];
      CountIsPositive(s[..n], p);
    }
  }

  lemma PlacementShare(a: Applied, k: DayKey)
    ensures Share(a, At(RestaurantCell(k, Orders))) == if PlacedAt(a.event, k) then 1 else 0
  {
  }

  lemma OrdersCountPlacements(h: seq<Event>, k: DayKey)
    ensures ReadCell(RunAll(h), RestaurantCell(k, Orders)) > 0 <==> exists e :: e in h && PlacedAt(e, k)
  {
    var g, p := At(RestaurantCell(k, Orders)), PlacedAtKey(k);
    RunReads(h, g);
    TrailEntries(h);
    forall i | 0 <= i < |h| ensures ShareOf(g)(Trail(h)[i]) == Indicator(p)(h[i]) { PlacementShare(Trail(h)[i], k); }
    SumEqual(Trail(h), ShareOf(g), h, Indicator(p));
    CountIsPositive(h, p);
  }

  // After any run, the count of active restaurants is the number of restaurants
  // with an order placed on a day of the range: deliveries and rejections alone do
  // not make one active.
  lemma ActiveMeansPlaced(h: seq<Event>, from: Day, to: Day)
    ensures ActiveIds(RunAll(h).restaurants, from, to) == PlacedIn(h, from, to)
  {
    var rows := RunAll(h).restaurants;
    forall id ensures id in ActiveIds(rows, from, to) <==> id in PlacedIn(h, from, to) {
      if id in ActiveIds(rows, from, to) {
        var k :| k in rows && from <= k.day <= to && rows[k].tally.orders > 0 && k.id == id;
        OrdersCountPlacements(h, k);
        var e :| e in h && PlacedAt(e, k);
      }
      if id in PlacedIn(h, from, to) {
        var e :| e in h && e.OrderPlaced? && from <= UtcDay(e.placedAt) <= to && e.restaurant == id;
        var k := DayKey(id, UtcDay(e.placedAt));
        OrdersCountPlacements(h, k);
        assert PlacedAt(e, k);
        assert k in rows && rows[k].tally.orders > 0;
      }
    }
  }
}
