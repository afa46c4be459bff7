// The read half of the service: guarded range queries, with averages and rates
// derived row by row and never stored.
module Reports {
  import opened Events
  import opened Aggregates
  import opened Queries
  import opened Averages
  import opened Service

  datatype Result<T> = Ok(value: T) | InvalidDateRange | StoreFailed

  datatype DayReport = DayReport(date: Day, currency: string, orders: int, revenue: int, average: int)
  datatype ProductReport = ProductReport(date: Day, currency: string, quantity: int, revenue: int, averagePrice: int)
  datatype FailureReport = FailureReport(date: Day, orders: int, failed: int, rate: real)
  datatype DeliveryReport = DeliveryReport(date: Day, delivered: int, averageMs: int)
  datatype SummaryReport = SummaryReport(
    currency: string, orders: int, revenue: int, average: int, failed: int, rate: real,
    delivered: int, averageMs: int, payments: int, paymentsAmount: int)

  // ---------- What a report line must say of its row ----------

  predicate IsAverage(average: int, sum: int, count: int) {
    if count > 0 then RoundedTowardZero(average, sum, count) else average == 0
  }

  predicate IsRate(rate: real, part: int, whole: int) {
    if whole > 0 then rate * whole as real == part as real else rate == 0.0
  }

  predicate TallyLine(r: DayReport, date: Day, currency: string, t: Tally) {
    && r.date == date && r.currency == currency && r.orders == t.orders && r.revenue == t.revenue
    && IsAverage(r.average, t.revenue, t.orders)
  }

  predicate DayLine(r: DayReport, f: Found<DayKey, DayRow>) {
    TallyLine(r, f.key.day, f.row.currency, f.row.tally)
  }

  predicate PlatformLine(r: DayReport, f: Found<PlatformKey, PlatformRow>) {
    TallyLine(r, f.key.day, f.key.currency, f.row.tally)
  }

  predicate ProductLine(r: ProductReport, f: Found<ProductKey, ProductRow>) {
    && r.date == f.key.day && r.currency == f.row.currency && r.quantity == f.row.quantity && r.revenue == f.row.revenue
    && IsAverage(r.averagePrice, f.row.revenue, f.row.quantity)
  }

  predicate FailureLine(r: FailureReport, f: Found<DayKey, DayRow>) {
    && r.date == f.key.day && r.orders == f.row.tally.orders && r.failed == f.row.tally.failed
    && IsRate(r.rate, f.row.tally.failed, f.row.tally.orders)
  }

  predicate DeliveryLine(r: DeliveryReport, f: Found<DayKey, DayRow>) {
    && r.date == f.key.day && r.delivered == f.row.tally.deliveryMsCount
    && IsAverage(r.averageMs, f.row.tally.deliveryMsSum, f.row.tally.deliveryMsCount)
  }

  predicate SummaryLine(r: SummaryReport, f: Found<string, PlatformRow>) {
    var t := f.row.tally;
    && r.currency == f.key && r.orders == t.orders && r.revenue == t.revenue && r.failed == t.failed
    && r.delivered == t.deliveryMsCount
    && r.payments == f.row.payments && r.paymentsAmount == f.row.paymentsAmount
    && IsAverage(r.average, t.revenue, t.orders) && IsRate(r.rate, t.failed, t.orders)
    && IsAverage(r.averageMs, t.deliveryMsSum, t.deliveryMsCount)
  }

  // One line for each row found, in its order.
  predicate LineByLine<T, F>(out: seq<T>, found: seq<F>, line: (T, F) -> bool) {
    |out| == |found| && forall i :: 0 <= i < |found| ==> line(out[i], found[i])
  }

  // ---------- Row builders ----------

  method Quotient(sum: int, count: int) returns (average: int)
    ensures IsAverage(average, sum, count)
  {
    average := 0;
    if count > 0 {
      average := TruncDiv(sum, count);
      TruncDivRounds(sum, count);
    }
  }

  method Rate(part: int, whole: int) returns (rate: real)
    ensures IsRate(rate, part, whole)
  {
    rate := 0.0;
    if whole > 0 { rate := part as real / whole as real; }
  }

  method DayRowsFrom(found: seq<Found<DayKey, DayRow>>) returns (out: seq<DayReport>)
    ensures LineByLine(out, found, DayLine)
  {
    out := [];
    for i := 0 to |found|
      invariant |out| == i && forall j :: 0 <= j < i ==> DayLine(out[j], found[j])
    {
      var t := found[i].row.tally;
      var average := Quotient(t.revenue, t.orders);
      out := out + [DayReport(found[i].key.day, found[i].row.currency, t.orders, t.revenue, average)];
    }
  }

  method FailureRowsFrom(found: seq<Found<DayKey, DayRow>>) returns (out: seq<FailureReport>)
    ensures LineByLine(out, found, FailureLine)
  {
    out := [];
    for i := 0 to |found|
      invariant |out| == i && forall j :: 0 <= j < i ==> FailureLine(out[j], found[j])
    {
      var t := found[i].row.tally;
      var rate := Rate(t.failed, t.orders);
      out := out + [FailureReport(found[i].key.day, t.orders, t.failed, rate)];
    }
  }

  method DeliveryAvgRowsFrom(found: seq<Found<DayKey, DayRow>>) returns (out: seq<DeliveryReport>)
    ensures LineByLine(out, found, DeliveryLine)
  {
    out := [];
    for i := 0 to |found|
      invariant |out| == i && forall j :: 0 <= j < i ==> DeliveryLine(out[j], found[j])
    {
      var t := found[i].row.tally;
      var average := Quotient(t.deliveryMsSum, t.deliveryMsCount);
      out := out + [DeliveryReport(found[i].key.day, t.deliveryMsCount, average)];
    }
  }

  // ---------- The endpoints ----------

  // Each refuses an inverted range before it asks the store.
  class Reader {
    const service: AnalyticsService

    constructor (s: AnalyticsService)
      ensures service == s
    {
      service := s;
    }

    method GetRestaurantDays(restaurant: int, from: Day, to: Day, fate: Fate)
      returns (r: Result<seq<DayReport>>)
      ensures r.InvalidDateRange? <==> from > to
      ensures r.StoreFailed? <==> from <= to && !fate.Done?
      ensures r.Ok? ==>
                exists found :: DaysInRange(found, service.restaurantDays.rows, restaurant, from,
                    to) && LineByLine(r.value, found, DayLine)
    {
      if from > to { return InvalidDateRange; }
      var ok, rows := service.restaurantDays.FindByDateRange(restaurant, from, to, fate);
      if !ok { return StoreFailed; }
      var out := DayRowsFrom(rows);
      assert LineByLine(out, rows, DayLine);
      return Ok(out);
    }

    method GetBranchDays(branch: int, from: Day, to: Day, fate: Fate)
      returns (r: Result<seq<DayReport>>)
      ensures r.InvalidDateRange? <==> from > to
      ensures r.StoreFailed? <==> from <= to && !fate.Done?
      ensures r.Ok? ==>
                exists found :: DaysInRange(found, service.branchDays.rows, branch, from, to) && LineByLine(r.value,
                    found, DayLine)
    {
      if from > to { return InvalidDateRange; }
      var ok, rows := service.branchDays.FindByDateRange(branch, from, to, fate);
      if !ok { return StoreFailed; }
      var out := DayRowsFrom(rows);
      assert LineByLine(out, rows, DayLine);
      return Ok(out);
    }

    method GetProductDays(branch: int, product: int, from: Day, to: Day, fate: Fate)
      returns (r: Result<seq<ProductReport>>)
      ensures r.InvalidDateRange? <==> from > to
      ensures r.StoreFailed? <==> from <= to && !fate.Done?
      ensures r.Ok? ==>
                exists found :: ProductDaysInRange(found, service.productDays.rows, branch, product, from, to)
                                && LineByLine(r.value, found, ProductLine)
    {
      if from > to { return InvalidDateRange; }
      var ok, rows := service.productDays.FindByDateRange(branch, product, from, to, fate);
      if !ok { return StoreFailed; }
      var out: seq<ProductReport> := [];
      for i := 0 to |rows|
        invariant |out| == i && forall j :: 0 <= j < i ==> ProductLine(out[j], rows[j])
      {
        var average := Quotient(rows[i].row.revenue, rows[i].row.quantity);
        out := out + [ProductReport(rows[i].key.day, rows[i].row.currency, rows[i].row.quantity, rows[i].row.revenue,
            average)];
      }
      assert LineByLine(out, rows, ProductLine);
      return Ok(out);
    }

    method GetRestaurantFailures(restaurant: int, from: Day, to: Day, fate: Fate)
      returns (r: Result<seq<FailureReport>>)
      ensures r.InvalidDateRange? <==> from > to
      ensures r.StoreFailed? <==> from <= to && !fate.Done?
      ensures r.Ok? ==>
                exists found :: DaysInRange(found, service.restaurantDays.rows, restaurant, from,
                    to) && LineByLine(r.value, found, FailureLine)
    {
      if from > to { return InvalidDateRange; }
      var ok, rows := service.restaurantDays.FindByDateRange(restaurant, from, to, fate);
      if !ok { return StoreFailed; }
      var out := FailureRowsFrom(rows);
      assert LineByLine(out, rows, FailureLine);
      return Ok(out);
    }

    method GetRestaurantDeliveryAvg(restaurant: int, from: Day, to: Day, fate: Fate)
      returns (r: Result<seq<DeliveryReport>>)
      ensures r.InvalidDateRange? <==> from > to
      ensures r.StoreFailed? <==> from <= to && !fate.Done?
      ensures r.Ok? ==>
                exists found :: DaysInRange(found, service.restaurantDays.rows, restaurant, from,
                    to) && LineByLine(r.value, found, DeliveryLine)
    {
      if from > to { return InvalidDateRange; }
      var ok, rows := service.restaurantDays.FindByDateRange(restaurant, from, to, fate);
      if !ok { return StoreFailed; }
      var out := DeliveryAvgRowsFrom(rows);
      assert LineByLine(out, rows, DeliveryLine);
      return Ok(out);
    }

    method GetActiveRestaurants(from: Day, to: Day, fate: Fate) returns (r: Result<nat>)
      ensures r.InvalidDateRange? <==> from > to
      ensures r.StoreFailed? <==> from <= to && !fate.Done?
      ensures r.Ok? ==> r.value == |ActiveIds(service.restaurantDays.rows, from, to)|
      ensures r.Ok? ==>
                var rows := service.restaurantDays.rows;
                r.value == |set k | k in rows && from <= k.day <= to && rows[k].tally.orders > 0 :: k.id|
    {
      if from > to { return InvalidDateRange; }
      var ok, count := service.restaurantDays.CountActiveInRange(from, to, fate);
      if !ok { return StoreFailed; }
      return Ok(count);
    }

    method GetPlatformDays(from: Day, to: Day, fate: Fate)
      returns (r: Result<seq<DayReport>>)
      ensures r.InvalidDateRange? <==> from > to
      ensures r.StoreFailed? <==> from <= to && !fate.Done?
      ensures r.Ok? ==>
                exists found :: DatesInRange(found, service.platformDays.rows, from, to)
                                && LineByLine(r.value, found, PlatformLine)
    {
      if from > to { return InvalidDateRange; }
      var ok, rows := service.platformDays.FindByDateRange(from, to, fate);
      if !ok { return StoreFailed; }
      var out: seq<DayReport> := [];
      for i := 0 to |rows|
        invariant |out| == i && forall j :: 0 <= j < i ==> PlatformLine(out[j], rows[j])
      {
        var t := rows[i].row.tally;
        var average := Quotient(t.revenue, t.orders);
        out := out + [DayReport(rows[i].key.day, rows[i].key.currency, t.orders, t.revenue, average)];
      }
      assert LineByLine(out, rows, PlatformLine);
      return Ok(out);
    }

    method GetPlatformSummary(from: Day, to: Day, fate: Fate) returns (r: Result<seq<SummaryReport>>)
      ensures r.InvalidDateRange? <==> from > to
      ensures r.StoreFailed? <==> from <= to && !fate.Done?
      ensures r.Ok? ==>
                exists totals :: SummaryInRange(totals, service.platformDays.rows, from, to)
                                 && LineByLine(r.value, totals, SummaryLine)
    {
      if from > to { return InvalidDateRange; }
      var ok, rows := service.platformDays.SummaryByCurrency(from, to, fate);
      if !ok { return StoreFailed; }
      var out: seq<SummaryReport> := [];
      for i := 0 to |rows|
        invariant |out| == i && forall j :: 0 <= j < i ==> SummaryLine(out[j], rows[j])
      {
        var t := rows[i].row.tally;
        var average := Quotient(t.revenue, t.orders);
        var rate := Rate(t.failed, t.orders);
        var averageMs := Quotient(t.deliveryMsSum, t.deliveryMsCount);
        out := out + [SummaryReport(rows[i].key, t.orders, t.revenue, average, t.failed, rate, t.deliveryMsCount,
                                    averageMs, rows[i].row.payments, rows[i].row.paymentsAmount)];
      }
      assert LineByLine(out, rows, SummaryLine);
      return Ok(out);
    }
  }
}
