// What the report lines say of the events handled: every figure of every line is a
// count or a sum over the history, written out on the events' own fields.
module ReportTruth {
  import opened Events
  import opened Sums
  import opened Aggregates
  import opened Runs
  import opened Queries
  import opened Reports
  import opened Effects

  // ---------- Figures over a history of events and what their handlers found ----------

  predicate PlacedBy(a: Applied, restaurant: int, day: Day) {
    a.event.OrderPlaced? && a.event.restaurant == restaurant && UtcDay(a.event.placedAt) == day
  }

  function OrdersOfRestaurant(restaurant: int, day: Day): Applied -> int {
    (a: Applied) => if PlacedBy(a, restaurant, day) then 1 else 0
  }

  function RevenueOfRestaurant(restaurant: int, day: Day): Applied -> int {
    (a: Applied) => if PlacedBy(a, restaurant, day) then a.event.total else 0
  }

  function RejectionsOfRestaurant(restaurant: int, day: Day): Applied -> int {
    (a: Applied) =>
      if a.event.OrderRejected? && a.event.restaurant == restaurant && UtcDay(a.event.occurredAt) == day then 1 else 0
  }

  // A delivery counts on the day its order was placed, if that is known.
  predicate DeliveredBy(a: Applied, restaurant: int, day: Day) {
    && a.event.OrderDelivered? && a.event.restaurant == restaurant
    && a.found.Some? && UtcDay(a.found.value.placedAt) == day
  }

  function DeliveriesOfRestaurant(restaurant: int, day: Day): Applied -> int {
    (a: Applied) => if DeliveredBy(a, restaurant, day) then 1 else 0
  }

  function OrdersOfBranch(branch: int, day: Day): Applied -> int {
    (a: Applied) =>
      if a.event.OrderPlaced? && a.event.branch == branch && UtcDay(a.event.placedAt) == day then 1 else 0
  }

  function RevenueOfBranch(branch: int, day: Day): Applied -> int {
    (a: Applied) =>
      if a.event.OrderPlaced? && a.event.branch == branch && UtcDay(a.event.placedAt) == day then a.event.total else 0
  }

  function QuantityOfProduct(branch: int, product: int, day: Day): Applied -> int {
    (a: Applied) =>
      if a.event.OrderPlaced? && a.event.branch == branch && UtcDay(a.event.placedAt) == day
      then Sum(a.event.items, QuantityOf(product)) else 0
  }

  function RevenueOfProduct(branch: int, product: int, day: Day): Applied -> int {
    (a: Applied) =>
      if a.event.OrderPlaced? && a.event.branch == branch && UtcDay(a.event.placedAt) == day
      then Sum(a.event.items, LineTotalOf(product)) else 0
  }

  // In one currency, from one day to another.
  function OrdersIn(currency: string, from: Day, to: Day): Applied -> int {
    (a: Applied) =>
      if a.event.OrderPlaced? && a.event.currency == currency && from <= UtcDay(a.event.placedAt) <= to then 1 else 0
  }

  function RevenueIn(currency: string, from: Day, to: Day): Applied -> int {
    (a: Applied) =>
      if a.event.OrderPlaced? && a.event.currency == currency && from <= UtcDay(a.event.placedAt) <= to
      then a.event.total else 0
  }

  // A rejection counts for the platform in its order's currency, if that is known.
  function RejectionsIn(currency: string, from: Day, to: Day): Applied -> int {
    (a: Applied) =>
      if a.event.OrderRejected? && a.found.Some? && a.found.value.currency == currency
         && from <= UtcDay(a.event.occurredAt) <= to
      then 1 else 0
  }

  function DeliveriesIn(currency: string, from: Day, to: Day): Applied -> int {
    (a: Applied) =>
      if a.event.OrderDelivered? && a.found.Some? && a.event.currency == currency
         && from <= UtcDay(a.found.value.placedAt) <= to
      then 1 else 0
  }

  function PaymentsIn(currency: string, from: Day, to: Day): Applied -> int {
    (a: Applied) =>
      if a.event.PaymentCompleted? && a.event.currency == currency && from <= UtcDay(a.event.completedAt) <= to
      then 1 else 0
  }

  function PaidIn(currency: string, from: Day, to: Day): Applied -> int {
    (a: Applied) =>
      if a.event.PaymentCompleted? && a.event.currency == currency && from <= UtcDay(a.event.completedAt) <= to
      then a.event.amount else 0
  }

  // ---------- Counters are these figures ----------

  lemma Figures(h: seq<Event>, g: Gauge, f: Applied -> int)
    requires forall a :: Share(a, g) == f(a)
    ensures Read(RunAll(h), g) == Sum(Trail(h), f)
  {
    RunReads(h, g);
    SumEqual(Trail(h), ShareOf(g), Trail(h), f);
  }

  lemma RestaurantFigureShares(a: Applied, k: DayKey)
    ensures Share(a, At(RestaurantCell(k, Orders))) == OrdersOfRestaurant(k.id, k.day)(a)
    ensures Share(a, At(RestaurantCell(k, Revenue))) == RevenueOfRestaurant(k.id, k.day)(a)
    ensures Share(a, At(RestaurantCell(k, Failed))) == RejectionsOfRestaurant(k.id, k.day)(a)
    ensures Share(a, At(RestaurantCell(k, DeliveryMsCount))) == DeliveriesOfRestaurant(k.id, k.day)(a)
  {
    match a.event
    case OrderPlaced(_, _, _, _, _, _, _) =>
    case OrderDelivered(_, _, _, _, _) =>
    case OrderRejected(_, _, _, _) =>
    case PaymentCompleted(_, _, _) =>
  }

  lemma RestaurantReads(h: seq<Event>, k: DayKey)
    ensures ReadCell(RunAll(h), RestaurantCell(k, Orders)) == Sum(Trail(h), OrdersOfRestaurant(k.id, k.day))
    ensures ReadCell(RunAll(h), RestaurantCell(k, Revenue)) == Sum(Trail(h), RevenueOfRestaurant(k.id, k.day))
    ensures ReadCell(RunAll(h), RestaurantCell(k, Failed)) == Sum(Trail(h), RejectionsOfRestaurant(k.id, k.day))
    ensures ReadCell(RunAll(h), RestaurantCell(k, DeliveryMsCount)) ==
            Sum(Trail(h), DeliveriesOfRestaurant(k.id, k.day))
  {
    forall a
      ensures Share(a, At(RestaurantCell(k, Orders))) == OrdersOfRestaurant(k.id, k.day)(a)
      ensures Share(a, At(RestaurantCell(k, Revenue))) == RevenueOfRestaurant(k.id, k.day)(a)
      ensures Share(a, At(RestaurantCell(k, Failed))) == RejectionsOfRestaurant(k.id, k.day)(a)
      ensures Share(a, At(RestaurantCell(k, DeliveryMsCount))) == DeliveriesOfRestaurant(k.id, k.day)(a)
    {
      RestaurantFigureShares(a, k);
    }
    Figures(h, At(RestaurantCell(k, Orders)), OrdersOfRestaurant(k.id, k.day));
    Figures(h, At(RestaurantCell(k, Revenue)), RevenueOfRestaurant(k.id, k.day));
    Figures(h, At(RestaurantCell(k, Failed)), RejectionsOfRestaurant(k.id, k.day));
    Figures(h, At(RestaurantCell(k, DeliveryMsCount)), DeliveriesOfRestaurant(k.id, k.day));
  }

  lemma RestaurantFigures(h: seq<Event>, k: DayKey)
    requires k in RunAll(h).restaurants
    ensures var t := RunAll(h).restaurants[k].tally;
            && t.orders == Sum(Trail(h), OrdersOfRestaurant(k.id, k.day))
            && t.revenue == Sum(Trail(h), RevenueOfRestaurant(k.id, k.day))
            && t.failed == Sum(Trail(h), RejectionsOfRestaurant(k.id, k.day))
            && t.deliveryMsCount == Sum(Trail(h), DeliveriesOfRestaurant(k.id, k.day))
  {
    RestaurantReads(h, k);
    CellsAreFields(RunAll(h), k, ProductKey(0, 0, 0), PlatformKey(0, ""));
  }

  lemma BranchShares(a: Applied, k: DayKey)
    ensures Share(a, At(BranchCell(k, Orders))) == OrdersOfBranch(k.id, k.day)(a)
    ensures Share(a, At(BranchCell(k, Revenue))) == RevenueOfBranch(k.id, k.day)(a)
  {
    match a.event
    case OrderPlaced(_, _, _, _, _, _, _) =>
    case OrderDelivered(_, _, _, _, _) =>
    case OrderRejected(_, _, _, _) =>
    case PaymentCompleted(_, _, _) =>
  }

  lemma BranchFigures(h: seq<Event>, k: DayKey)
    requires k in RunAll(h).branches
    ensures var t := RunAll(h).branches[k].tally;
            && t.orders == Sum(Trail(h), OrdersOfBranch(k.id, k.day))
            && t.revenue == Sum(Trail(h), RevenueOfBranch(k.id, k.day))
  {
    forall a
      ensures Share(a, At(BranchCell(k, Orders))) == OrdersOfBranch(k.id, k.day)(a)
      ensures Share(a, At(BranchCell(k, Revenue))) == RevenueOfBranch(k.id, k.day)(a)
    {
      BranchShares(a, k);
    }
    Figures(h, At(BranchCell(k, Orders)), OrdersOfBranch(k.id, k.day));
    Figures(h, At(BranchCell(k, Revenue)), RevenueOfBranch(k.id, k.day));
  }

  lemma ProductShares(a: Applied, k: ProductKey)
    ensures Share(a, At(ProductCell(k, Quantity))) == QuantityOfProduct(k.branch, k.product, k.day)(a)
    ensures Share(a, At(ProductCell(k, LineRevenue))) == RevenueOfProduct(k.branch, k.product, k.day)(a)
  {
    if a.event.OrderPlaced? {
      var e := a.event;
      LinesAdd(e.items, e.branch, UtcDay(e.placedAt), k);
    }
  }

  lemma {:induction false} LinesAdd(items: seq<Item>, branch: int, day: Day, k: ProductKey)
    ensures Sum(items, LineShare(At(ProductCell(k, Quantity)), branch, day)) ==
            if k.branch == branch && k.day == day then Sum(items, QuantityOf(k.product)) else 0
    ensures Sum(items, LineShare(At(ProductCell(k, LineRevenue)), branch, day)) ==
            if k.branch == branch && k.day == day then Sum(items, LineTotalOf(k.product)) else 0
  {
    if items != [] { LinesAdd(items[..|items| - 1], branch, day, k); }
  }

  lemma ProductFigures(h: seq<Event>, k: ProductKey)
    requires k in RunAll(h).products
    ensures RunAll(h).products[k].quantity == Sum(Trail(h), QuantityOfProduct(k.branch, k.product, k.day))
    ensures RunAll(h).products[k].revenue == Sum(Trail(h), RevenueOfProduct(k.branch, k.product, k.day))
  {
    forall a
      ensures Share(a, At(ProductCell(k, Quantity))) == QuantityOfProduct(k.branch, k.product, k.day)(a)
      ensures Share(a, At(ProductCell(k, LineRevenue))) == RevenueOfProduct(k.branch, k.product, k.day)(a)
    {
      ProductShares(a, k);
    }
    Figures(h, At(ProductCell(k, Quantity)), QuantityOfProduct(k.branch, k.product, k.day));
    Figures(h, At(ProductCell(k, LineRevenue)), RevenueOfProduct(k.branch, k.product, k.day));
  }

  lemma PlatformFigureShares(a: Applied, k: PlatformKey)
    ensures Share(a, At(PlatformCell(k, Orders))) == OrdersIn(k.currency, k.day, k.day)(a)
    ensures Share(a, At(PlatformCell(k, Revenue))) == RevenueIn(k.currency, k.day, k.day)(a)
  {
    match a.event
    case OrderPlaced(_, _, _, currency, _, placedAt, _) =>
      assert PlatformKey(UtcDay(placedAt), currency) == k <==> currency == k.currency && UtcDay(placedAt) == k.day;
    case OrderDelivered(_, _, _, _, _) =>
    case OrderRejected(_, _, _, _) =>
    case PaymentCompleted(_, _, _) =>
  }

  lemma PlatformFigures(h: seq<Event>, k: PlatformKey)
    requires k in RunAll(h).platform
    ensures var t := RunAll(h).platform[k].tally;
            && t.orders == Sum(Trail(h), OrdersIn(k.currency, k.day, k.day))
            && t.revenue == Sum(Trail(h), RevenueIn(k.currency, k.day, k.day))
  {
    forall a
      ensures Share(a, At(PlatformCell(k, Orders))) == OrdersIn(k.currency, k.day, k.day)(a)
      ensures Share(a, At(PlatformCell(k, Revenue))) == RevenueIn(k.currency, k.day, k.day)(a)
    {
      PlatformFigureShares(a, k);
    }
    Figures(h, At(PlatformCell(k, Orders)), OrdersIn(k.currency, k.day, k.day));
    Figures(h, At(PlatformCell(k, Revenue)), RevenueIn(k.currency, k.day, k.day));
  }

  // ---------- Lines ----------

  // The quotient rounded toward zero, zero if nothing was counted.
  predicate Rounded(average: int, sum: int, count: int) {
    && (count <= 0 ==> average == 0)
    && (count > 0 && sum >= 0 ==> average * count <= sum < average * count + count)
    && (count > 0 && sum < 0 ==> average * count - count < sum <= average * count)
  }

  predicate Fraction(rate: real, part: int, whole: int) {
    && (whole > 0 ==> rate * whole as real == part as real)
    && (whole <= 0 ==> rate == 0.0)
  }

  lemma RateIsFraction(rate: real, part: int, whole: int)
    requires IsRate(rate, part, whole)
    ensures Fraction(rate, part, whole)
  {
  }

  lemma RestaurantLine(h: seq<Event>, out: seq<DayReport>, found: seq<Found<DayKey, DayRow>>, restaurant: int,
                       from: Day,
                       to: Day, i: nat)
    requires DaysInRange(found, RunAll(h).restaurants, restaurant, from, to) && LineByLine(out, found, DayLine)
    requires i < |out|
    ensures && from <= out[i].date <= to && out[i].currency == found[i].row.currency
            && out[i].orders == Sum(Trail(h), OrdersOfRestaurant(restaurant, out[i].date))
            && out[i].revenue == Sum(Trail(h), RevenueOfRestaurant(restaurant, out[i].date))
            && Rounded(out[i].average, out[i].revenue, out[i].orders)
  {
    assert found[i] in found && DayLine(out[i], found[i]);
    RestaurantFigures(h, found[i].key);
  }

  lemma BranchLine(h: seq<Event>, out: seq<DayReport>, found: seq<Found<DayKey, DayRow>>, branch: int, from: Day,
                   to: Day,
                   i: nat)
    requires DaysInRange(found, RunAll(h).branches, branch, from, to) && LineByLine(out, found, DayLine)
    requires i < |out|
    ensures && from <= out[i].date <= to && out[i].currency == found[i].row.currency
            && out[i].orders == Sum(Trail(h), OrdersOfBranch(branch, out[i].date))
            && out[i].revenue == Sum(Trail(h), RevenueOfBranch(branch, out[i].date))
            && Rounded(out[i].average, out[i].revenue, out[i].orders)
  {
    assert found[i] in found && DayLine(out[i], found[i]);
    BranchFigures(h, found[i].key);
  }

  lemma ProductLineTells(h: seq<Event>, out: seq<ProductReport>, found: seq<Found<ProductKey, ProductRow>>, branch: int,
                         product: int, from: Day, to: Day, i: nat)
    requires ProductDaysInRange(found, RunAll(h).products, branch, product, from, to)
    requires LineByLine(out, found, ProductLine) && i < |out|
    ensures && from <= out[i].date <= to && out[i].currency == found[i].row.currency
            && out[i].quantity == Sum(Trail(h), QuantityOfProduct(branch, product, out[i].date))
            && out[i].revenue == Sum(Trail(h), RevenueOfProduct(branch, product, out[i].date))
            && Rounded(out[i].averagePrice, out[i].revenue, out[i].quantity)
  {
    assert found[i] in found && ProductLine(out[i], found[i]);
    ProductFigures(h, found[i].key);
  }

  lemma FailureLineTells(h: seq<Event>, out: seq<FailureReport>, found: seq<Found<DayKey, DayRow>>, restaurant: int,
                         from: Day, to: Day, i: nat)
    requires DaysInRange(found, RunAll(h).restaurants, restaurant, from, to) && LineByLine(out, found, FailureLine)
    requires i < |out|
    ensures && from <= out[i].date <= to
            && out[i].orders == Sum(Trail(h), OrdersOfRestaurant(restaurant, out[i].date))
            && out[i].failed == Sum(Trail(h), RejectionsOfRestaurant(restaurant, out[i].date))
            && Fraction(out[i].rate, out[i].failed, out[i].orders)
  {
    assert found[i] in found && FailureLine(out[i], found[i]);
    RateIsFraction(out[i].rate, out[i].failed, out[i].orders);
    RestaurantFigures(h, found[i].key);
  }

  lemma DeliveryLineTells(h: seq<Event>, out: seq<DeliveryReport>, found: seq<Found<DayKey, DayRow>>, restaurant: int,
                          from: Day, to: Day, i: nat)
    requires DaysInRange(found, RunAll(h).restaurants, restaurant, from, to) && LineByLine(out, found, DeliveryLine)
    requires i < |out|
    ensures && from <= out[i].date <= to
            && out[i].delivered == Sum(Trail(h), DeliveriesOfRestaurant(restaurant, out[i].date))
            && Rounded(out[i].averageMs, found[i].row.tally.deliveryMsSum, out[i].delivered)
  {
    assert found[i] in found && DeliveryLine(out[i], found[i]);
    RestaurantFigures(h, found[i].key);
  }

  lemma PlatformLineTells(h: seq<Event>, out: seq<DayReport>, found: seq<Found<PlatformKey, PlatformRow>>, from: Day,
                          to: Day, i: nat)
    requires DatesInRange(found, RunAll(h).platform, from, to) && LineByLine(out, found, PlatformLine)
    requires i < |out|
    ensures && from <= out[i].date <= to
            && out[i].orders == Sum(Trail(h), OrdersIn(out[i].currency, out[i].date, out[i].date))
            && out[i].revenue == Sum(Trail(h), RevenueIn(out[i].currency, out[i].date, out[i].date))
            && Rounded(out[i].average, out[i].revenue, out[i].orders)
  {
    assert found[i] in found && PlatformLine(out[i], found[i]);
    PlatformFigures(h, found[i].key);
  }

  // ---------- The summary ----------

  lemma SummaryFigure(h: seq<Event>, currency: string, from: Day, to: Day, c: Counter, amount: PlatformRow -> int,
                      f: Applied -> int)
    requires forall row :: amount(row) == OfPlatform(row, c)
    requires forall a :: Share(a, OverPlatform(DatesOfCurrency(currency, from, to), c)) == f(a)
    ensures Total(RunAll(h).platform, AmountsIn(currency, from, to, amount)) == Sum(Trail(h), f)
  {
    Figures(h, OverPlatform(DatesOfCurrency(currency, from, to), c), f);
    AmountTotal(RunAll(h).platform, currency, from, to, c, amount);
  }

  ghost predicate SharesTell(a: Applied, currency: string, from: Day, to: Day) {
    var dates := DatesOfCurrency(currency, from, to);
    && Share(a, OverPlatform(dates, Orders)) == OrdersIn(currency, from, to)(a)
    && Share(a, OverPlatform(dates, Revenue)) == RevenueIn(currency, from, to)(a)
    && Share(a, OverPlatform(dates, Failed)) == RejectionsIn(currency, from, to)(a)
    && Share(a, OverPlatform(dates, DeliveryMsCount)) == DeliveriesIn(currency, from, to)(a)
    && Share(a, OverPlatform(dates, Payments)) == PaymentsIn(currency, from, to)(a)
    && Share(a, OverPlatform(dates, PaymentsAmount)) == PaidIn(currency, from, to)(a)
  }

  lemma SummaryShares(a: Applied, currency: string, from: Day, to: Day)
    ensures SharesTell(a, currency, from, to)
  {
    match a.event
    case OrderPlaced(_, _, _, _, _, _, _) =>
    case OrderDelivered(_, _, _, _, _) =>
    case OrderRejected(_, _, _, _) =>
    case PaymentCompleted(_, _, _) =>
  }

  // What a line of the totals says.
  ghost predicate TellsIn(line: Found<string, PlatformRow>, h: seq<Event>, from: Day, to: Day) {
    var c, r, t := line.key, line.row, Trail(h);
    && r.tally.orders == Sum(t, OrdersIn(c, from, to)) && r.tally.revenue == Sum(t, RevenueIn(c, from, to))
    && r.tally.failed == Sum(t, RejectionsIn(c, from, to))
    && r.tally.deliveryMsCount == Sum(t, DeliveriesIn(c, from, to))
    && r.payments == Sum(t, PaymentsIn(c, from, to)) && r.paymentsAmount == Sum(t, PaidIn(c, from, to))
  }

  lemma PlacedTotals(h: seq<Event>, line: Found<string, PlatformRow>, from: Day, to: Day)
    requires LineInRange(line, RunAll(h).platform, from, to)
    ensures line.row.tally.orders == Sum(Trail(h), OrdersIn(line.key, from, to))
    ensures line.row.tally.revenue == Sum(Trail(h), RevenueIn(line.key, from, to))
  {
    var c := line.key;
    forall a ensures SharesTell(a, c, from, to) { SummaryShares(a, c, from, to); }
    SummaryFigure(h, c, from, to, Orders, (row: PlatformRow) => row.tally.orders, OrdersIn(c, from, to));
    SummaryFigure(h, c, from, to, Revenue, (row: PlatformRow) => row.tally.revenue, RevenueIn(c, from, to));
  }

  lemma HandledTotals(h: seq<Event>, line: Found<string, PlatformRow>, from: Day, to: Day)
    requires LineInRange(line, RunAll(h).platform, from, to)
    ensures line.row.tally.failed == Sum(Trail(h), RejectionsIn(line.key, from, to))
    ensures line.row.tally.deliveryMsCount == Sum(Trail(h), DeliveriesIn(line.key, from, to))
  {
    var c := line.key;
    forall a ensures SharesTell(a, c, from, to) { SummaryShares(a, c, from, to); }
    SummaryFigure(h, c, from, to, Failed, (row: PlatformRow) => row.tally.failed, RejectionsIn(c, from, to));
    SummaryFigure(h, c, from, to, DeliveryMsCount, (row: PlatformRow) => row.tally.deliveryMsCount,
      DeliveriesIn(c, from, to));
  }

  lemma PaidTotals(h: seq<Event>, line: Found<string, PlatformRow>, from: Day, to: Day)
    requires LineInRange(line, RunAll(h).platform, from, to)
    ensures line.row.payments == Sum(Trail(h), PaymentsIn(line.key, from, to))
    ensures line.row.paymentsAmount == Sum(Trail(h), PaidIn(line.key, from, to))
  {
    var c := line.key;
    forall a ensures SharesTell(a, c, from, to) { SummaryShares(a, c, from, to); }
    SummaryFigure(h, c, from, to, Payments, (row: PlatformRow) => row.payments, PaymentsIn(c, from, to));
    SummaryFigure(h, c, from, to, PaymentsAmount, (row: PlatformRow) => row.paymentsAmount, PaidIn(c, from, to));
  }

  lemma TotalsTell(h: seq<Event>, line: Found<string, PlatformRow>, from: Day, to: Day)
    requires LineInRange(line, RunAll(h).platform, from, to)
    ensures TellsIn(line, h, from, to)
  {
    PlacedTotals(h, line, from, to);
    HandledTotals(h, line, from, to);
    PaidTotals(h, line, from, to);
  }

  lemma SummaryTells(h: seq<Event>, out: seq<SummaryReport>, totals: seq<Found<string, PlatformRow>>, from: Day,
                     to: Day,
                     i: nat)
    requires SummaryInRange(totals, RunAll(h).platform, from, to) && LineByLine(out, totals, SummaryLine) && i < |out|
    ensures var r, t := out[i], Trail(h);
            && r.orders == Sum(t, OrdersIn(r.currency, from, to))
            && r.revenue == Sum(t, RevenueIn(r.currency, from, to))
            && r.failed == Sum(t, RejectionsIn(r.currency, from, to))
            && r.delivered == Sum(t, DeliveriesIn(r.currency, from, to))
            && r.payments == Sum(t, PaymentsIn(r.currency, from, to))
            && r.paymentsAmount == Sum(t, PaidIn(r.currency, from, to))
            && Rounded(r.average, r.revenue, r.orders)
            && Fraction(r.rate, r.failed, r.orders)
  {
    assert SummaryLine(out[i], totals[i]) && LineInRange(totals[i], RunAll(h).platform, from, to);
    TotalsTell(h, totals[i], from, to);
    RateIsFraction(out[i].rate, out[i].failed, out[i].orders);
    AverageIsRounded(out[i].average, out[i].revenue, out[i].orders);
  }

  lemma AverageIsRounded(average: int, sum: int, count: int)
    requires IsAverage(average, sum, count)
    ensures Rounded(average, sum, count)
  {
  }
}
