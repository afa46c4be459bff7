// The four day collections and order_context as values: the atomic writes the
// service issues, what each does to a row, and the counters one can read back.
module Aggregates {
  import opened Events
  import opened Folds
  import opened Sums

  // ---------- Rows, keyed as the unique indexes key them ----------

  datatype DayKey = DayKey(id: int, day: Day)
  datatype ProductKey = ProductKey(branch: int, product: int, day: Day)
  datatype PlatformKey = PlatformKey(day: Day, currency: string)

  datatype Tally = Tally(orders: int, revenue: int, deliveryMsSum: int, deliveryMsCount: int, failed: int)

  datatype DayRow = DayRow(currency: string, tally: Tally)
  datatype ProductRow = ProductRow(currency: string, quantity: int, revenue: int)
  datatype PlatformRow = PlatformRow(tally: Tally, payments: int, paymentsAmount: int)

  const NO_TALLY := Tally(0, 0, 0, 0, 0)
  const NEW_DAY_ROW := DayRow("", NO_TALLY)
  const NEW_PRODUCT_ROW := ProductRow("", 0, 0)
  const NEW_PLATFORM_ROW := PlatformRow(NO_TALLY, 0, 0)

  datatype Store = Store(
    restaurants: map<DayKey, DayRow>,
    branches: map<DayKey, DayRow>,
    products: map<ProductKey, ProductRow>,
    platform: map<PlatformKey, PlatformRow>,
    contexts: map<string, OrderContext>)

  const EMPTY := Store(map[], map[], map[], map[], map[])

  // ---------- Writes ----------

  datatype Change = Placed(currency: string, total: int) | Delivered(ms: int) | Rejected

  // One single-document upsert. The line number keeps two equal line items of one
  // order apart; it is not stored.
  datatype Write =
    | ToRestaurant(dayKey: DayKey, change: Change)
    | ToBranch(dayKey: DayKey, change: Change)
    | ToProduct(productKey: ProductKey, currency: string, quantity: int, lineTotal: int, line: nat)
    | ToPlatform(platformKey: PlatformKey, change: Change)
    | ToPayments(platformKey: PlatformKey, amount: int)
    | ToContext(orderId: string, context: OrderContext)

  function Bump(t: Tally, change: Change): Tally {
    match change
    case Placed(_, total) => t.(orders := t.orders + 1, revenue := t.revenue + total)
    case Delivered(ms) => t.(deliveryMsSum := t.deliveryMsSum + ms, deliveryMsCount := t.deliveryMsCount + 1)
    case Rejected => t.(failed := t.failed + 1)
  }

  function BumpDay(row: DayRow, change: Change): DayRow {
    DayRow(if change.Placed? then change.currency else row.currency, Bump(row.tally, change))
  }

  function RowAt<K, V>(rows: map<K, V>, k: K, blank: V): V {
    if k in rows then rows[k] else blank
  }

  function Apply(st: Store, w: Write): Store {
    match w
    case ToRestaurant(k, change) =>
      st.(restaurants := st.restaurants[k := BumpDay(RowAt(st.restaurants, k, NEW_DAY_ROW), change)])
    case ToBranch(k, change) =>
      st.(branches := st.branches[k := BumpDay(RowAt(st.branches, k, NEW_DAY_ROW), change)])
    case ToProduct(k, currency, quantity, lineTotal, _) =>
      var row := RowAt(st.products, k, NEW_PRODUCT_ROW);
      st.(products := st.products[k := ProductRow(currency, row.quantity + quantity, row.revenue + lineTotal)])
    case ToPlatform(k, change) =>
      var row := RowAt(st.platform, k, NEW_PLATFORM_ROW);
      st.(platform := st.platform[k := row.(tally := Bump(row.tally, change))])
    case ToPayments(k, amount) =>
      var row := RowAt(st.platform, k, NEW_PLATFORM_ROW);
      st.(platform := st.platform[k := row.(payments := row.payments + 1,
        paymentsAmount := row.paymentsAmount + amount)])
    case ToContext(orderId, context) =>
      st.(contexts := st.contexts[orderId := context])
  }

  function ApplyAll(st: Store, ws: seq<Write>): Store {
    if ws == [] then st else Apply(ApplyAll(st, ws[..|ws| - 1]), ws[|ws| - 1])
  }

  lemma ApplyMore(st: Store, ws: seq<Write>, w: Write)
    ensures ApplyAll(st, ws + [w]) == Apply(ApplyAll(st, ws), w)
  {
    assert (ws + [w])[..|ws|] == ws;
  }

  lemma {:induction false} ApplyAllIsFold(st: Store, ws: seq<Write>)
    ensures ApplyAll(st, ws) == Fold(st, ws, Apply)
  {
    if ws != [] { ApplyAllIsFold(st, ws[..|ws| - 1]); }
  }

  lemma ApplyAllConcat(st: Store, a: seq<Write>, b: seq<Write>)
    ensures ApplyAll(st, a + b) == ApplyAll(ApplyAll(st, a), b)
  {
    ApplyAllIsFold(st, a);
    ApplyAllIsFold(st, a + b);
    ApplyAllIsFold(ApplyAll(st, a), b);
    FoldConcat(st, a, b, Apply);
  }

  // ---------- Counters ----------

  datatype Counter = Orders | Revenue | DeliveryMsSum | DeliveryMsCount | Failed | Payments | PaymentsAmount
  datatype ProductCounter = Quantity | LineRevenue

  // One counter of one row.
  datatype Cell =
    | RestaurantCell(dayKey: DayKey, counter: Counter)
    | BranchCell(dayKey: DayKey, counter: Counter)
    | ProductCell(productKey: ProductKey, productCounter: ProductCounter)
    | PlatformCell(platformKey: PlatformKey, counter: Counter)

  // A cell, or one counter summed over all rows of a collection whose key is selected.
  datatype Gauge =
    | At(cell: Cell)
    | OverRestaurants(days: DayKey -> bool, counter: Counter)
    | OverBranches(days: DayKey -> bool, counter: Counter)
    | OverProducts(lines: ProductKey -> bool, productCounter: ProductCounter)
    | OverPlatform(dates: PlatformKey -> bool, counter: Counter)

  function OfTally(t: Tally, c: Counter): int {
    match c
    case Orders => t.orders
    case Revenue => t.revenue
    case DeliveryMsSum => t.deliveryMsSum
    case DeliveryMsCount => t.deliveryMsCount
    case Failed => t.failed
    case Payments => 0
    case PaymentsAmount => 0
  }

  function OfPlatform(row: PlatformRow, c: Counter): int {
    match c
    case Payments => row.payments
    case PaymentsAmount => row.paymentsAmount
    case _ => OfTally(row.tally, c)
  }

  function OfProduct(row: ProductRow, c: ProductCounter): int {
    match c
    case Quantity => row.quantity
    case LineRevenue => row.revenue
  }

  function DayWeight(days: DayKey -> bool, c: Counter): (DayKey, DayRow) -> int {
    (k: DayKey, row: DayRow) => if days(k) then OfTally(row.tally, c) else 0
  }

  function ProductWeight(lines: ProductKey -> bool, c: ProductCounter): (ProductKey, ProductRow) -> int {
    (k: ProductKey, row: ProductRow) => if lines(k) then OfProduct(row, c) else 0
  }

  function PlatformWeight(dates: PlatformKey -> bool, c: Counter): (PlatformKey, PlatformRow) -> int {
    (k: PlatformKey, row: PlatformRow) => if dates(k) then OfPlatform(row, c) else 0
  }

  // An absent row reads as zero in every counter.
  function ReadCell(st: Store, cell: Cell): int {
    match cell
    case RestaurantCell(k, c) => OfTally(RowAt(st.restaurants, k, NEW_DAY_ROW).tally, c)
    case BranchCell(k, c) => OfTally(RowAt(st.branches, k, NEW_DAY_ROW).tally, c)
    case ProductCell(k, c) => OfProduct(RowAt(st.products, k, NEW_PRODUCT_ROW), c)
    case PlatformCell(k, c) => OfPlatform(RowAt(st.platform, k, NEW_PLATFORM_ROW), c)
  }

  ghost function Read(st: Store, g: Gauge): int {
    match g
    case At(cell) => ReadCell(st, cell)
    case OverRestaurants(days, c) => Total(st.restaurants, DayWeight(days, c))
    case OverBranches(days, c) => Total(st.branches, DayWeight(days, c))
    case OverProducts(lines, c) => Total(st.products, ProductWeight(lines, c))
    case OverPlatform(dates, c) => Total(st.platform, PlatformWeight(dates, c))
  }

  // Every counter is a field of its row.
  lemma CellsAreFields(st: Store, k: DayKey, p: ProductKey, d: PlatformKey)
    ensures k in st.restaurants ==>
              var t := st.restaurants[k].tally;
              && ReadCell(st, RestaurantCell(k, Orders)) == t.orders
              && ReadCell(st, RestaurantCell(k, Revenue)) == t.revenue
              && ReadCell(st, RestaurantCell(k, DeliveryMsSum)) == t.deliveryMsSum
              && ReadCell(st, RestaurantCell(k, DeliveryMsCount)) == t.deliveryMsCount
              && ReadCell(st, RestaurantCell(k, Failed)) == t.failed
    ensures k in st.branches ==>
              var t := st.branches[k].tally;
              && ReadCell(st, BranchCell(k, Orders)) == t.orders && ReadCell(st, BranchCell(k, Revenue)) == t.revenue
              && ReadCell(st, BranchCell(k, DeliveryMsSum)) == t.deliveryMsSum
              && ReadCell(st, BranchCell(k, DeliveryMsCount)) == t.deliveryMsCount
              && ReadCell(st, BranchCell(k, Failed)) == t.failed
    ensures p in st.products ==>
              && ReadCell(st, ProductCell(p, Quantity)) == st.products[p].quantity
              && ReadCell(st, ProductCell(p, LineRevenue)) == st.products[p].revenue
    ensures d in st.platform ==>
              var row := st.platform[d];
              && ReadCell(st, PlatformCell(d, Orders)) == row.tally.orders
              && ReadCell(st, PlatformCell(d, Revenue)) == row.tally.revenue
              && ReadCell(st, PlatformCell(d, DeliveryMsSum)) == row.tally.deliveryMsSum
              && ReadCell(st, PlatformCell(d, DeliveryMsCount)) == row.tally.deliveryMsCount
              && ReadCell(st, PlatformCell(d, Failed)) == row.tally.failed
              && ReadCell(st, PlatformCell(d, Payments)) == row.payments
              && ReadCell(st, PlatformCell(d, PaymentsAmount)) == row.paymentsAmount
  {
  }

  // ---------- What a write adds to a counter ----------

  function Amount(change: Change, c: Counter): int {
    match (change, c)
    case (Placed(_, _), Orders) => 1
    case (Placed(_, total), Revenue) => total
    case (Delivered(ms), DeliveryMsSum) => ms
    case (Delivered(_), DeliveryMsCount) => 1
    case (Rejected, Failed) => 1
    case _ => 0
  }

  function PaymentAmount(amount: int, c: Counter): int {
    match c
    case Payments => 1
    case PaymentsAmount => amount
    case _ => 0
  }

  function ProductAmount(w: Write, c: ProductCounter): int
    requires w.ToProduct?
  {
    match c
    case Quantity => w.quantity
    case LineRevenue => w.lineTotal
  }

  function Delta(w: Write, g: Gauge): int {
    match (w, g)
    case (ToRestaurant(k, change), At(RestaurantCell(k', c))) => if k == k' then Amount(change, c) else 0
    case (ToRestaurant(k, change), OverRestaurants(days, c)) => if days(k) then Amount(change, c) else 0
    case (ToBranch(k, change), At(BranchCell(k', c))) => if k == k' then Amount(change, c) else 0
    case (ToBranch(k, change), OverBranches(days, c)) => if days(k) then Amount(change, c) else 0
    case (ToProduct(k, _, _, _, _), At(ProductCell(k', c))) => if k == k' then ProductAmount(w, c) else 0
    case (ToProduct(k, _, _, _, _), OverProducts(lines, c)) => if lines(k) then ProductAmount(w, c) else 0
    case (ToPlatform(k, change), At(PlatformCell(k', c))) => if k == k' then Amount(change, c) else 0
    case (ToPlatform(k, change), OverPlatform(dates, c)) => if dates(k) then Amount(change, c) else 0
    case (ToPayments(k, amount), At(PlatformCell(k', c))) => if k == k' then PaymentAmount(amount, c) else 0
    case (ToPayments(k, amount), OverPlatform(dates, c)) => if dates(k) then PaymentAmount(amount, c) else 0
    case _ => 0
  }

  function DeltaOf(g: Gauge): Write -> int {
    (w: Write) => Delta(w, g)
  }

  lemma BumpAdds(t: Tally, change: Change, c: Counter)
    ensures OfTally(Bump(t, change), c) == OfTally(t, c) + Amount(change, c)
  {
  }

  lemma DayRowAdds(rows: map<DayKey, DayRow>, k: DayKey, change: Change, days: DayKey -> bool, c: Counter)
    ensures var row := BumpDay(RowAt(rows, k, NEW_DAY_ROW), change);
            && OfTally(row.tally, c) == OfTally(RowAt(rows, k, NEW_DAY_ROW).tally, c) + Amount(change, c)
            && Total(rows[k := row], DayWeight(days, c)) ==
               Total(rows, DayWeight(days, c)) + if days(k) then Amount(change, c) else 0
  {
    var row := RowAt(rows, k, NEW_DAY_ROW);
    BumpAdds(row.tally, change, c);
    TotalUpdate(rows, k, BumpDay(row, change), DayWeight(days, c));
  }

  lemma RestaurantRowsRead(st: Store, w: Write, g: Gauge)
    requires w.ToRestaurant?
    ensures Read(Apply(st, w), g) == Read(st, g) + Delta(w, g)
  {
    if g.At? && g.cell.RestaurantCell? {
      DayRowAdds(st.restaurants, w.dayKey, w.change, _ => true, g.cell.counter);
    } else if g.OverRestaurants? {
      DayRowAdds(st.restaurants, w.dayKey, w.change, g.days, g.counter);
    }
  }

  lemma BranchRowsRead(st: Store, w: Write, g: Gauge)
    requires w.ToBranch?
    ensures Read(Apply(st, w), g) == Read(st, g) + Delta(w, g)
  {
    if g.At? && g.cell.BranchCell? {
      DayRowAdds(st.branches, w.dayKey, w.change, _ => true, g.cell.counter);
    } else if g.OverBranches? {
      DayRowAdds(st.branches, w.dayKey, w.change, g.days, g.counter);
    }
  }

  lemma ProductRowsRead(st: Store, w: Write, g: Gauge)
    requires w.ToProduct?
    ensures Read(Apply(st, w), g) == Read(st, g) + Delta(w, g)
  {
    if g.OverProducts? {
      TotalUpdate(st.products, w.productKey, Apply(st, w).products[w.productKey],
        ProductWeight(g.lines, g.productCounter));
    }
  }

  lemma PlatformRowsRead(st: Store, w: Write, g: Gauge)
    requires w.ToPlatform? || w.ToPayments?
    ensures Read(Apply(st, w), g) == Read(st, g) + Delta(w, g)
  {
    var k := w.platformKey;
    var row, row' := RowAt(st.platform, k, NEW_PLATFORM_ROW), Apply(st, w).platform[k];
    match g
    case At(PlatformCell(_, c)) => PlatformRowAdds(row, row', w, c);
    case OverPlatform(dates, c) =>
      PlatformRowAdds(row, row', w, c);
      TotalUpdate(st.platform, k, row', PlatformWeight(dates, c));
    case _ =>
  }

  lemma PlatformRowAdds(row: PlatformRow, row': PlatformRow, w: Write, c: Counter)
    requires w.ToPlatform? ==> row' == row.(tally := Bump(row.tally, w.change))
    requires w.ToPayments? ==>
               row' == row.(payments := row.payments + 1, paymentsAmount := row.paymentsAmount + w.amount)
    requires w.ToPlatform? || w.ToPayments?
    ensures OfPlatform(row', c) ==
            OfPlatform(row, c) + if w.ToPlatform? then Amount(w.change, c) else PaymentAmount(w.amount, c)
  {
  }

  // Every counter and every total over a collection is additive in the writes:
  // a write adds its own amount, whatever the store holds.
  lemma ApplyReads(st: Store, w: Write, g: Gauge)
    ensures Read(Apply(st, w), g) == Read(st, g) + Delta(w, g)
  {
    match w
    case ToRestaurant(_, _) => RestaurantRowsRead(st, w, g);
    case ToBranch(_, _) => BranchRowsRead(st, w, g);
    case ToProduct(_, _, _, _, _) => ProductRowsRead(st, w, g);
    case ToPlatform(_, _) => PlatformRowsRead(st, w, g);
    case ToPayments(_, _) => PlatformRowsRead(st, w, g);
    case ToContext(_, _) =>
  }

  lemma {:induction false} ApplyAllReads(st: Store, ws: seq<Write>, g: Gauge)
    ensures Read(ApplyAll(st, ws), g) == Read(st, g) + Sum(ws, DeltaOf(g))
  {
    if ws != [] {
      var n := |ws| - 1;
      ApplyAllReads(st, ws[..n], g);
      ApplyReads(ApplyAll(st, ws[..n]), ws[n], g);
    }
  }

  // Increments commute: the order in which writes other than context rows land
  // is invisible in every counter.
  lemma AnyOrderReads(st: Store, a: seq<Write>, b: seq<Write>, g: Gauge)
    requires multiset(a) == multiset(b)
    ensures Read(ApplyAll(st, a), g) == Read(ApplyAll(st, b), g)
  {
    ApplyAllReads(st, a, g);
    ApplyAllReads(st, b, g);
    SumPermutation(a, b, DeltaOf(g));
  }

  // ---------- The plan of a handler run ----------

  function ItemWrites(branch: int, day: Day, currency: string, items: seq<Item>): (ws: seq<Write>)
    ensures |ws| == |items|
    ensures forall i :: 0 <= i < |items| ==>
              ws[i] == ToProduct(ProductKey(branch, items[i].product, day), currency, items[i].quantity,
                items[i].lineTotal, i)
  {
    seq(|items|, i requires 0 <= i < |items| =>
      ToProduct(ProductKey(branch, items[i].product, day), currency, items[i].quantity, items[i].lineTotal, i))
  }

  // The store calls a handler run makes, in order, given what its context lookup
  // found. Each call is a batch of writes: one upsert, or the unordered bulk
  // upsert of an order's line items, which is not issued for an empty order.
  function Plan(e: Event, found: Option<OrderContext>): seq<seq<Write>> {
    match e
    case OrderPlaced(orderId, restaurant, branch, currency, total, placedAt, items) =>
      var day := UtcDay(placedAt);
      [[ToRestaurant(DayKey(restaurant, day), Placed(currency, total))],
       [ToBranch(DayKey(branch, day), Placed(currency, total))]]
      + (if items == [] then [] else [ItemWrites(branch, day, currency, items)])
      + [[ToPlatform(PlatformKey(day, currency), Placed(currency, total))],
         [ToContext(orderId, OrderContext(currency, placedAt))]]
    case OrderDelivered(_, restaurant, branch, currency, deliveredAt) =>
      if found.None? then []
      else
        var day := UtcDay(found.value.placedAt);
        var change := Delivered(DeliveryMs(deliveredAt, found.value.placedAt));
        [[ToRestaurant(DayKey(restaurant, day), change)],
         [ToBranch(DayKey(branch, day), change)],
         [ToPlatform(PlatformKey(day, currency), change)]]
    case OrderRejected(_, restaurant, branch, occurredAt) =>
      var day := UtcDay(occurredAt);
      [[ToRestaurant(DayKey(restaurant, day), Rejected)],
       [ToBranch(DayKey(branch, day), Rejected)]]
      + (if found.None? then [] else [[ToPlatform(PlatformKey(day, found.value.currency), Rejected)]])
    case PaymentCompleted(currency, amount, completedAt) =>
      [[ToPayments(PlatformKey(UtcDay(completedAt), currency), amount)]]
  }

  function Flat(batches: seq<seq<Write>>): seq<Write> {
    if batches == [] then [] else Flat(batches[..|batches| - 1]) + batches[|batches| - 1]
  }

  function Lookup(contexts: map<string, OrderContext>, e: Event): Option<OrderContext> {
    if NeedsContext(e) && e.orderId in contexts then Some(contexts[e.orderId]) else None
  }

  // A handler run without store failures.
  function Handle(st: Store, e: Event): Store {
    ApplyAll(st, Flat(Plan(e, Lookup(st.contexts, e))))
  }
}
