// What each event counts for, row by row and in the rows' own fields: the statements
// the handlers are held to, told apart from how their writes are planned and applied.
module Effects {
  import opened Events
  import opened Sums
  import opened Aggregates

  // ---------- Rows ----------

  // The row of one restaurant or branch and day gained these amounts, and takes the
  // currency if one is given; the other rows are as before.
  ghost predicate DayRowGrew(before: map<DayKey, DayRow>, after: map<DayKey, DayRow>, id: int, day: int,
                             currency: Option<string>, gained: Tally) {
    var k := DayKey(id, day);
    var was := if k in before then before[k] else DayRow("", Tally(0, 0, 0, 0, 0));
    && after.Keys == before.Keys + {k}
    && (forall x :: x in before && x != k ==> after[x] == before[x])
    && after[k].currency == (if currency.Some? then currency.value else was.currency)
    && TallyGrew(was.tally, after[k].tally, gained)
  }

  predicate TallyGrew(before: Tally, after: Tally, gained: Tally) {
    && after.orders == before.orders + gained.orders
    && after.revenue == before.revenue + gained.revenue
    && after.deliveryMsSum == before.deliveryMsSum + gained.deliveryMsSum
    && after.deliveryMsCount == before.deliveryMsCount + gained.deliveryMsCount
    && after.failed == before.failed + gained.failed
  }

  ghost predicate PlatformRowGrew(before: map<PlatformKey, PlatformRow>, after: map<PlatformKey, PlatformRow>, day: int,
                                  currency: string, gained: Tally, payments: int, amount: int) {
    var k := PlatformKey(day, currency);
    var was := if k in before then before[k] else PlatformRow(Tally(0, 0, 0, 0, 0), 0, 0);
    && after.Keys == before.Keys + {k}
    && (forall x :: x in before && x != k ==> after[x] == before[x])
    && TallyGrew(was.tally, after[k].tally, gained)
    && after[k].payments == was.payments + payments
    && after[k].paymentsAmount == was.paymentsAmount + amount
  }

  function QuantityOf(product: int): Item -> int {
    (i: Item) => if i.product == product then i.quantity else 0
  }

  function LineTotalOf(product: int): Item -> int {
    (i: Item) => if i.product == product then i.lineTotal else 0
  }

  // The rows of the ordered products gained what their line items add up to.
  ghost predicate ProductRowsGrew(before: map<ProductKey, ProductRow>, after: map<ProductKey, ProductRow>, branch: int,
                                  day: int, currency: string, items: seq<Item>) {
    && after.Keys == before.Keys + (set i | i in items :: ProductKey(branch, i.product, day))
    && (forall k :: k in before && !(k.branch == branch && k.day == day && exists i ::
          i in items && i.product == k.product) ==>
          after[k] == before[k])
    && forall i :: i in items ==> ProductRowGrew(before, after, ProductKey(branch, i.product, day), currency, items)
  }

  predicate ProductRowGrew(before: map<ProductKey, ProductRow>, after: map<ProductKey, ProductRow>, k: ProductKey,
                           currency: string, items: seq<Item>) {
    var was := if k in before then before[k] else ProductRow("", 0, 0);
    && k in after && after[k].currency == currency
    && after[k].quantity == was.quantity + Sum(items, QuantityOf(k.product))
    && after[k].revenue == was.revenue + Sum(items, LineTotalOf(k.product))
  }

  // ---------- Events ----------

  // A UTC day is the 24 hours of nanoseconds that hold the instant.
  lemma UtcDayHolds(t: Instant)
    ensures UtcDay(t) * 86_400_000_000_000 <= t < (UtcDay(t) + 1) * 86_400_000_000_000
  {
  }

  // An order counts for its restaurant, its branch and its currency, its line items
  // for their products, on the UTC day it was placed; its context is remembered.
  ghost predicate PlacedCounted(st: Store, st': Store, orderId: string, restaurant: int, branch: int, currency: string,
                                total: int, placedAt: int, items: seq<Item>) {
    var day := UtcDay(placedAt);
    && DayRowGrew(st.restaurants, st'.restaurants, restaurant, day, Some(currency), Tally(1, total, 0, 0, 0))
    && DayRowGrew(st.branches, st'.branches, branch, day, Some(currency), Tally(1, total, 0, 0, 0))
    && ProductRowsGrew(st.products, st'.products, branch, day, currency, items)
    && PlatformRowGrew(st.platform, st'.platform, day, currency, Tally(1, total, 0, 0, 0), 0, 0)
    && st'.contexts == st.contexts[orderId := OrderContext(currency, placedAt)]
  }

  // Whole milliseconds from placement to delivery, none if the clocks disagree.
  predicate Millis(ms: int, placedAt: int, deliveredAt: int) {
    if deliveredAt >= placedAt then ms * 1_000_000 <= deliveredAt - placedAt < (ms + 1) * 1_000_000 else ms == 0
  }

  // A delivery counts on the day its order was placed; without a context it does not.
  ghost predicate DeliveredCounted(st: Store, st': Store, orderId: string, restaurant: int, branch: int,
                                   currency: string,
                                   deliveredAt: int) {
    if orderId !in st.contexts then st' == st
    else
      var placedAt := st.contexts[orderId].placedAt;
      exists ms :: Millis(ms, placedAt, deliveredAt) &&
                   DeliveredIn(st, st', restaurant, branch, currency, UtcDay(placedAt), ms)
  }

  ghost predicate DeliveredIn(st: Store, st': Store, restaurant: int, branch: int, currency: string, day: int,
                              ms: int) {
    && DayRowGrew(st.restaurants, st'.restaurants, restaurant, day, None, Tally(0, 0, ms, 1, 0))
    && DayRowGrew(st.branches, st'.branches, branch, day, None, Tally(0, 0, ms, 1, 0))
    && PlatformRowGrew(st.platform, st'.platform, day, currency, Tally(0, 0, ms, 1, 0), 0, 0)
    && st'.products == st.products && st'.contexts == st.contexts
  }

  // A rejection counts on its own day, for the platform in the currency of its order's
  // context if there is one.
  ghost predicate RejectedCounted(st: Store, st': Store, orderId: string, restaurant: int, branch: int,
                                  occurredAt: int) {
    var day := UtcDay(occurredAt);
    && DayRowGrew(st.restaurants, st'.restaurants, restaurant, day, None, Tally(0, 0, 0, 0, 1))
    && DayRowGrew(st.branches, st'.branches, branch, day, None, Tally(0, 0, 0, 0, 1))
    && (if orderId in st.contexts
        then PlatformRowGrew(st.platform, st'.platform, day, st.contexts[orderId].currency, Tally(0, 0, 0, 0, 1), 0, 0)
        else st'.platform == st.platform)
    && st'.products == st.products && st'.contexts == st.contexts
  }

  ghost predicate PaymentCounted(st: Store, st': Store, currency: string, amount: int, completedAt: int) {
    && PlatformRowGrew(st.platform, st'.platform, UtcDay(completedAt), currency, Tally(0, 0, 0, 0, 0), 1, amount)
    && st'.restaurants == st.restaurants && st'.branches == st.branches
    && st'.products == st.products && st'.contexts == st.contexts
  }

  // ---------- Every single write has the effect it should ----------

  lemma RestaurantWrite(st: Store, k: DayKey, change: Change)
    ensures var st' := Apply(st, ToRestaurant(k, change));
            && st' == st.(restaurants := st'.restaurants)
            && DayRowGrew(st.restaurants, st'.restaurants, k.id, k.day,
                          if change.Placed? then Some(change.currency) else None, Gained(change))
  {
  }

  lemma BranchWrite(st: Store, k: DayKey, change: Change)
    ensures var st' := Apply(st, ToBranch(k, change));
            && st' == st.(branches := st'.branches)
            && DayRowGrew(st.branches, st'.branches, k.id, k.day,
                          if change.Placed? then Some(change.currency) else None, Gained(change))
  {
  }

  lemma PlatformWrite(st: Store, k: PlatformKey, change: Change)
    ensures var st' := Apply(st, ToPlatform(k, change));
            && st' == st.(platform := st'.platform)
            && PlatformRowGrew(st.platform, st'.platform, k.day, k.currency, Gained(change), 0, 0)
  {
  }

  lemma PaymentWrite(st: Store, k: PlatformKey, amount: int)
    ensures var st' := Apply(st, ToPayments(k, amount));
            && st' == st.(platform := st'.platform)
            && PlatformRowGrew(st.platform, st'.platform, k.day, k.currency, Tally(0, 0, 0, 0, 0), 1, amount)
  {
  }

  lemma PaymentWriteCounts(st: Store, currency: string, amount: int, completedAt: Instant)
    ensures PaymentCounted(st, Apply(st, ToPayments(PlatformKey(UtcDay(completedAt), currency), amount)), currency,
            amount,
                           completedAt)
  {
    PaymentWrite(st, PlatformKey(UtcDay(completedAt), currency), amount);
  }

  function Gained(change: Change): Tally {
    match change
    case Placed(_, total) => Tally(1, total, 0, 0, 0)
    case Delivered(ms) => Tally(0, 0, ms, 1, 0)
    case Rejected => Tally(0, 0, 0, 0, 1)
  }

  lemma LineWrite(st: Store, branch: int, day: Day, currency: string, front: seq<Item>, i: Item)
    ensures var mid, end := ApplyAll(st, ItemWrites(branch, day, currency, front)),
                            ApplyAll(st, ItemWrites(branch, day, currency, front + [i]));
            var k := ProductKey(branch, i.product, day);
            var row := if k in mid.products then mid.products[k] else ProductRow("", 0, 0);
            end == mid.(products :=
                          mid.products[k := ProductRow(currency, row.quantity + i.quantity, row.revenue + i.lineTotal)])
  {
    var ws := ItemWrites(branch, day, currency, front + [i]);
    assert ws[..|front|] == ItemWrites(branch, day, currency, front);
    assert ws == ws[..|front|] + [ws[|front|]];
    ApplyMore(st, ws[..|front|], ws[|front|]);
  }

  ghost predicate LinesGrew(st: Store, st': Store, branch: int, day: Day, currency: string, items: seq<Item>) {
    st' == st.(products := st'.products) && ProductRowsGrew(st.products, st'.products, branch, day, currency, items)
  }

  lemma NoLines(st: Store, branch: int, day: Day, currency: string)
    ensures LinesGrew(st, ApplyAll(st, ItemWrites(branch, day, currency, [])), branch, day, currency, [])
  {
    assert ItemWrites(branch, day, currency, []) == [];
  }

  lemma LineMore(st: Store, branch: int, day: Day, currency: string, front: seq<Item>, i: Item)
    requires LinesGrew(st, ApplyAll(st, ItemWrites(branch, day, currency, front)), branch, day, currency, front)
    ensures LinesGrew(st, ApplyAll(st, ItemWrites(branch, day, currency, front + [i])), branch, day, currency,
            front + [i])
  {
    LineWrite(st, branch, day, currency, front, i);
    var mid := ApplyAll(st, ItemWrites(branch, day, currency, front));
    var end := ApplyAll(st, ItemWrites(branch, day, currency, front + [i]));
    OneProductMore(st.products, mid.products, end.products, branch, day, currency, front, i);
  }

  // A whole bulk call: equal products of one order add up.
  lemma {:induction false} ProductWrites(st: Store, branch: int, day: Day, currency: string, items: seq<Item>)
    ensures LinesGrew(st, ApplyAll(st, ItemWrites(branch, day, currency, items)), branch, day, currency, items)
  {
    if items == [] {
      NoLines(st, branch, day, currency);
    } else {
      var front, i := items[..|items| - 1], items[|items| - 1];
      ProductWrites(st, branch, day, currency, front);
      LineMore(st, branch, day, currency, front, i);
      assert items == front + [i];
    }
  }

  lemma OneProductMore(before: map<ProductKey, ProductRow>, mid: map<ProductKey, ProductRow>,
                       after: map<ProductKey, ProductRow>, branch: int, day: Day, currency: string,
                       front: seq<Item>, i: Item)
    requires ProductRowsGrew(before, mid, branch, day, currency, front)
    requires var k := ProductKey(branch, i.product, day);
             var row := if k in mid then mid[k] else ProductRow("", 0, 0);
             after == mid[k := ProductRow(currency, row.quantity + i.quantity, row.revenue + i.lineTotal)]
    ensures ProductRowsGrew(before, after, branch, day, currency, front + [i])
  {
    var items := front + [i];
    assert forall x :: x in items <==> x in front || x == i;
    forall x | x in items ensures ProductRowGrew(before, after, ProductKey(branch, x.product, day), currency, items) {
      SumAppend(front, i, QuantityOf(x.product));
      SumAppend(front, i, LineTotalOf(x.product));
      if x in front { assert ProductRowGrew(before, mid, ProductKey(branch, x.product, day), currency, front); }
      if x.product == i.product && !exists y :: y in front && y.product == i.product {
        NoneOfProduct(front, i.product);
      } else if x !in front {
        var y :| y in front && y.product == i.product;
        assert ProductRowGrew(before, mid, ProductKey(branch, y.product, day), currency, front);
      }
    }
  }

  lemma {:induction false} NoneOfProduct(items: seq<Item>, product: int)
    requires forall i :: i in items ==> i.product != product
    ensures Sum(items, QuantityOf(product)) == 0 && Sum(items, LineTotalOf(product)) == 0
  {
    if items != [] {
      assert items[|items| - 1] in items;
      NoneOfProduct(items[..|items| - 1], product);
    }
  }
}
