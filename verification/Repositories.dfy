// The collections as the repositories keep them: one mutable map of rows each,
// keyed by the collection's unique index. Every operation is told its fate.
module Repositories {
  import opened Events
  import opened Aggregates
  import opened Queries

  function Kept<T>(before: T, after: T, fate: Fate): T {
    if fate.Lost? then before else after
  }

  function BumpedDay(rows: map<DayKey, DayRow>, k: DayKey, change: Change): map<DayKey, DayRow> {
    rows[k := BumpDay(RowAt(rows, k, NEW_DAY_ROW), change)]
  }

  class RestaurantDayRepo {
    var rows: map<DayKey, DayRow>

    constructor ()
      ensures rows == map[]
    {
      rows := map[];
    }

    method Upsert(restaurant: int, day: Day, change: Change, fate: Fate) returns (ok: bool)
      modifies this
      ensures ok == fate.Done?
      ensures rows == Kept(old(rows), BumpedDay(old(rows), DayKey(restaurant, day), change), fate)
    {
      var k := DayKey(restaurant, day);
      if !fate.Lost? {
        var row := if k in rows then rows[k] else NEW_DAY_ROW;
        rows := rows[k := BumpDay(row, change)];
      }
      ok := fate.Done?;
    }

    method ApplyOrderPlaced(e: Event, fate: Fate) returns (ok: bool)
      requires e.OrderPlaced?
      modifies this
      ensures ok == fate.Done?
      ensures rows == Kept(old(rows), BumpedDay(old(rows), DayKey(e.restaurant, UtcDay(e.placedAt)),
                Placed(e.currency, e.total)), fate)
    {
      ok := Upsert(e.restaurant, UtcDay(e.placedAt), Placed(e.currency, e.total), fate);
    }

    method ApplyOrderDelivered(restaurant: int, day: Day, ms: int, fate: Fate) returns (ok: bool)
      modifies this
      ensures ok == fate.Done?
      ensures rows == Kept(old(rows), BumpedDay(old(rows), DayKey(restaurant, day), Delivered(ms)), fate)
    {
      ok := Upsert(restaurant, day, Delivered(ms), fate);
    }

    method ApplyOrderRejected(restaurant: int, day: Day, fate: Fate) returns (ok: bool)
      modifies this
      ensures ok == fate.Done?
      ensures rows == Kept(old(rows), BumpedDay(old(rows), DayKey(restaurant, day), Rejected), fate)
    {
      ok := Upsert(restaurant, day, Rejected, fate);
    }

    method FindByDateRange(restaurant: int, from: Day, to: Day, fate: Fate)
      returns (ok: bool, out: seq<Found<DayKey, DayRow>>)
      ensures ok == fate.Done?
      ensures ok ==> Answers(out, rows, DaysOf(restaurant, from, to), DayLess)
      ensures ok ==> DaysInRange(out, rows, restaurant, from, to)
    {
      ok, out := fate.Done?, [];
      if ok {
        out := Find(rows, DaysOf(restaurant, from, to), DayLess);
        DaysAnswered(out, rows, restaurant, from, to);
      }
    }

    method CountActiveInRange(from: Day, to: Day, fate: Fate) returns (ok: bool, count: nat)
      ensures ok == fate.Done?
      ensures ok ==> count == |ActiveIds(rows, from, to)|
      ensures ok ==> count == |set k | k in rows && from <= k.day <= to && rows[k].tally.orders > 0 :: k.id|
    {
      ok, count := fate.Done?, 0;
      if ok {
        var matched := set k | k in rows && from <= k.day <= to && rows[k].tally.orders > 0;
        var groups := set k | k in matched :: k.id;
        assert groups == ActiveIds(rows, from, to);
        assert groups == set k | k in rows && from <= k.day <= to && rows[k].tally.orders > 0 :: k.id;
        count := |groups|;
      }
    }
  }

  class BranchDayRepo {
    var rows: map<DayKey, DayRow>

    constructor ()
      ensures rows == map[]
    {
      rows := map[];
    }

    method Upsert(branch: int, day: Day, change: Change, fate: Fate) returns (ok: bool)
      modifies this
      ensures ok == fate.Done?
      ensures rows == Kept(old(rows), BumpedDay(old(rows), DayKey(branch, day), change), fate)
    {
      var k := DayKey(branch, day);
      if !fate.Lost? {
        var row := if k in rows then rows[k] else NEW_DAY_ROW;
        rows := rows[k := BumpDay(row, change)];
      }
      ok := fate.Done?;
    }

    method ApplyOrderPlaced(branch: int, day: Day, currency: string, total: int, fate: Fate) returns (ok: bool)
      modifies this
      ensures ok == fate.Done?
      ensures rows == Kept(old(rows), BumpedDay(old(rows), DayKey(branch, day), Placed(currency, total)), fate)
    {
      ok := Upsert(branch, day, Placed(currency, total), fate);
    }

    method ApplyOrderDelivered(branch: int, day: Day, ms: int, fate: Fate) returns (ok: bool)
      modifies this
      ensures ok == fate.Done?
      ensures rows == Kept(old(rows), BumpedDay(old(rows), DayKey(branch, day), Delivered(ms)), fate)
    {
      ok := Upsert(branch, day, Delivered(ms), fate);
    }

    method ApplyOrderRejected(branch: int, day: Day, fate: Fate) returns (ok: bool)
      modifies this
      ensures ok == fate.Done?
      ensures rows == Kept(old(rows), BumpedDay(old(rows), DayKey(branch, day), Rejected), fate)
    {
      ok := Upsert(branch, day, Rejected, fate);
    }

    method FindByDateRange(branch: int, from: Day, to: Day, fate: Fate)
      returns (ok: bool, out: seq<Found<DayKey, DayRow>>)
      ensures ok == fate.Done?
      ensures ok ==> Answers(out, rows, DaysOf(branch, from, to), DayLess)
      ensures ok ==> DaysInRange(out, rows, branch, from, to)
    {
      ok, out := fate.Done?, [];
      if ok {
        out := Find(rows, DaysOf(branch, from, to), DayLess);
        DaysAnswered(out, rows, branch, from, to);
      }
    }
  }

  function BumpedProduct(rows: map<ProductKey, ProductRow>, w: Write): map<ProductKey, ProductRow>
    requires w.ToProduct?
  {
    var row := RowAt(rows, w.productKey, NEW_PRODUCT_ROW);
    rows[w.productKey := ProductRow(w.currency, row.quantity + w.quantity, row.revenue + w.lineTotal)]
  }

  // The rows after a bulk call whose i-th model met fate net(from + i).
  function Bulk(rows: map<ProductKey, ProductRow>, models: seq<Write>, net: nat -> Fate,
                from: nat): map<ProductKey, ProductRow>
    requires forall w :: w in models ==> w.ToProduct?
  {
    if models == [] then rows
    else
      var n := |models| - 1;
      var before := Bulk(rows, models[..n], net, from);
      Kept(before, BumpedProduct(before, models[n]), net(from + n))
  }

  lemma BulkNext(rows: map<ProductKey, ProductRow>, models: seq<Write>, net: nat -> Fate, from: nat, i: nat)
    requires (forall w :: w in models ==> w.ToProduct?) && i < |models|
    ensures var before := Bulk(rows, models[..i], net, from);
            Bulk(rows, models[..i + 1], net, from) == Kept(before, BumpedProduct(before, models[i]), net(from + i))
  {
    assert models[..i + 1][..i] == models[..i];
  }

  // A call succeeds if all of its n writes do.
  ghost predicate AllDone(n: nat, net: nat -> Fate, from: nat) {
    forall i :: from <= i < from + n ==> net(i).Done?
  }

  class ProductDayRepo {
    var rows: map<ProductKey, ProductRow>

    constructor ()
      ensures rows == map[]
    {
      rows := map[];
    }

    // An unordered bulk write: a failed model does not keep the others from landing.
    method BulkWrite(models: seq<Write>, net: nat -> Fate, from: nat) returns (ok: bool)
      requires forall w :: w in models ==> w.ToProduct?
      modifies this
      ensures ok <==> AllDone(|models|, net, from)
      ensures rows == Bulk(old(rows), models, net, from)
    {
      ok := true;
      var i := 0;
      while i < |models|
        invariant 0 <= i <= |models|
        invariant ok <==> AllDone(i, net, from)
        invariant rows == Bulk(old(rows), models[..i], net, from)
      {
        var w := models[i];
        assert w in models;
        BulkNext(old(rows), models, net, from, i);
        if !net(from + i).Lost? {
          var row := if w.productKey in rows then rows[w.productKey] else NEW_PRODUCT_ROW;
          rows := rows[w.productKey := ProductRow(w.currency, row.quantity + w.quantity, row.revenue + w.lineTotal)];
        }
        if !net(from + i).Done? { ok := false; }
        i := i + 1;
      }
      assert models[..i] == models;
    }

    method ApplyOrderPlacedItems(branch: int, day: Day, currency: string, items: seq<Item>, net: nat -> Fate, from: nat)
      returns (ok: bool)
      modifies this
      ensures ok <==> AllDone(|items|, net, from)
      ensures rows == Bulk(old(rows), ItemWrites(branch, day, currency, items), net, from)
    {
      ghost var all := ItemWrites(branch, day, currency, items);
      if |items| == 0 {
        assert all == [];
        return true;
      }
      var models: seq<Write> := [];
      var i := 0;
      while i < |items|
        invariant 0 <= i <= |items|
        invariant models == ItemWrites(branch, day, currency, items)[..i]
        invariant forall w :: w in models ==> w.ToProduct?
      {
        models := models + [ToProduct(ProductKey(branch, items[i].product, day), currency, items[i].quantity,
            items[i].lineTotal, i)];
        i := i + 1;
      }
      assert models == all;
      ok := BulkWrite(models, net, from);
    }

    method FindByDateRange(branch: int, product: int, from: Day, to: Day, fate: Fate)
      returns (ok: bool, out: seq<Found<ProductKey, ProductRow>>)
      ensures ok == fate.Done?
      ensures ok ==> Answers(out, rows, ProductDaysOf(branch, product, from, to), ProductLess)
      ensures ok ==> ProductDaysInRange(out, rows, branch, product, from, to)
    {
      ok, out := fate.Done?, [];
      if ok {
        out := Find(rows, ProductDaysOf(branch, product, from, to), ProductLess);
        ProductDaysAnswered(out, rows, branch, product, from, to);
      }
    }
  }

  function BumpedPlatform(rows: map<PlatformKey, PlatformRow>, k: PlatformKey,
                          change: Change): map<PlatformKey, PlatformRow> {
    var row := RowAt(rows, k, NEW_PLATFORM_ROW);
    rows[k := row.(tally := Bump(row.tally, change))]
  }

  function PaidPlatform(rows: map<PlatformKey, PlatformRow>, k: PlatformKey,
                        amount: int): map<PlatformKey, PlatformRow> {
    var row := RowAt(rows, k, NEW_PLATFORM_ROW);
    rows[k := row.(payments := row.payments + 1, paymentsAmount := row.paymentsAmount + amount)]
  }

  class PlatformDayRepo {
    var rows: map<PlatformKey, PlatformRow>

    constructor ()
      ensures rows == map[]
    {
      rows := map[];
    }

    method Upsert(day: Day, currency: string, change: Change, fate: Fate) returns (ok: bool)
      modifies this
      ensures ok == fate.Done?
      ensures rows == Kept(old(rows), BumpedPlatform(old(rows), PlatformKey(day, currency), change), fate)
    {
      var k := PlatformKey(day, currency);
      if !fate.Lost? {
        var row := if k in rows then rows[k] else NEW_PLATFORM_ROW;
        rows := rows[k := row.(tally := Bump(row.tally, change))];
      }
      ok := fate.Done?;
    }

    method ApplyOrderPlaced(day: Day, currency: string, total: int, fate: Fate) returns (ok: bool)
      modifies this
      ensures ok == fate.Done?
      ensures rows == Kept(old(rows), BumpedPlatform(old(rows), PlatformKey(day, currency), Placed(currency, total)),
                fate)
    {
      ok := Upsert(day, currency, Placed(currency, total), fate);
    }

    method ApplyOrderDelivered(day: Day, currency: string, ms: int, fate: Fate) returns (ok: bool)
      modifies this
      ensures ok == fate.Done?
      ensures rows == Kept(old(rows), BumpedPlatform(old(rows), PlatformKey(day, currency), Delivered(ms)), fate)
    {
      ok := Upsert(day, currency, Delivered(ms), fate);
    }

    method ApplyOrderRejected(day: Day, currency: string, fate: Fate) returns (ok: bool)
      modifies this
      ensures ok == fate.Done?
      ensures rows == Kept(old(rows), BumpedPlatform(old(rows), PlatformKey(day, currency), Rejected), fate)
    {
      ok := Upsert(day, currency, Rejected, fate);
    }

    method ApplyPaymentCompleted(day: Day, currency: string, amount: int, fate: Fate) returns (ok: bool)
      modifies this
      ensures ok == fate.Done?
      ensures rows == Kept(old(rows), PaidPlatform(old(rows), PlatformKey(day, currency), amount), fate)
    {
      var k := PlatformKey(day, currency);
      if !fate.Lost? {
        var row := if k in rows then rows[k] else NEW_PLATFORM_ROW;
        rows := rows[k := row.(payments := row.payments + 1, paymentsAmount := row.paymentsAmount + amount)];
      }
      ok := fate.Done?;
    }

    method FindByDateRange(from: Day, to: Day, fate: Fate) returns (ok: bool, out: seq<Found<PlatformKey, PlatformRow>>)
      ensures ok == fate.Done?
      ensures ok ==> Answers(out, rows, DatesWithin(from, to), PlatformLess)
      ensures ok ==> DatesInRange(out, rows, from, to)
    {
      PlatformKeysAreOrdered();
      ok, out := fate.Done?, [];
      if ok {
        out := Find(rows, DatesWithin(from, to), PlatformLess);
        DatesAnswered(out, rows, from, to);
      }
    }

    method SummaryByCurrency(from: Day, to: Day, fate: Fate) returns (ok: bool, out: seq<Found<string, PlatformRow>>)
      ensures ok == fate.Done?
      ensures ok ==> Summarises(out, rows, from, to)
      ensures ok ==> SummaryInRange(out, rows, from, to)
    {
      ok, out := fate.Done?, [];
      if ok {
        out := Summarise(rows, from, to);
        SummaryAnswered(out, rows, from, to);
      }
    }
  }

  class OrderContextRepo {
    var rows: map<string, OrderContext>

    constructor ()
      ensures rows == map[]
    {
      rows := map[];
    }

    method Save(orderId: string, currency: string, placedAt: Instant, fate: Fate) returns (ok: bool)
      modifies this
      ensures ok == fate.Done?
      ensures rows == Kept(old(rows), old(rows)[orderId := OrderContext(currency, placedAt)], fate)
    {
      if !fate.Lost? { rows := rows[orderId := OrderContext(currency, placedAt)]; }
      ok := fate.Done?;
    }

    // A miss is an answer, not an error.
    method Find(orderId: string, fate: Fate) returns (ok: bool, found: Option<OrderContext>)
      ensures ok == fate.Done?
      ensures ok ==> (found == if orderId in rows then Some(rows[orderId]) else None)
    {
      ok := fate.Done?;
      found := if ok && orderId in rows then Some(rows[orderId]) else None;
    }
  }

  // The event_ids collection: a unique index turns a second insert into "not fresh".
  class EventIdsRepo {
    var rows: set<string>

    constructor ()
      ensures rows == {}
    {
      rows := {};
    }

    method MarkSeen(id: string, fate: Fate) returns (isNew: bool, ok: bool)
      modifies this
      ensures ok == fate.Done?
      ensures ok ==> isNew == (id !in old(rows))
      ensures !ok ==> !isNew
      ensures rows == Kept(old(rows), old(rows) + {id}, fate)
    {
      ok := fate.Done?;
      isNew := ok && id !in rows;
      if !fate.Lost? { rows := rows + {id}; }
    }

    method Unmark(id: string, fate: Fate) returns (ok: bool)
      modifies this
      ensures ok == fate.Done?
      ensures rows == Kept(old(rows), old(rows) - {id}, fate)
    {
      if !fate.Lost? { rows := rows - {id}; }
      ok := fate.Done?;
    }
  }
}
