// Laws that relate the counters of different collections after any history of
// handler runs without store failures, causal or not.
module Laws {
  import opened Events
  import opened Sums
  import opened Aggregates
  import opened Runs

  // ---------- Conservation across collections ----------

  function DaysIn(days: Day -> bool): DayKey -> bool { (k: DayKey) => days(k.day) }
  function LinesIn(days: Day -> bool): ProductKey -> bool { (k: ProductKey) => days(k.day) }
  function DatesIn(days: Day -> bool): PlatformKey -> bool { (k: PlatformKey) => days(k.day) }

  predicate MissedRejection(a: Applied, days: Day -> bool) {
    a.event.OrderRejected? && a.found.None? && days(UtcDay(a.event.occurredAt))
  }

  function MissedOn(days: Day -> bool): Applied -> bool {
    (a: Applied) => MissedRejection(a, days)
  }

  function LinesOf(days: Day -> bool, c: ProductCounter): Event -> int {
    (e: Event) =>
      if e.OrderPlaced? && days(UtcDay(e.placedAt)) then Sum(e.items, LineValue(c)) else 0
  }

  function LineValue(c: ProductCounter): Item -> int {
    (i: Item) => if c.Quantity? then i.quantity else i.lineTotal
  }

  lemma SameShares(h: seq<Event>, g1: Gauge, g2: Gauge)
    requires forall a :: Share(a, g1) == Share(a, g2)
    ensures Read(RunAll(h), g1) == Read(RunAll(h), g2)
  {
    RunReads(h, g1);
    RunReads(h, g2);
    SumEqual(Trail(h), ShareOf(g1), Trail(h), ShareOf(g2));
  }

  lemma OrderShares(a: Applied, days: Day -> bool, c: Counter)
    requires c.Orders? || c.Revenue? || c.DeliveryMsSum? || c.DeliveryMsCount?
    ensures Share(a, OverRestaurants(DaysIn(days), c)) == Share(a, OverBranches(DaysIn(days), c))
    ensures Share(a, OverBranches(DaysIn(days), c)) == Share(a, OverPlatform(DatesIn(days), c))
  {
    match a.event
    case OrderPlaced(_, _, _, _, _, _, _) =>
    case OrderDelivered(_, _, _, _, _) =>
    case OrderRejected(_, _, _, _) =>
    case PaymentCompleted(_, _, _) =>
  }

  // Over any set of days: orders, revenue and delivery counters add up to the same
  // totals over restaurants, over branches and over platform currencies.
  lemma OrderTotalsAgree(h: seq<Event>, days: Day -> bool, c: Counter)
    requires c.Orders? || c.Revenue? || c.DeliveryMsSum? || c.DeliveryMsCount?
    ensures Read(RunAll(h), OverRestaurants(DaysIn(days), c)) == Read(RunAll(h), OverBranches(DaysIn(days), c))
    ensures Read(RunAll(h), OverBranches(DaysIn(days), c)) == Read(RunAll(h), OverPlatform(DatesIn(days), c))
  {
    var r, b, p := OverRestaurants(DaysIn(days), c), OverBranches(DaysIn(days), c), OverPlatform(DatesIn(days), c);
    forall a ensures Share(a, r) == Share(a, b) && Share(a, b) == Share(a, p) { OrderShares(a, days, c); }
    SameShares(h, r, b);
    SameShares(h, b, p);
  }

  lemma RejectionShares(a: Applied, days: Day -> bool)
    ensures Share(a, OverRestaurants(DaysIn(days), Failed)) == Share(a, OverBranches(DaysIn(days), Failed))
    ensures Share(a, OverRestaurants(DaysIn(days), Failed)) ==
            Share(a, OverPlatform(DatesIn(days), Failed)) + if MissedRejection(a, days) then 1 else 0
  {
    match a.event
    case OrderPlaced(_, _, _, _, _, _, _) =>
    case OrderDelivered(_, _, _, _, _) =>
    case OrderRejected(_, _, _, _) =>
    case PaymentCompleted(_, _, _) =>
  }

  // Rejections agree between restaurants and branches; the platform lacks exactly
  // those that found no context row.
  lemma RejectionTotals(h: seq<Event>, days: Day -> bool)
    ensures Read(RunAll(h), OverRestaurants(DaysIn(days), Failed))
            == Read(RunAll(h), OverBranches(DaysIn(days), Failed))
    ensures Read(RunAll(h), OverRestaurants(DaysIn(days), Failed)) ==
            Read(RunAll(h), OverPlatform(DatesIn(days), Failed)) + Count(Trail(h), MissedOn(days))
  {
    var r, b, p := OverRestaurants(DaysIn(days), Failed), OverBranches(DaysIn(days), Failed),
      OverPlatform(DatesIn(days), Failed);
    forall a
      ensures Share(a, r) == Share(a, b)
      ensures ShareOf(r)(a) == ShareOf(p)(a) + Indicator(MissedOn(days))(a)
    {
      RejectionShares(a, days);
    }
    SameShares(h, r, b);
    RunReads(h, r);
    RunReads(h, p);
    SumOfTwo(Trail(h), ShareOf(r), ShareOf(p), Indicator(MissedOn(days)));
  }

  lemma {:induction false} SumOfTwo<T>(s: seq<T>, f: T -> int, g: T -> int, k: T -> int)
    requires forall x :: x in s ==> f(x) == g(x) + k(x)
    ensures Sum(s, f) == Sum(s, g) + Sum(s, k)
  {
    if s != [] {
      var n := |s| - 1;
      assert s[n] in s;
      SumOfTwo(s[..n], f, g, k);
    }
  }

  // Product rows hold exactly the line items of the orders placed.
  lemma ProductTotals(h: seq<Event>, days: Day -> bool, c: ProductCounter)
    ensures Read(RunAll(h), OverProducts(LinesIn(days), c)) == Sum(h, LinesOf(days, c))
  {
    var g := OverProducts(LinesIn(days), c);
    RunReads(h, g);
    TrailEntries(h);
    forall i | 0 <= i < |h| ensures ShareOf(g)(Trail(h)[i]) == LinesOf(days, c)(h[i]) {
      if h[i].OrderPlaced? {
        var day := UtcDay(h[i].placedAt);
        if days(day) {
          SumEqual(h[i].items, LineShare(g, h[i].branch, day), h[i].items, LineValue(c));
        } else {
          ZeroSum(h[i].items, LineShare(g, h[i].branch, day));
        }
      }
    }
    SumEqual(Trail(h), ShareOf(g), h, LinesOf(days, c));
  }

  // Payments feed nothing but the two payment counters of the platform rows.
  lemma PaymentsStayOnPlatform(h: seq<Event>, e: Event, g: Gauge)
    requires e.PaymentCompleted?
    requires Read(RunAll(h + [e]), g) != Read(RunAll(h), g)
    ensures g.OverPlatform? || (g.At? && g.cell.PlatformCell?)
    ensures CounterOf(g).Payments? || CounterOf(g).PaymentsAmount?
  {
    RunAppend(h, e, g);
  }

  lemma RunAppend(h: seq<Event>, e: Event, g: Gauge)
    ensures Read(RunAll(h + [e]), g) == Read(RunAll(h), g) + Share(Applied(e, Lookup(ContextsAfter(h), e)), g)
  {
    assert (h + [e])[..|h|] == h;
    RunContexts(h);
    HandleReads(RunAll(h), e, g);
  }
}
