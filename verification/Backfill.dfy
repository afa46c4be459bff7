// The backfill job: page through order history and feed each order to the service
// once, with event_ids rows of its own namespace.
module Backfill {
  import opened Events
  import opened Folds
  import opened Sums
  import opened Aggregates
  import opened Repositories
  import opened Service
  import opened Protocol
  import opened Consumer
  import opened Effects

  // ---------- Order history ----------

  // placedAt is None if it is not RFC 3339.
  datatype Order = Order(orderId: string, restaurant: int, branch: int, currency: string, total: int,
                         items: seq<Item>, placedAt: Option<Instant>)

  datatype Page = Page(orders: seq<Order>, hasMore: bool, next: Option<string>)

  predicate Last(page: Page) {
    !page.hasMore || page.next.None?
  }

  // The answers to the fetches in order, None for one that failed; a fetch beyond
  // them fails too. Fetched are the orders on the pages up to the last or the first
  // failure, AllFetched says that there was a last page.
  function Fetched(answers: seq<Option<Page>>): seq<Order> {
    if answers == [] || answers[0].None? then []
    else answers[0].value.orders + if Last(answers[0].value) then [] else Fetched(answers[1..])
  }

  predicate AllFetched(answers: seq<Option<Page>>) {
    && answers != [] && answers[0].Some?
    && (Last(answers[0].value) || AllFetched(answers[1..]))
  }

  // The pages asked for, written out: each but the last one asked for has more and
  // names the next cursor, the first is asked for with none.
  predicate PagesOn(asked: seq<string>, answers: seq<Option<Page>>) {
    && asked != [] && asked[0] == ""
    && forall i :: 0 <= i < |asked| - 1 ==>
         i < |answers| && answers[i].Some? && answers[i].value.hasMore && answers[i].value.next == Some(asked[i + 1])
  }

  // The last page asked for came, and has no more or names no cursor.
  predicate EndedAt(asked: seq<string>, answers: seq<Option<Page>>) {
    && 0 < |asked| <= |answers| && answers[|asked| - 1].Some?
    && (!answers[|asked| - 1].value.hasMore || answers[|asked| - 1].value.next.None?)
  }

  // It did not come.
  predicate MissingAt(asked: seq<string>, answers: seq<Option<Page>>) {
    asked != [] && (|asked| > |answers| || answers[|asked| - 1].None?)
  }

  function PageSize(): Option<Page> -> int {
    (a: Option<Page>) => if a.Some? then |a.value.orders| else 0
  }

  // The orders on the first n pages, in order.
  function OrdersOn(answers: seq<Option<Page>>, n: nat): seq<Order>
    requires n <= |answers|
  {
    if n == 0 then []
    else OrdersOn(answers, n - 1) + if answers[n - 1].Some? then answers[n - 1].value.orders else []
  }

  lemma NextCursor(asked: seq<string>, answers: seq<Option<Page>>, cursor: string)
    requires PagesOn(asked, answers) && |asked| <= |answers| && answers[|asked| - 1].Some?
    requires answers[|asked| - 1].value.hasMore && answers[|asked| - 1].value.next == Some(cursor)
    ensures PagesOn(asked + [cursor], answers)
  {
  }

  lemma NextPage(answers: seq<Option<Page>>, k: nat)
    requires k < |answers| && answers[k].Some?
    ensures OrdersOn(answers, k + 1) == OrdersOn(answers, k) + answers[k].value.orders
    ensures Sum(answers[..k + 1], PageSize()) == Sum(answers[..k], PageSize()) + |answers[k].value.orders|
  {
    assert answers[..k + 1] == answers[..k] + [answers[k]];
    SumAppend(answers[..k], answers[k], PageSize());
  }

  // ---------- What an order does ----------

  const PREFIX := "backfill:order.placed:"

  function DedupeId(orderId: string): EventId {
    PREFIX + orderId
  }

  function PlacedEvent(o: Order): Event
    requires o.placedAt.Some?
  {
    OrderPlaced(o.orderId, o.restaurant, o.branch, o.currency, o.total, o.placedAt.value, o.items)
  }

  // An order is handled as a message of the consumer would be.
  function MessageFor(o: Order): Message {
    Envelope(DedupeId(o.orderId), if o.placedAt.None? then Undecodable else Carries(PlacedEvent(o)))
  }

  datatype Ledger = Ledger(applied: nat, skippedDup: nat, failed: nat)

  datatype Job = Job(rows: set<EventId>, store: Store, ledger: Ledger, fatal: bool)

  // Except that a failed dedupe check ends the job.
  ghost function One(j: Job, o: Order, fates: Fates): Job {
    if j.fatal then j
    else
      var r := Receive(j.rows, j.store, MessageFor(o), fates);
      if r.verdict == Nacked(true) then j.(rows := r.rows, fatal := true)
      else
        Job(r.rows, r.store,
            if r.verdict.Nacked? then j.ledger.(failed := j.ledger.failed + 1)
            else if DedupeId(o.orderId) in j.rows then j.ledger.(skippedDup := j.ledger.skippedDup + 1)
            else j.ledger.(applied := j.ledger.applied + 1),
            false)
  }

  // What one order comes to, field by field: fatal if its id cannot be checked, a
  // duplicate if it is marked, applied when it has been counted, otherwise failed.
  ghost predicate OrderSettled(j: Job, o: Order, fates: Fates, j': Job) {
    var key, l, l' := "backfill:order.placed:" + o.orderId, j.ledger, j'.ledger;
    if !fates.mark.Done? then
      j' == Job(if fates.mark.Lost? then j.rows else j.rows + {key}, j.store, l, true)
    else if key in j.rows then j' == Job(j.rows, j.store, Ledger(l.applied, l.skippedDup + 1, l.failed), false)
    else
      && !j'.fatal && l'.skippedDup == l.skippedDup
      && (o.placedAt.Some? && (forall i: nat :: fates.net(i).Done?) ==> l'.applied == l.applied + 1)
      && if l'.applied == l.applied + 1 then
           && l'.failed == l.failed && j'.rows == j.rows + {key} && o.placedAt.Some?
           && PlacedCounted(j.store, j'.store, o.orderId, o.restaurant, o.branch, o.currency, o.total, o.placedAt.value,
               o.items)
         else
           && l'.applied == l.applied && l'.failed == l.failed + 1
           && j'.rows == (if fates.unmark.Lost? then j.rows + {key} else j.rows - {key})
           && (o.placedAt.None? ==> j'.store == j.store)
  }

  lemma OneBackfills(j: Job, o: Order, fates: Fates)
    requires !j.fatal
    ensures OrderSettled(j, o, fates, One(j, o, fates))
  {
    if o.placedAt.Some? { PlacedOutcome(j.store, PlacedEvent(o), fates.net); }
    assert j.rows + {DedupeId(o.orderId)} - {DedupeId(o.orderId)} == j.rows - {DedupeId(o.orderId)}
           || DedupeId(o.orderId) in j.rows;
  }

  ghost function OrderSteps(fates: nat -> Fates): (Job, Order, nat) -> Job {
    (j: Job, o: Order, k: nat) => One(j, o, fates(k))
  }

  // The job over a list of orders, the k-th with the k-th fates.
  ghost function All(j: Job, orders: seq<Order>, from: nat, fates: nat -> Fates): Job {
    NumberedFold(j, orders, from, OrderSteps(fates))
  }

  function Begin(rows: set<EventId>, st: Store): Job {
    Job(rows, st, Ledger(0, 0, 0), false)
  }

  lemma AllConcat(j: Job, a: seq<Order>, b: seq<Order>, from: nat, fates: nat -> Fates)
    ensures All(j, a + b, from, fates) == All(All(j, a, from, fates), b, from + |a|, fates)
  {
    NumberedFoldConcat(j, a, b, from, OrderSteps(fates));
  }

  lemma FatalSticks(j: Job, orders: seq<Order>, from: nat, fates: nat -> Fates)
    requires j.fatal
    ensures All(j, orders, from, fates) == j
  {
    var step := OrderSteps(fates);
    forall o, k: nat ensures step(j, o, k) == j { assert step(j, o, k) == One(j, o, fates(k)); }
    NumberedFoldStuck(j, orders, from, step);
  }

  lemma FatalPage(j: Job, seen: seq<Order>, rest: seq<Order>, fates: nat -> Fates)
    requires All(j, seen, 0, fates).fatal
    ensures All(j, seen + rest, 0, fates) == All(j, seen, 0, fates)
  {
    AllConcat(j, seen, rest, 0, fates);
    FatalSticks(All(j, seen, 0, fates), rest, |seen|, fates);
  }

  lemma AllNext(j: Job, orders: seq<Order>, o: Order, from: nat, fates: nat -> Fates)
    ensures All(j, orders + [o], from, fates) == One(All(j, orders, from, fates), o, fates(from + |orders|))
  {
    NumberedFoldNext(j, orders, o, from, OrderSteps(fates));
  }

  function HandledCount(l: Ledger): nat {
    l.applied + l.skippedDup + l.failed
  }

  lemma OneBalances(j: Job, o: Order, fates: Fates)
    requires !One(j, o, fates).fatal
    ensures !j.fatal && HandledCount(One(j, o, fates).ledger) == HandledCount(j.ledger) + 1
  {
  }

  lemma NextBalances(j: Job, orders: seq<Order>, o: Order, from: nat, fates: nat -> Fates)
    requires !All(j, orders + [o], from, fates).fatal
    ensures !All(j, orders, from, fates).fatal
    ensures HandledCount(All(j, orders + [o], from, fates).ledger) ==
            HandledCount(All(j, orders, from, fates).ledger) + 1
  {
    AllNext(j, orders, o, from, fates);
    OneBalances(All(j, orders, from, fates), o, fates(from + |orders|));
  }

  // The ledger: every order handled is applied, skipped as a duplicate or failed.
  lemma {:induction false} LedgerBalances(j: Job, orders: seq<Order>, from: nat, fates: nat -> Fates)
    requires !All(j, orders, from, fates).fatal
    ensures HandledCount(All(j, orders, from, fates).ledger) == HandledCount(j.ledger) + |orders|
  {
    if orders != [] {
      var n := |orders| - 1;
      assert orders == orders[..n] + [orders[n]];
      NextBalances(j, orders[..n], orders[n], from, fates);
      LedgerBalances(j, orders[..n], from, fates);
    }
  }

  // ---------- The job ----------

  datatype Exit = Finished | SomeFailed | Fatal

  datatype Report = Report(pages: nat, fetched: nat, ledger: Ledger)

  lemma NextPages(answers: seq<Option<Page>>, k: nat, seen: seq<Order>) returns (rest: seq<Order>)
    requires k < |answers| && answers[k].Some? && Fetched(answers) == seen + Fetched(answers[k..])
    ensures Fetched(answers) == seen + answers[k].value.orders + rest
    ensures if Last(answers[k].value) then rest == [] && AllFetched(answers[k..])
            else rest == Fetched(answers[k + 1..]) && AllFetched(answers[k..]) == AllFetched(answers[k + 1..])
  {
    assert answers[k..][1..] == answers[k + 1..];
    rest := if Last(answers[k].value) then [] else Fetched(answers[k + 1..]);
  }

  class BackfillJob {
    const dedupe: EventIdsRepo
    const service: AnalyticsService
    const dryRun: bool

    constructor (d: EventIdsRepo, s: AnalyticsService, dry: bool)
      ensures dedupe == d && service == s && dryRun == dry
    {
      dedupe, service, dryRun := d, s, dry;
    }

    function Stores(): set<object> {
      {service.restaurantDays, service.branchDays, service.productDays, service.platformDays, service.orderContexts}
    }

    method ApplyOrder(o: Order, net: nat -> Fate) returns (ok: bool)
      requires o.placedAt.Some?
      modifies Stores()
      ensures Outcome(service.View(), ok) == Serve(old(service.View()), PlacedEvent(o), net)
    {
      var items: seq<Item> := [];
      for i := 0 to |o.items|
        invariant items == o.items[..i]
      {
        items := items + [Item(o.items[i].product, o.items[i].quantity, o.items[i].lineTotal)];
      }
      assert items == o.items;
      ok := service.OnOrderPlaced(OrderPlaced(o.orderId, o.restaurant, o.branch, o.currency, o.total, o.placedAt.value,
        items), net);
    }

    // One order outside a dry run.
    method BackfillOrder(o: Order, l: Ledger, fates: Fates) returns (l': Ledger, fatal: bool)
      modifies dedupe, Stores()
      ensures Job(dedupe.rows, service.View(), l', fatal)
              == One(Job(old(dedupe.rows), old(service.View()), l, false), o, fates)
      ensures OrderSettled(Job(old(dedupe.rows), old(service.View()), l, false), o, fates,
                         Job(dedupe.rows, service.View(), l', fatal))
    {
      OneBackfills(Job(dedupe.rows, service.View(), l, false), o, fates);
      l', fatal := TryOrder(o, l, fates);
    }

    method TryOrder(o: Order, l: Ledger, fates: Fates) returns (l': Ledger, fatal: bool)
      modifies dedupe, Stores()
      ensures Job(dedupe.rows, service.View(), l', fatal)
              == One(Job(old(dedupe.rows), old(service.View()), l, false), o, fates)
    {
      var key := "backfill:order.placed:" + o.orderId;
      var isNew, ok := dedupe.MarkSeen(key, fates.mark);
      if !ok { return l, true; }
      if !isNew { return l.(skippedDup := l.skippedDup + 1), false; }
      if o.placedAt.None? {
        var _ := dedupe.Unmark(key, fates.unmark);
        return l.(failed := l.failed + 1), false;
      }
      ok := ApplyOrder(o, fates.net);
      if !ok {
        var _ := dedupe.Unmark(key, fates.unmark);
        return l.(failed := l.failed + 1), false;
      }
      return l.(applied := l.applied + 1), false;
    }

    // The ledger l after the orders seen, from the stores at the beginning j: in a
    // dry run nothing has changed.
    ghost predicate Agrees(j: Job, seen: seq<Order>, fates: nat -> Fates, l: Ledger, fatal: bool)
      reads dedupe, Stores()
    {
      if dryRun then dedupe.rows == j.rows && service.View() == j.store && l == j.ledger && !fatal
      else Job(dedupe.rows, service.View(), l, fatal) == All(j, seen, 0, fates)
    }

    // One order more, after those seen.
    method TakeOrder(o: Order, l: Ledger, fates: nat -> Fates, ghost j: Job, ghost seen: seq<Order>, k: nat)
      returns (l': Ledger, fatal: bool)
      requires k == |seen| && Agrees(j, seen, fates, l, false)
      modifies dedupe, Stores()
      ensures Agrees(j, seen + [o], fates, l', fatal)
    {
      l', fatal := l, false;
      if dryRun { return; }
      AllNext(j, seen, o, 0, fates);
      l', fatal := BackfillOrder(o, l, fates(k));
    }

    // The orders of one page, after those seen on earlier pages; a dedupe failure
    // also ends the job for the rest.
    method BackfillPage(orders: seq<Order>, l: Ledger, fates: nat -> Fates, from: nat, ghost j: Job,
                        ghost seen: seq<Order>, ghost rest: seq<Order>)
      returns (l': Ledger, fatal: bool)
      requires from == |seen| && Agrees(j, seen, fates, l, false)
      modifies dedupe, Stores()
      ensures Agrees(j, if fatal then seen + orders + rest else seen + orders, fates, l', fatal)
    {
      l', fatal := l, false;
      assert seen + orders[..0] == seen;
      for i := 0 to |orders|
        invariant Agrees(j, seen + orders[..i], fates, l', false)
      {
        ghost var before := seen + orders[..i];
        assert before + [orders[i]] == seen + orders[..i + 1];
        l', fatal := TakeOrder(orders[i], l', fates, j, before, from + i);
        if fatal {
          FatalPage(j, before + [orders[i]], orders[i + 1..] + rest, fates);
          assert before + [orders[i]] + (orders[i + 1..] + rest) == seen + orders + rest;
          return;
        }
      }
      assert orders[..|orders|] == orders;
    }

    method Run(answers: seq<Option<Page>>, fates: nat -> Fates) returns (exit: Exit, report: Report, asked: seq<string>)
      modifies dedupe, Stores()
      ensures dryRun ==> dedupe.rows == old(dedupe.rows) && service.View() == old(service.View())
      ensures dryRun ==> report.ledger == Ledger(0, 0, 0) && (exit.Fatal? <==> !AllFetched(answers))
      ensures !dryRun ==>
                var j := All(Begin(old(dedupe.rows), old(service.View())), Fetched(answers), 0, fates);
                && dedupe.rows == j.rows && service.View() == j.store && report.ledger == j.ledger
                && (exit.Fatal? <==> j.fatal || !AllFetched(answers))
      ensures PagesOn(asked, answers)
      ensures !exit.Fatal? ==> EndedAt(asked, answers)
      ensures exit.Fatal? && dryRun ==> MissingAt(asked, answers)
      ensures !exit.Fatal? ==> Fetched(answers) == OrdersOn(answers, |asked|)
      ensures !exit.Fatal? ==> report.fetched == Sum(answers[..|asked|], PageSize())
      ensures !exit.Fatal? ==> report.fetched == |Fetched(answers)| && report.pages == |asked|
      ensures exit.SomeFailed? <==> !exit.Fatal? && report.ledger.failed > 0
      ensures !dryRun && !exit.Fatal? ==> report.fetched == HandledCount(report.ledger)
    {
      ghost var j := Begin(dedupe.rows, service.View());
      ghost var seen: seq<Order> := [];
      var cursor, k, fetched, l, fatal := "", 0, 0, Ledger(0, 0, 0), false;
      asked := [];
      while true
        invariant 0 <= k <= |answers| && k == |asked| && fetched == |seen|
        invariant Fetched(answers) == seen + Fetched(answers[k..])
        invariant AllFetched(answers) == AllFetched(answers[k..])
        invariant PagesOn(asked + [cursor], answers)
        invariant seen == OrdersOn(answers, k) && fetched == Sum(answers[..k], PageSize())
        invariant Agrees(j, seen, fates, l, false)
        decreases |answers| - k
      {
        asked := asked + [cursor];
        if k == |answers| || answers[k].None? {
          assert Fetched(answers) == seen;
          return Fatal, Report(k, fetched, l), asked;
        }
        var page := answers[k].value;
        ghost var rest := NextPages(answers, k, seen);
        NextPage(answers, k);
        l, fatal := BackfillPage(page.orders, l, fates, fetched, j, seen, rest);
        seen := seen + page.orders;
        k, fetched := k + 1, fetched + |page.orders|;
        if fatal { return Fatal, Report(k, fetched, l), asked; }
        if !page.hasMore || page.next.None? { break; }
        cursor := page.next.value;
        NextCursor(asked, answers, cursor);
      }
      assert Fetched(answers) == seen;
      if !dryRun { LedgerBalances(j, seen, 0, fates); }
      report := Report(k, fetched, l);
      exit := if l.failed > 0 then SomeFailed else Finished;
    }
  }
}
