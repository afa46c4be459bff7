// The books of the protocol: every counter in every reachable state, the order in
// which the collections run ahead of each other, and what a context row implies.
module ProtocolAccounting {
  import opened Events
  import opened Sums
  import opened Aggregates
  import opened Runs
  import opened Laws
  import opened Protocol
  import opened ProtocolSafety
  import opened ProtocolCounters

  // ---------- A successful run lands its whole plan exactly once ----------

  lemma {:induction false} FlatPlanMembers(plan: seq<seq<Write>>, w: Write)
    ensures w in Flat(plan) <==> exists b, i :: InPlan(plan, b, i) && plan[b][i] == w
  {
    FlatMembers(plan, w);
    if w in Flat(plan) {
      var b :| 0 <= b < |plan| && w in plan[b];
      var i :| 0 <= i < |plan[b]| && plan[b][i] == w;
      assert InPlan(plan, b, i);
    }
    if b, i :| InPlan(plan, b, i) && plan[b][i] == w {
      assert w in plan[b];
    }
  }

  lemma {:induction false} FlatPlanDistinct(plan: seq<seq<Write>>)
    requires PlanDistinct(plan)
    ensures Distinct(Flat(plan))
  {
    if plan != [] {
      var n := |plan| - 1;
      var front := plan[..n];
      forall b, i | InPlan(front, b, i) ensures InPlan(plan, b, i) && front[b][i] == plan[b][i] {}
      assert PlanDistinct(front);
      FlatPlanDistinct(front);
      forall i, w | 0 <= i < |plan[n]| && w in Flat(front) ensures w != plan[n][i] {
        FlatPlanMembers(front, w);
        var b, j :| InPlan(front, b, j) && front[b][j] == w;
        assert InPlan(plan, n, i) && InPlan(plan, b, j);
      }
      assert Distinct(plan[n]) by {
        forall i, j | 0 <= i < j < |plan[n]| ensures plan[n][i] != plan[n][j] {
          assert InPlan(plan, n, i) && InPlan(plan, n, j);
        }
      }
      DistinctConcat(Flat(front), plan[n]);
    }
  }

  lemma DistinctConcat(a: seq<Write>, b: seq<Write>)
    requires Distinct(a) && Distinct(b)
    requires forall i, w :: 0 <= i < |b| && w in a ==> w != b[i]
    ensures Distinct(a + b)
  {
    forall i, j | 0 <= i < j < |a + b| ensures (a + b)[i] != (a + b)[j] {
      if i < |a| <= j {
        assert a[i] in a;
      }
    }
  }

  // However its bulk call was ordered, a successful run adds its event's share.
  lemma SuccessLandsItsShare(a: Attempt, g: Gauge)
    requires AttemptOrderly(a) && a.ok
    ensures Sum(a.landed, DeltaOf(g)) == Share(Applied(a.event, a.found), g)
  {
    var plan := Plan(a.event, a.found);
    PlanIsDistinct(a.event, a.found);
    FlatPlanDistinct(plan);
    forall w ensures w in a.landed <==> w in Flat(plan) {
      FlatPlanMembers(plan, w);
      if w in Flat(plan) {
        var b, i :| InPlan(plan, b, i) && plan[b][i] == w;
      }
    }
    DistinctMultiset(a.landed, Flat(plan));
    SumPermutation(a.landed, Flat(plan), DeltaOf(g));
    PlanShare(Applied(a.event, a.found), g);
  }

  function CompletedShare(g: Gauge): Attempt -> int {
    (a: Attempt) => if a.ok then Share(Applied(a.event, a.found), g) else 0
  }

  function Residue(g: Gauge): Attempt -> int {
    (a: Attempt) => if a.ok then 0 else Sum(a.landed, DeltaOf(g))
  }

  // Main result: in every reachable state every counter, and every total, is the
  // sum of the shares of the completed events, each counted once, of the writes
  // that failed attempts had landed, and of the writes landed by runs under way.
  lemma EveryCounterIsAccountedFor(n: nat, hasDlx: bool, run: seq<Action>, g: Gauge)
    ensures var s := Exec(Initial(n, hasDlx), run);
            Read(s.store, g) ==
            Sum(s.attempts, CompletedShare(g)) + Sum(s.attempts, Residue(g)) + Sum(s.workers, RunningLanded(g))
  {
    var s := Exec(Initial(n, hasDlx), run);
    RunKeepsCounters(n, hasDlx, run, g);
    forall a | a in s.attempts ensures LandedBy(g)(a) == CompletedShare(g)(a) + Residue(g)(a) {
      if a.ok { SuccessLandsItsShare(a, g); }
    }
    SumOfTwo(s.attempts, LandedBy(g), CompletedShare(g), Residue(g));
  }

  // ---------- Collections run ahead of each other in one direction only ----------

  // How often a write of one event's plan has landed, over all attempts.
  function Landings(s: State, e: Event, w: Write): int {
    Count(s.attempts, AttemptLanded(e, w)) + Count(s.workers, WorkerLanded(e, w))
  }

  function AttemptLanded(e: Event, w: Write): Attempt -> bool {
    (a: Attempt) => a.event == e && w in a.landed
  }

  function WorkerLanded(e: Event, w: Write): Worker -> bool {
    (h: Worker) => h.Handling? && h.event == e && w in h.landed
  }

  // Two lookups that led to the same later write agree on the calls before it.
  lemma EarlierCallsAgree(e: Event, found: Option<OrderContext>, other: Option<OrderContext>, b: int, i: int, c: int,
                          j: int, d: int, k: int)
    requires var p, q := Plan(e, found), Plan(e, other);
             && InPlan(p, b, i) && InPlan(p, c, j) && b < c
             && InPlan(q, d, k) && q[d][k] == p[c][j]
    ensures var p, q := Plan(e, found), Plan(e, other);
            InPlan(q, b, i) && q[b][i] == p[b][i] && b < d
  {
    match e
    case OrderPlaced(_, _, _, _, _, _, _) => PlanStages(e, found);
    case OrderDelivered(_, _, _, _, _) =>
    case OrderRejected(_, _, _, _) =>
    case PaymentCompleted(_, _, _) =>
  }

  lemma LaterImpliesEarlier(e: Event, found: Option<OrderContext>, other: Option<OrderContext>, landed: seq<Write>,
                            b: int, i: int, c: int, j: int)
    requires InPlan(Plan(e, found), b, i) && InPlan(Plan(e, found), c, j) && b < c
    requires Orderly(landed, Plan(e, other))
    requires Plan(e, found)[c][j] in landed
    ensures Plan(e, found)[b][i] in landed
  {
    var q := Plan(e, other);
    var d, k :| InPlan(q, d, k) && q[d][k] == Plan(e, found)[c][j];
    EarlierCallsAgree(e, found, other, b, i, c, j, d, k);
  }

  // Partial failures only ever leave the earlier collections ahead: a write has
  // landed at least as often as every write of a later call of the same event, so
  // restaurant >= branch >= each product line >= platform >= context.
  lemma EarlierCallsLandMoreOften(n: nat, hasDlx: bool, run: seq<Action>, e: Event, found: Option<OrderContext>, b: int,
                                  i: int, c: int, j: int)
    requires InPlan(Plan(e, found), b, i) && InPlan(Plan(e, found), c, j) && b < c
    ensures var s := Exec(Initial(n, hasDlx), run);
            Landings(s, e, Plan(e, found)[b][i]) >= Landings(s, e, Plan(e, found)[c][j])
  {
    var s := Exec(Initial(n, hasDlx), run);
    var early, late := Plan(e, found)[b][i], Plan(e, found)[c][j];
    RunKeepsCounters(n, hasDlx, run, At(RestaurantCell(DayKey(0, 0), Orders)));
    forall k | 0 <= k < |s.attempts|
      ensures Indicator(AttemptLanded(e, late))(s.attempts[k]) <= Indicator(AttemptLanded(e, early))(s.attempts[k])
    {
      var a := s.attempts[k];
      if a.event == e && late in a.landed { LaterImpliesEarlier(e, found, a.found, a.landed, b, i, c, j); }
    }
    SumCompare(s.attempts, Indicator(AttemptLanded(e, late)), s.attempts, Indicator(AttemptLanded(e, early)));
    forall k | 0 <= k < |s.workers|
      ensures Indicator(WorkerLanded(e, late))(s.workers[k]) <= Indicator(WorkerLanded(e, early))(s.workers[k])
    {
      var h := s.workers[k];
      if h.Handling? && h.event == e && late in h.landed {
        WorkerRunOrderly(h);
        LaterImpliesEarlier(e, found, h.found, h.landed, b, i, c, j);
      }
    }
    SumCompare(s.workers, Indicator(WorkerLanded(e, late)), s.workers, Indicator(WorkerLanded(e, early)));
  }

  lemma WorkerRunOrderly(h: Worker)
    requires WorkerOrderly(h) && h.Handling?
    ensures Orderly(h.landed, Plan(h.event, h.found))
  {
    PlanIsDistinct(h.event, h.found);
    ProgressIsOrderly(Plan(h.event, h.found), h.at, h.left, h.spoilt, h.landed);
  }

  // How often a write has landed for messages of this id, over all its attempts.
  function LandingsFor(s: State, id: EventId, w: Write): int {
    Count(s.attempts, AttemptLandedFor(id, w)) + Count(s.workers, WorkerLandedFor(id, w))
  }

  function AttemptLandedFor(id: EventId, w: Write): Attempt -> bool {
    (a: Attempt) => a.id == id && w in a.landed
  }

  function WorkerLandedFor(id: EventId, w: Write): Worker -> bool {
    (h: Worker) => h.Handling? && h.msg.Envelope? && h.msg.id == id && w in h.landed
  }

  function LandedByOk(id: EventId, w: Write, ok: bool): Attempt -> bool {
    (a: Attempt) => a.id == id && a.ok == ok && w in a.landed
  }

  // By how much a write is over-counted for an event id: beyond the one landing of
  // the run that completed, if its plan has the write, it has landed once for every
  // failed attempt that got to it, and once if a handler running now has. Equal
  // events under other ids are counted apart.
  lemma OverCountIsFailures(n: nat, hasDlx: bool, run: seq<Action>, id: EventId, w: Write)
    ensures var s := Exec(Initial(n, hasDlx), run);
            && LandingsFor(s, id, w) ==
                 Count(s.attempts, LandedByOk(id, w, true)) + Count(s.attempts, LandedByOk(id, w, false))
                 + Count(s.workers, WorkerLandedFor(id, w))
            && 0 <= Count(s.attempts, LandedByOk(id, w, true)) <= 1
            && 0 <= Count(s.workers, WorkerLandedFor(id, w)) <= 1
            && (id in s.done ==> Count(s.workers, WorkerLandedFor(id, w)) == 0)
            && (forall a :: a in s.attempts && a.id == id && a.ok ==>
                  Count(s.attempts, LandedByOk(id, w, true)) == if w in Flat(Plan(a.event, a.found)) then 1 else 0)
  {
    var s := Exec(Initial(n, hasDlx), run);
    RunKeepsLocks(n, hasDlx, run);
    RunKeepsCounters(n, hasDlx, run, At(RestaurantCell(DayKey(0, 0), Orders)));
    SumOfTwo(s.attempts, Indicator(AttemptLandedFor(id, w)), Indicator(LandedByOk(id, w, true)),
      Indicator(LandedByOk(id, w, false)));
    CompletedLandings(s, id, w);
    AtMostOneWhere(s.workers, WorkerLandedFor(id, w));
  }

  lemma {:induction false} AtMostOneWhere<T>(s: seq<T>, p: T -> bool)
    requires forall i, j :: 0 <= i < j < |s| ==> !(p(s[i]) && p(s[j]))
    ensures 0 <= Count(s, p) <= 1
    ensures Count(s, p) == 1 <==> exists i :: 0 <= i < |s| && p(s[i])
  {
    if s != [] {
      var k := |s| - 1;
      AtMostOneWhere(s[..k], p);
      assert forall i :: 0 <= i < k ==> s[..k][i] == s[i];
    }
  }

  lemma CompletedLandings(s: State, id: EventId, w: Write)
    requires CompletedOnce(s) && AllOrderly(s)
    ensures 0 <= Count(s.attempts, LandedByOk(id, w, true)) <= 1
    ensures forall a :: a in s.attempts && a.id == id && a.ok ==>
              Count(s.attempts, LandedByOk(id, w, true)) == if w in Flat(Plan(a.event, a.found)) then 1 else 0
  {
    AtMostOneWhere(s.attempts, LandedByOk(id, w, true));
    forall a | a in s.attempts && a.id == id && a.ok
      ensures Count(s.attempts, LandedByOk(id, w, true)) == if w in Flat(Plan(a.event, a.found)) then 1 else 0
    {
      OkLandedItsPlan(a, w);
      var k :| 0 <= k < |s.attempts| && s.attempts[k] == a;
      forall i | 0 <= i < |s.attempts| && LandedByOk(id, w, true)(s.attempts[i]) ensures i == k {}
    }
  }

  lemma OkLandedItsPlan(a: Attempt, w: Write)
    requires AttemptOrderly(a) && a.ok
    ensures w in a.landed <==> w in Flat(Plan(a.event, a.found))
  {
    var plan := Plan(a.event, a.found);
    FlatPlanMembers(plan, w);
    if w in Flat(plan) {
      var b, i :| InPlan(plan, b, i) && plan[b][i] == w;
    }
  }

  // ---------- The same, read off the collections' totals ----------

  predicate Counts(c: Counter) {
    c.Orders? || c.DeliveryMsCount? || c.Failed?
  }

  // The totals of one counter over some days, in the order the calls are made.
  function DayTotals(rank: nat, days: Day -> bool, c: Counter): Gauge {
    if rank == 0 then OverRestaurants(DaysIn(days), c)
    else if rank == 1 then OverBranches(DaysIn(days), c)
    else OverPlatform(DatesIn(days), c)
  }

  predicate OfRank(w: Write, rank: nat) {
    if rank == 0 then w.ToRestaurant? else if rank == 1 then w.ToBranch? else w.ToPlatform?
  }

  lemma OffRankAddsNothing(w: Write, rank: nat, days: Day -> bool, c: Counter)
    requires Counts(c)
    ensures Delta(w, DayTotals(rank, days, c)) >= 0
    ensures !OfRank(w, rank) ==> Delta(w, DayTotals(rank, days, c)) == 0
  {
    match w
    case ToRestaurant(_, _) =>
    case ToBranch(_, _) =>
    case ToProduct(_, _, _, _, _) =>
    case ToPlatform(_, _) =>
    case ToPayments(_, _) =>
    case ToContext(_, _) =>
  }

  lemma OneWritePerRank(e: Event, found: Option<OrderContext>, rank: nat, b: int, i: int, c: int, j: int)
    requires var p := Plan(e, found);
             InPlan(p, b, i) && InPlan(p, c, j) && OfRank(p[b][i], rank) && OfRank(p[c][j], rank)
    ensures Plan(e, found)[b][i] == Plan(e, found)[c][j]
  {
    match e
    case OrderPlaced(_, _, _, _, _, _, _) => PlanStages(e, found);
    case OrderDelivered(_, _, _, _, _) =>
    case OrderRejected(_, _, _, _) =>
    case PaymentCompleted(_, _, _) =>
  }

  // A write of the next rank has one of this rank in an earlier call, on the same
  // day and for the same change.
  lemma RankBefore(e: Event, found: Option<OrderContext>, rank: nat, c: int, j: int)
    requires rank < 2 && InPlan(Plan(e, found), c, j) && OfRank(Plan(e, found)[c][j], rank + 1)
    ensures var p := Plan(e, found);
            && InPlan(p, rank, 0) && rank < c && OfRank(p[rank][0], rank)
            && forall days: Day -> bool, k: Counter ::
                 Delta(p[rank][0], DayTotals(rank, days, k)) == Delta(p[c][j], DayTotals(rank + 1, days, k))
  {
    match e
    case OrderPlaced(_, _, _, _, _, _, _) => PlanStages(e, found);
    case OrderDelivered(_, _, _, _, _) =>
    case OrderRejected(_, _, _, _) =>
    case PaymentCompleted(_, _, _) =>
  }

  lemma {:induction false} RankSumNonNegative(landed: seq<Write>, rank: nat, days: Day -> bool, c: Counter)
    requires Counts(c)
    ensures Sum(landed, DeltaOf(DayTotals(rank, days, c))) >= 0
    ensures (forall w :: w in landed ==> !OfRank(w, rank)) ==> Sum(landed, DeltaOf(DayTotals(rank, days, c))) == 0
  {
    if landed != [] {
      var n := |landed| - 1;
      assert landed[n] in landed;
      RankSumNonNegative(landed[..n], rank, days, c);
      OffRankAddsNothing(landed[n], rank, days, c);
    }
  }

  lemma RankSum(landed: seq<Write>, e: Event, found: Option<OrderContext>, rank: nat, x: Write, days: Day -> bool,
                c: Counter)
    requires Counts(c) && Orderly(landed, Plan(e, found)) && x in landed && OfRank(x, rank)
    ensures Sum(landed, DeltaOf(DayTotals(rank, days, c))) == Delta(x, DayTotals(rank, days, c))
  {
    var p := Plan(e, found);
    var b, i :| InPlan(p, b, i) && p[b][i] == x;
    forall y | y in landed && y != x ensures DeltaOf(DayTotals(rank, days, c))(y) == 0 {
      var d, k :| InPlan(p, d, k) && p[d][k] == y;
      if OfRank(y, rank) { OneWritePerRank(e, found, rank, b, i, d, k); }
      OffRankAddsNothing(y, rank, days, c);
    }
    SumOfOne(landed, DeltaOf(DayTotals(rank, days, c)), x);
  }

  lemma RunTotalsInOrder(landed: seq<Write>, e: Event, found: Option<OrderContext>, rank: nat, days: Day -> bool,
                         c: Counter)
    requires Counts(c) && rank < 2 && Orderly(landed, Plan(e, found))
    ensures Sum(landed, DeltaOf(DayTotals(rank + 1, days, c))) <= Sum(landed, DeltaOf(DayTotals(rank, days, c)))
  {
    RankSumNonNegative(landed, rank, days, c);
    RankSumNonNegative(landed, rank + 1, days, c);
    if x :| x in landed && OfRank(x, rank + 1) {
      var p := Plan(e, found);
      var d, k :| InPlan(p, d, k) && p[d][k] == x;
      RankBefore(e, found, rank, d, k);
      RankSum(landed, e, found, rank + 1, x, days, c);
      RankSum(landed, e, found, rank, p[rank][0], days, c);
    }
  }

  // In every reachable state, over any days: restaurant totals of orders,
  // deliveries and rejections are at least the branch totals, and those at least
  // the platform totals.
  lemma TotalsInOrder(n: nat, hasDlx: bool, run: seq<Action>, rank: nat, days: Day -> bool, c: Counter)
    requires Counts(c) && rank < 2
    ensures var s := Exec(Initial(n, hasDlx), run);
            Read(s.store, DayTotals(rank, days, c)) >= Read(s.store, DayTotals(rank + 1, days, c))
  {
    var s := Exec(Initial(n, hasDlx), run);
    var low, high := DayTotals(rank + 1, days, c), DayTotals(rank, days, c);
    RunKeepsCounters(n, hasDlx, run, low);
    RunKeepsCounters(n, hasDlx, run, high);
    forall k | 0 <= k < |s.attempts| ensures LandedBy(low)(s.attempts[k]) <= LandedBy(high)(s.attempts[k]) {
      RunTotalsInOrder(s.attempts[k].landed, s.attempts[k].event, s.attempts[k].found, rank, days, c);
    }
    SumCompare(s.attempts, LandedBy(low), s.attempts, LandedBy(high));
    forall k | 0 <= k < |s.workers| ensures RunningLanded(low)(s.workers[k]) <= RunningLanded(high)(s.workers[k]) {
      var h := s.workers[k];
      if h.Handling? {
        WorkerRunOrderly(h);
        RunTotalsInOrder(h.landed, h.event, h.found, rank, days, c);
      }
    }
    SumCompare(s.workers, RunningLanded(low), s.workers, RunningLanded(high));
  }

  // ---------- A context row implies the aggregate writes ----------

  ghost predicate Sourced(s: State, w: Write) {
    || (exists k :: 0 <= k < |s.attempts| && w in s.attempts[k].landed)
    || (exists i :: 0 <= i < |s.workers| && s.workers[i].Handling? && w in s.workers[i].landed)
  }

  ghost predicate ContextsSourced(s: State) {
    forall o :: o in s.store.contexts ==> Sourced(s, ToContext(o, s.store.contexts[o]))
  }

  // No recorded write is forgotten.
  ghost predicate Remembers(s: State, s': State) {
    forall w :: Sourced(s, w) ==> Sourced(s', w)
  }

  lemma ReturningRemembers(s: State, w: nat, ok: bool)
    requires w < |s.workers| && s.workers[w].Handling? && s.workers[w].msg.Envelope?
    ensures Remembers(s, Returning(s, w, ok))
  {
    var s' := Returning(s, w, ok);
    var n := |s.attempts|;
    forall x | Sourced(s, x) ensures Sourced(s', x) {
      if k :| 0 <= k < n && x in s.attempts[k].landed {
        assert x in s'.attempts[k].landed;
      } else {
        var i :| 0 <= i < |s.workers| && s.workers[i].Handling? && x in s.workers[i].landed;
        if i == w { assert x in s'.attempts[n].landed; } else { assert x in s'.workers[i].landed; }
      }
    }
  }

  lemma ReplacingRemembers(s: State, s': State, w: nat, h: Worker)
    requires w < |s.workers| && s'.workers == s.workers[w := h] && s'.attempts == s.attempts
    requires s.workers[w].Handling? ==> h.Handling? && forall x :: x in s.workers[w].landed ==> x in h.landed
    ensures Remembers(s, s')
  {
    forall x | Sourced(s, x) ensures Sourced(s', x) {
      if k :| 0 <= k < |s.attempts| && x in s.attempts[k].landed {
        assert x in s'.attempts[k].landed;
      } else {
        var i :| 0 <= i < |s.workers| && s.workers[i].Handling? && x in s.workers[i].landed;
        assert x in s'.workers[i].landed;
      }
    }
  }

  lemma AdvancingRemembers(s: State, w: nat)
    requires w < |s.workers| && s.workers[w].Handling? && s.workers[w].msg.Envelope?
    ensures Remembers(s, Advancing(s, w))
    ensures Advancing(s, w).store == s.store
  {
    var h := s.workers[w];
    var plan := Plan(h.event, h.found);
    if h.at < |plan| {
      ReplacingRemembers(s, Advancing(s, w), w, h.(left := Indices(plan[h.at])));
    } else if h.looked {
      ReturningRemembers(s, w, true);
    }
  }

  lemma TriedContext(st: Store, h: Worker, i: nat, fate: Fate, o: string)
    requires CanLand(h, i) && o in Stored(st, h, i, fate).contexts
    ensures var x := Stored(st, h, i, fate).contexts[o];
            || (o in st.contexts && st.contexts[o] == x)
            || (WriteAt(h, i) == ToContext(o, x) && WriteAt(h, i) in Tried(h, i, fate).landed)
  {
  }

  // A store that gained one write, recorded in the run that made it.
  lemma TriedSourced(s: State, w: nat, i: nat, fate: Fate, at: nat)
    requires ContextsSourced(s) && w < |s.workers| && CanLand(s.workers[w], i)
    ensures var h' := Tried(s.workers[w], i, fate);
            ContextsSourced(SetWorker(s.(store := Stored(s.store, s.workers[w], i, fate)), w, h'.(at := at)))
  {
    var h, store := s.workers[w], Stored(s.store, s.workers[w], i, fate);
    var tried := Tried(h, i, fate);
    var h' := tried.(at := at);
    var t := SetWorker(s.(store := store), w, h');
    ReplacingRemembers(s, t, w, h');
    forall o | o in store.contexts ensures Sourced(t, ToContext(o, store.contexts[o])) {
      TriedContext(s.store, h, i, fate, o);
      if WriteAt(h, i) == ToContext(o, store.contexts[o]) && WriteAt(h, i) in h'.landed {
        assert t.workers[w] == h';
      } else {
        assert Sourced(s, ToContext(o, s.store.contexts[o]));
      }
    }
  }

  lemma LandingSourced(s: State, w: nat, i: nat, fate: Fate)
    requires ContextsSourced(s) && w < |s.workers| && CanLand(s.workers[w], i)
    ensures ContextsSourced(Landing(s, w, i, fate))
  {
    var h := s.workers[w];
    var h', store := Tried(h, i, fate), Stored(s.store, h, i, fate);
    var at := if h'.left == {} && !h'.spoilt then h.at + 1 else h.at;
    TriedSourced(s, w, i, fate, at);
    var t := SetWorker(s.(store := store), w, h'.(at := at));
    assert h'.(at := h.at) == h';
    if h'.left == {} {
      if h'.spoilt { ReturningRemembers(t, w, false); } else { AdvancingRemembers(t, w); }
    }
  }

  lemma LookingSourced(s: State, w: nat, answered: bool)
    requires ContextsSourced(s) && w < |s.workers| && Looking(s, w, answered) != s
    ensures ContextsSourced(Looking(s, w, answered))
  {
    var h := s.workers[w];
    if answered {
      var h' := h.(looked := true, found := Lookup(s.store.contexts, h.event));
      ReplacingRemembers(s, SetWorker(s, w, h'), w, h');
      AdvancingRemembers(SetWorker(s, w, h'), w);
    } else {
      ReturningRemembers(s, w, false);
    }
  }

  lemma CrashingSourced(s: State, w: nat)
    requires ContextsSourced(s) && AllOrderly(s) && w < |s.workers|
    ensures ContextsSourced(Crashing(s, w))
  {
    var h, s' := s.workers[w], Crashing(s, w);
    if h.Handling? {
      var n := |s.attempts|;
      forall x | Sourced(s, x) ensures Sourced(s', x) {
        if k :| 0 <= k < n && x in s.attempts[k].landed {
          assert x in s'.attempts[k].landed;
        } else {
          var i :| 0 <= i < |s.workers| && s.workers[i].Handling? && x in s.workers[i].landed;
          if i == w { assert x in s'.attempts[n].landed; } else { assert x in s'.workers[i].landed; }
        }
      }
    } else if !h.Idle? {
      ReplacingRemembers(s, s', w, Idle);
    }
  }

  lemma StepKeepsSources(s: State, a: Action)
    requires ContextsSourced(s) && AllOrderly(s)
    ensures ContextsSourced(Step(s, a))
  {
    var s' := Step(s, a);
    if a.Publish? || a.Replay? {
      assert s'.attempts == s.attempts && s'.workers == s.workers && s'.store == s.store;
    } else if a.w < |s.workers| {
      var w := a.w;
      if a.Land? {
        if CanLand(s.workers[w], a.i) { LandingSourced(s, w, a.i, a.fate); }
      } else if a.Look? {
        if s' != s { LookingSourced(s, w, a.answered); }
      } else if a.Crash? {
        CrashingSourced(s, w);
      } else {
        OutsideQuiet(s, a);
        if s' != s { ReplacingRemembers(s, s', w, s'.workers[w]); }
      }
    }
  }

  lemma {:induction false} RunKeepsSources(n: nat, hasDlx: bool, run: seq<Action>)
    ensures ContextsSourced(Exec(Initial(n, hasDlx), run))
  {
    if run != [] {
      var before := run[..|run| - 1];
      RunKeepsSources(n, hasDlx, before);
      RunKeepsCounters(n, hasDlx, before, At(RestaurantCell(DayKey(0, 0), Orders)));
      StepKeepsSources(Exec(Initial(n, hasDlx), before), run[|run| - 1]);
    }
  }

  // All of an order.placed plan landed, its context row last.
  ghost predicate LandedInFull(e: Event, landed: seq<Write>) {
    e.OrderPlaced? && Complete(landed, Plan(e, None))
  }

  lemma ContextCallIsLast(e: Event, found: Option<OrderContext>, b: int, i: int)
    requires var p := Plan(e, found); InPlan(p, b, i) && p[b][i].ToContext?
    ensures e.OrderPlaced? && Plan(e, found) == Plan(e, None)
    ensures var p := Plan(e, found); b == |p| - 1 && |p[b]| == 1 && p[b][i] == ToContext(e.orderId, ContextOf(e))
  {
    PlanStages(e, found);
  }

  lemma ContextWriteIsLast(e: Event, found: Option<OrderContext>, landed: seq<Write>, o: string, ctx: OrderContext)
    requires Orderly(landed, Plan(e, found)) && ToContext(o, ctx) in landed
    ensures e.OrderPlaced? && e.orderId == o && ContextOf(e) == ctx && LandedInFull(e, landed)
  {
    var p := Plan(e, found);
    var b, i :| InPlan(p, b, i) && p[b][i] == ToContext(o, ctx);
    ContextCallIsLast(e, found, b, i);
    forall c, j | InPlan(p, c, j) ensures p[c][j] in landed {
      if c == b { assert p[c][j] == p[b][i]; }
    }
  }

  // In every reachable state, an order_context row means that some order.placed of
  // that order, with the row's currency and instant, has landed every one of its
  // aggregate writes, whether or not its run went on to succeed.
  lemma ContextImpliesAggregates(n: nat, hasDlx: bool, run: seq<Action>, o: string)
    requires o in Exec(Initial(n, hasDlx), run).store.contexts
    ensures var s := Exec(Initial(n, hasDlx), run);
            || (exists k :: 0 <= k < |s.attempts| && Places(s.attempts[k].event, o)
                  && ContextOf(s.attempts[k].event) == s.store.contexts[o]
                  && LandedInFull(s.attempts[k].event, s.attempts[k].landed))
            || (exists i :: 0 <= i < |s.workers| && s.workers[i].Handling? && Places(s.workers[i].event, o)
                  && ContextOf(s.workers[i].event) == s.store.contexts[o]
                  && LandedInFull(s.workers[i].event, s.workers[i].landed))
  {
    var s := Exec(Initial(n, hasDlx), run);
    var ctx := s.store.contexts[o];
    RunKeepsSources(n, hasDlx, run);
    RunKeepsCounters(n, hasDlx, run, At(RestaurantCell(DayKey(0, 0), Orders)));
    assert Sourced(s, ToContext(o, ctx));
    if k :| 0 <= k < |s.attempts| && ToContext(o, ctx) in s.attempts[k].landed {
      ContextWriteIsLast(s.attempts[k].event, s.attempts[k].found, s.attempts[k].landed, o, ctx);
    } else {
      var i :| 0 <= i < |s.workers| && s.workers[i].Handling? && ToContext(o, ctx) in s.workers[i].landed;
      WorkerRunOrderly(s.workers[i]);
      ContextWriteIsLast(s.workers[i].event, s.workers[i].found, s.workers[i].landed, o, ctx);
    }
  }
}
