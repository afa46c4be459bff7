// Are handlers safe to repeat? A repeated run adds its writes again: the counters
// are the completed events' shares exactly when no other run has landed anything.
module ProtocolRepeats {
  import opened Events
  import opened Sums
  import opened Aggregates
  import opened Runs
  import opened Protocol
  import opened ProtocolSafety
  import opened ProtocolCounters
  import opened ProtocolAccounting
  import opened ProtocolProgress
  import opened ProtocolLog
  import opened ProtocolRecovery

  // ---------- When every counter is right ----------

  // The counter that counts writes of this kind, at the row the write goes to.
  function TallyCell(w: Write): Cell
    requires w.ToRestaurant? || w.ToPayments?
  {
    match w
    case ToRestaurant(k, change) =>
      RestaurantCell(k, if change.Placed? then Orders else if change.Delivered? then DeliveryMsCount else Failed)
    case ToPayments(k, _) => PlatformCell(k, Payments)
  }

  lemma TallyCellCounts(w: Write, x: Write)
    requires w.ToRestaurant? || w.ToPayments?
    ensures Delta(w, At(TallyCell(w))) == 1
    ensures Delta(x, At(TallyCell(w))) >= 0
  {
    match x
    case ToRestaurant(_, _) =>
    case ToBranch(_, _) =>
    case ToProduct(_, _, _, _, _) =>
    case ToPlatform(_, _) =>
    case ToPayments(_, _) =>
    case ToContext(_, _) =>
  }

  lemma {:induction false} TallySum(ws: seq<Write>, w: Write)
    requires w.ToRestaurant? || w.ToPayments?
    ensures Sum(ws, DeltaOf(At(TallyCell(w)))) >= if w in ws then 1 else 0
  {
    if ws != [] {
      TallySum(ws[..|ws| - 1], w);
      TallyCellCounts(w, ws[|ws| - 1]);
    }
  }

  // A run that landed anything landed the one write of its first call.
  lemma FirstCallLanded(r: Attempt) returns (w: Write)
    requires Orderly(r.landed, Plan(r.event, r.found)) && r.landed != []
    ensures w in r.landed && (w.ToRestaurant? || w.ToPayments?)
  {
    var p := Plan(r.event, r.found);
    assert r.landed[0] in r.landed;
    var b, i :| InPlan(p, b, i) && p[b][i] == r.landed[0];
    assert InPlan(p, 0, 0) && |p[0]| == 1;
    w := p[0][0];
  }

  lemma {:induction false} SomePositive<T(!new)>(s: seq<T>, f: T -> int, x: T)
    requires forall y :: y in s ==> f(y) >= 0
    ensures Sum(s, f) >= 0
    ensures x in s && f(x) > 0 ==> Sum(s, f) > 0
  {
    if s != [] {
      var n := |s| - 1;
      assert s[n] in s && s == s[..n] + [s[n]];
      SomePositive(s[..n], f, x);
    }
  }

  lemma {:induction false} AllZero<T(!new)>(s: seq<T>, f: T -> int)
    requires forall x :: x in s ==> f(x) == 0
    ensures Sum(s, f) == 0
  {
    if s != [] {
      assert s[|s| - 1] in s;
      AllZero(s[..|s| - 1], f);
    }
  }

  // The runs that have not succeeded: failed attempts and handlers under way.
  ghost predicate NothingBesides(s: State) {
    forall r :: IsRun(s, r) && !r.ok ==> r.landed == []
  }

  lemma NothingAdded(s: State, g: Gauge)
    requires AllOrderly(s) && NothingBesides(s)
    ensures Sum(s.attempts, Residue(g)) == 0 && Sum(s.workers, RunningLanded(g)) == 0
  {
    forall a | a in s.attempts ensures Residue(g)(a) == 0 { assert IsRun(s, a); }
    AllZero(s.attempts, Residue(g));
    forall h | h in s.workers ensures RunningLanded(g)(h) == 0 {
      if h.Handling? {
        var i :| 0 <= i < |s.workers| && s.workers[i] == h;
        assert WorkerOrderly(s.workers[i]) && IsRun(s, RunOf(h));
      }
    }
    AllZero(s.workers, RunningLanded(g));
  }

  lemma SomethingAdded(s: State, r: Attempt) returns (cell: Cell)
    requires AllOrderly(s) && IsRun(s, r) && !r.ok && r.landed != []
    ensures Sum(s.attempts, Residue(At(cell))) + Sum(s.workers, RunningLanded(At(cell))) > 0
  {
    RunsAreOrderly(s, r);
    var w := FirstCallLanded(r);
    cell := TallyCell(w);
    var failed, running := Residue(At(cell)), RunningLanded(At(cell));
    forall a | a in s.attempts ensures failed(a) >= 0 { TallySum(a.landed, w); }
    forall h | h in s.workers ensures running(h) >= 0 { if h.Handling? { TallySum(h.landed, w); } }
    TallySum(r.landed, w);
    SomePositive(s.attempts, failed, r);
    if r in s.attempts {
      SomePositive(s.workers, running, Idle);
    } else {
      var i :| 0 <= i < |s.workers| && s.workers[i].Handling? && s.workers[i].msg.Envelope? && RunOf(s.workers[i]) == r;
      SomePositive(s.workers, running, s.workers[i]);
    }
  }

  // Main result: in every reachable state, each counter is the sum of the shares of
  // the completed events, once each, if and only if no failed attempt and no handler
  // under way has landed a write.
  lemma CountedOnceExactly(n: nat, hasDlx: bool, run: seq<Action>)
    ensures var s := Exec(Initial(n, hasDlx), run);
            (forall cell :: ReadCell(s.store, cell) == Sum(s.attempts, CompletedShare(At(cell)))) <==> NothingBesides(s)
  {
    var s := Exec(Initial(n, hasDlx), run);
    RunKeepsCounters(n, hasDlx, run, At(RestaurantCell(DayKey(0, 0), Orders)));
    if NothingBesides(s) {
      forall cell ensures ReadCell(s.store, cell) == Sum(s.attempts, CompletedShare(At(cell))) {
        EveryCounterIsAccountedFor(n, hasDlx, run, At(cell));
        NothingAdded(s, At(cell));
      }
    } else {
      var r :| IsRun(s, r) && !r.ok && r.landed != [];
      var cell := SomethingAdded(s, r);
      EveryCounterIsAccountedFor(n, hasDlx, run, At(cell));
      assert ReadCell(s.store, cell) != Sum(s.attempts, CompletedShare(At(cell)));
    }
  }

  // ---------- A replay that double-counts ----------

  // The handler's first write lands, its second does not; the event is dead-lettered
  // with its row removed.
  ghost predicate HalfDone(s: State, x: Worker, id: EventId, e: Event)
    requires e.OrderPlaced?
  {
    && s.workers == [x] && s.hasDlx && s.published == {Envelope(id, Carries(e))} && s.stuck == {}
    && s.queue == multiset{}
    && s.attempts == [Attempt(id, e, None, [ToRestaurant(DayKey(e.restaurant, UtcDay(e.placedAt)),
          Placed(e.currency, e.total))], false)]
  }

  ghost predicate BetweenWrites(s: State, id: EventId, e: Event)
    requires e.OrderPlaced?
  {
    && s.hasDlx && s.published == {Envelope(id, Carries(e))} && s.stuck == {} && s.queue == multiset{}
    && s.attempts == []
    && s.rows == {id} && s.dlq == multiset{}
    && var first := ToRestaurant(DayKey(e.restaurant, UtcDay(e.placedAt)), Placed(e.currency, e.total));
       s.workers == [Handling(Envelope(id, Carries(e)), e, true, None, 1, {0}, false, [first])]
  }

  lemma FirstWriteLands(s: State, id: EventId, e: Event)
    requires e.OrderPlaced? && Entered(s, id, e)
    ensures BetweenWrites(Step(s, Land(0, 0, Done)), id, e)
  {
    var p := Plan(e, None);
    assert |p[0]| == 1 && |p[1]| == 1 && Indices(p[0]) == {0} && Indices(p[1]) == {0};
    assert Tried(s.workers[0], 0, Done).left == {};
    var first, t := ToRestaurant(DayKey(e.restaurant, UtcDay(e.placedAt)), Placed(e.currency, e.total)),
      Step(s, Land(0, 0, Done));
    assert |t.workers| == 1;
    assert t.workers[0] == Handling(Envelope(id, Carries(e)), e, true, None, 1, {0}, false, [first]);
  }

  lemma SecondWriteFails(s: State, id: EventId, e: Event)
    requires e.OrderPlaced? && BetweenWrites(s, id, e)
    ensures var t := Step(s, Land(0, 0, Lost));
            HalfDone(t, Unmarking(Envelope(id, Carries(e))), id, e) && t.rows == s.rows && t.dlq == s.dlq
  {
    var p := Plan(e, None);
    assert |p[1]| == 1;
    assert Tried(s.workers[0], 0, Lost).left == {};
  }

  lemma BetweenWritesRun(trace: (State, seq<Action>) -> bool, id: EventId, e: Event) returns (s: State)
    requires Traces(trace) && trace(Initial(1, true), []) && e.OrderPlaced?
    ensures var m := Envelope(id, Carries(e));
            trace(s, [] + [Publish(m)] + [Deliver(0, m)] + [Mark(0, Done)] + [Dispatch(0)] + [Land(0, 0, Done)])
    ensures BetweenWrites(s, id, e)
  {
    s := Enter(trace, id, e);
    FirstWriteLands(s, id, e);
    s := Step(s, Land(0, 0, Done));
  }

  lemma HalfDoneRun(trace: (State, seq<Action>) -> bool, id: EventId, e: Event) returns (s: State)
    requires Traces(trace) && trace(Initial(1, true), []) && e.OrderPlaced?
    ensures var m := Envelope(id, Carries(e));
            trace(s, [] + [Publish(m)] + [Deliver(0, m)] + [Mark(0, Done)] + [Dispatch(0)]
                     + [Land(0, 0, Done)] + [Land(0, 0, Lost)])
    ensures HalfDone(s, Unmarking(Envelope(id, Carries(e))), id, e) && s.rows == {id} && s.dlq == multiset{}
  {
    s := BetweenWritesRun(trace, id, e);
    SecondWriteFails(s, id, e);
    s := Step(s, Land(0, 0, Lost));
  }

  lemma DeadLettered(trace: (State, seq<Action>) -> bool, s0: State, run: seq<Action>, id: EventId, e: Event)
    returns (s: State)
    requires Traces(trace) && trace(s0, run) && e.OrderPlaced?
    requires HalfDone(s0, Unmarking(Envelope(id, Carries(e))), id, e) && s0.rows == {id} && s0.dlq == multiset{}
    ensures trace(s, run + [Unmark(0, Done)] + [Settle(0)])
    ensures HalfDone(s, Idle, id, e) && s.rows == {} && s.dlq == multiset{Envelope(id, Carries(e))}
  {
    s := Step(s0, Unmark(0, Done));
    s := Step(s, Settle(0));
  }

  function FailingRun(id: EventId, e: Event): seq<Action> {
    var m := Envelope(id, Carries(e));
    [Publish(m), Deliver(0, m), Mark(0, Done), Dispatch(0), Land(0, 0, Done), Land(0, 0, Lost), Unmark(0, Done),
      Settle(0)]
  }

  lemma FailingRunEnds(id: EventId, e: Event)
    requires e.OrderPlaced?
    ensures var s := Exec(Initial(1, true), FailingRun(id, e));
            HalfDone(s, Idle, id, e) && s.rows == {} && s.dlq == multiset{Envelope(id, Carries(e))}
  {
    var m := Envelope(id, Carries(e));
    var trace := (t: State, run: seq<Action>) => Exec(Initial(1, true), run) == t;
    assert trace(Initial(1, true), []) by { assert Exec(Initial(1, true), []) == Initial(1, true); }
    forall t, run, a | trace(t, run) ensures trace(Step(t, a), run + [a]) { RunNext(Initial(1, true), run, a); }
    var s := HalfDoneRun(trace, id, e);
    var run := [] + [Publish(m)] + [Deliver(0, m)] + [Mark(0, Done)] + [Dispatch(0)] + [Land(0, 0, Done)]
      + [Land(0, 0, Lost)];
    s := DeadLettered(trace, s, run, id, e);
    assert FailingRun(id, e) == run + [Unmark(0, Done)] + [Settle(0)];
  }

  lemma ReplayedRun(id: EventId, e: Event) returns (more: seq<Action>)
    requires e.OrderPlaced?
    ensures AllSmooth(more)
    ensures var s, t := Exec(Initial(1, true), FailingRun(id, e)), Exec(Initial(1, true), FailingRun(id, e) + more);
            |t.workers| == 1 && Completing(s, t, 0, id, e)
  {
    var s := Exec(Initial(1, true), FailingRun(id, e));
    var inv := (t: State) => SmoothlyFrom(s, t);
    FailingRunEnds(id, e);
    SmoothlyStays(1, FailingRun(id, e), inv);
    var t := ReplayCompletes(inv, s, 0, id, e);
    more :| AllSmooth(more) && Exec(s, more) == t;
    RunExtended(Initial(1, true), FailingRun(id, e), more);
  }

  lemma PairAddsUp(attempts: seq<Attempt>, workers: seq<Worker>, first: Write, e: Event, g: Gauge)
    requires |attempts| == 2 && |workers| == 1 && !workers[0].Handling?
    requires !attempts[0].ok && attempts[0].landed == [first]
    requires attempts[1].ok && attempts[1].event == e && e.OrderPlaced?
    ensures Sum(attempts, CompletedShare(g)) + Sum(attempts, Residue(g)) + Sum(workers, RunningLanded(g)) ==
            Share(Applied(e, None), g) + Delta(first, g)
  {
    NoneInFlight(workers, g);
    SumOfPair(attempts, CompletedShare(g));
    SumOfPair(attempts, Residue(g));
    SumOne(first, g);
  }

  // The share of the completed event, and the failed run's one write on top.
  lemma ReplayedReads(id: EventId, e: Event, run: seq<Action>, s: State, t: State, g: Gauge)
    requires e.OrderPlaced? && t == Exec(Initial(1, true), run) && |t.workers| == 1
    requires HalfDone(s, Idle, id, e) && Completing(s, t, 0, id, e)
    ensures Read(t.store, g) ==
            Share(Applied(e, None), g)
            + Delta(ToRestaurant(DayKey(e.restaurant, UtcDay(e.placedAt)), Placed(e.currency, e.total)), g)
  {
    EveryCounterIsAccountedFor(1, true, run, g);
    PairAddsUp(t.attempts, t.workers, s.attempts[0].landed[0], e, g);
  }

  lemma SumOfPair<T>(s: seq<T>, f: T -> int)
    requires |s| == 2
    ensures Sum(s, f) == f(s[0]) + f(s[1])
  {
    assert s == [] + [s[0]] + [s[1]];
    SumAppend([], s[0], f);
    SumAppend([] + [s[0]], s[1], f);
  }

  // For every order.placed event: its handler fails between the restaurant and the
  // branch write, is unmarked and dead-lettered, and the replay succeeds. The event
  // has completed once, and its order counts twice for the restaurant, once for the
  // branch and the platform.
  lemma ReplayDoubleCounts(id: EventId, e: Event) returns (more: seq<Action>)
    requires e.OrderPlaced?
    ensures AllSmooth(more)
    ensures var t, day := Exec(Initial(1, true), FailingRun(id, e) + more), UtcDay(e.placedAt);
            && t.done == {id}
            && ReadCell(t.store, RestaurantCell(DayKey(e.restaurant, day), Orders)) == 2
            && ReadCell(t.store, RestaurantCell(DayKey(e.restaurant, day), Revenue)) == 2 * e.total
            && ReadCell(t.store, BranchCell(DayKey(e.branch, day), Orders)) == 1
            && ReadCell(t.store, PlatformCell(PlatformKey(day, e.currency), Orders)) == 1
  {
    FailingRunEnds(id, e);
    more := ReplayedRun(id, e);
    var run, day := FailingRun(id, e) + more, UtcDay(e.placedAt);
    var s, t := Exec(Initial(1, true), FailingRun(id, e)), Exec(Initial(1, true), run);
    ReplayedReads(id, e, run, s, t, At(RestaurantCell(DayKey(e.restaurant, day), Orders)));
    ReplayedReads(id, e, run, s, t, At(RestaurantCell(DayKey(e.restaurant, day), Revenue)));
    ReplayedReads(id, e, run, s, t, At(BranchCell(DayKey(e.branch, day), Orders)));
    ReplayedReads(id, e, run, s, t, At(PlatformCell(PlatformKey(day, e.currency), Orders)));
    OnlyItCompleted(id, e, run);
  }

  lemma OnlyItCompleted(id: EventId, e: Event, run: seq<Action>)
    requires e.OrderPlaced?
    requires HalfDone(Exec(Initial(1, true), FailingRun(id, e)), Idle, id, e)
    requires Completing(Exec(Initial(1, true), FailingRun(id, e)), Exec(Initial(1, true), run), 0, id, e)
    ensures Exec(Initial(1, true), run).done == {id}
  {
    RunKeepsLocks(1, true, run);
  }
}
