// Runs without handler failures: whatever the workers interleaved, the store ends
// as if the completed events had been handled one after the other.
module ProtocolRefinement {
  import opened Events
  import opened Sums
  import opened Aggregates
  import opened Runs
  import opened Convergence
  import opened Protocol
  import opened ProtocolSafety
  import opened ProtocolCounters
  import opened ProtocolAccounting

  function EventsOf(attempts: seq<Attempt>): seq<Event> {
    seq(|attempts|, i requires 0 <= i < |attempts| => attempts[i].event)
  }

  // No handler run has failed or is bound to fail.
  ghost predicate Clean(s: State) {
    && (forall k :: 0 <= k < |s.attempts| ==> s.attempts[k].ok)
    && (forall i :: 0 <= i < |s.workers| && s.workers[i].Handling? ==> !s.workers[i].spoilt)
  }

  // All published order.placed events of one order carry the same context.
  ghost predicate Agreeing(s: State, truth: map<string, OrderContext>) {
    forall m :: m in s.published && m.Envelope? && m.payload.Carries? && m.payload.event.OrderPlaced? ==>
      m.payload.event.orderId in truth && truth[m.payload.event.orderId] == ContextOf(m.payload.event)
  }

  ghost predicate WorkerInLine(h: Worker, contexts: map<string, OrderContext>) {
    h.Handling? ==>
      && (h.found.Some? ==> Lookup(contexts, h.event) == h.found)
      && (forall x :: x in h.landed ==> !x.ToContext?)
      && (NeedsContext(h.event) && h.looked ==> |Plan(h.event, None)| <= h.at)
  }

  // The order of completion is a sequential history that explains the contexts and
  // everything handlers found there.
  ghost predicate InLine(s: State, truth: map<string, OrderContext>) {
    && s.store.contexts == ContextsAfter(EventsOf(s.attempts))
    && (forall k :: 0 <= k < |s.attempts| ==>
          s.attempts[k].found == Lookup(ContextsAfter(EventsOf(s.attempts)[..k]), s.attempts[k].event))
    && (forall o :: o in s.store.contexts ==> o in truth && truth[o] == s.store.contexts[o])
    && (forall i :: 0 <= i < |s.workers| ==> WorkerInLine(s.workers[i], s.store.contexts))
  }

  // Worker w moved on inside its run, or was never in one.
  lemma MovedInLine(s: State, s': State, w: nat, x: Worker, truth: map<string, OrderContext>)
    requires InLine(s, truth) && w < |s.workers| && s'.workers == s.workers[w := x]
    requires s'.attempts == s.attempts && s'.store.contexts == s.store.contexts
    requires WorkerInLine(x, s.store.contexts)
    ensures InLine(s', truth)
  {
  }

  // Worker w completed its run; an order.placed run wrote its context row last.
  lemma CompletedInLine(s: State, s': State, w: nat, x: Worker, a: Attempt, truth: map<string, OrderContext>)
    requires InLine(s, truth) && w < |s.workers| && s'.workers == s.workers[w := x] && !x.Handling?
    requires s'.attempts == s.attempts + [a] && a.found == Lookup(s.store.contexts, a.event)
    requires s'.store.contexts ==
             if a.event.OrderPlaced? then s.store.contexts[a.event.orderId := ContextOf(a.event)] else s.store.contexts
    requires a.event.OrderPlaced? ==> a.event.orderId in truth && truth[a.event.orderId] == ContextOf(a.event)
    ensures InLine(s', truth)
  {
    var h, h' := EventsOf(s.attempts), EventsOf(s'.attempts);
    assert h' == h + [a.event];
    assert h'[..|h|] == h;
    forall k | 0 <= k < |s'.attempts|
      ensures s'.attempts[k].found == Lookup(ContextsAfter(h'[..k]), s'.attempts[k].event)
    {
      if k < |h| { assert h'[..k] == h[..k] && s'.attempts[k] == s.attempts[k]; }
    }
    forall i | 0 <= i < |s'.workers| ensures WorkerInLine(s'.workers[i], s'.store.contexts) {
      if i != w { assert WorkerInLine(s.workers[i], s.store.contexts); }
    }
  }

  lemma OkReturn(s: State, t: State, w: nat, h: Worker, truth: map<string, OrderContext>)
    requires InLine(s, truth) && w < |s.workers| && h.Handling? && h.msg.Envelope?
    requires t.workers == s.workers[w := h] && t.attempts == s.attempts
    requires h.found == Lookup(s.store.contexts, h.event)
    requires t.store.contexts ==
             if h.event.OrderPlaced? then s.store.contexts[h.event.orderId := ContextOf(h.event)] else s.store.contexts
    requires h.event.OrderPlaced? ==> h.event.orderId in truth && truth[h.event.orderId] == ContextOf(h.event)
    ensures InLine(Returning(t, w, true), truth)
  {
    var s' := Returning(t, w, true);
    assert s'.workers == s.workers[w := Acking(h.msg)];
    CompletedInLine(s, s', w, Acking(h.msg), Attempt(h.msg.id, h.event, h.found, h.landed, true), truth);
  }

  // A failed run shows.
  lemma FailureShows(s: State, w: nat)
    requires w < |s.workers| && s.workers[w].Handling? && s.workers[w].msg.Envelope?
    ensures !Clean(Returning(s, w, false))
  {
    assert !Returning(s, w, false).attempts[|s.attempts|].ok;
  }

  lemma SpoiltShows(s: State, w: nat, i: nat, fate: Fate)
    requires w < |s.workers| && CanLand(s.workers[w], i)
    ensures Tried(s.workers[w], i, fate).spoilt ==> !Clean(Landing(s, w, i, fate))
  {
    var h', t := Tried(s.workers[w], i, fate), s.(store := Stored(s.store, s.workers[w], i, fate));
    FailureShows(SetWorker(t, w, h'), w);
    if h'.spoilt && h'.left != {} {
      assert Landing(s, w, i, fate).workers[w] == h';
    }
  }

  // Going back from a clean state: its predecessor was clean.
  lemma LandingWasClean(s: State, w: nat, i: nat, fate: Fate)
    requires w < |s.workers| && CanLand(s.workers[w], i) && Clean(Landing(s, w, i, fate))
    ensures Clean(s) && fate.Done?
  {
    var s' := Landing(s, w, i, fate);
    SpoiltShows(s, w, i, fate);
    forall k | 0 <= k < |s.attempts| ensures s.attempts[k].ok { assert s'.attempts[k] == s.attempts[k]; }
    forall k | 0 <= k < |s.workers| && s.workers[k].Handling? ensures !s.workers[k].spoilt {
      if k != w { assert s'.workers[k] == s.workers[k]; }
    }
  }

  lemma LookingWasClean(s: State, w: nat, answered: bool)
    requires w < |s.workers| && Looking(s, w, answered) != s && Clean(Looking(s, w, answered)) && AllOrderly(s)
    ensures Clean(s) && answered
  {
    var s' := Looking(s, w, answered);
    FailureShows(s, w);
    forall k | 0 <= k < |s.attempts| ensures s.attempts[k].ok { assert s'.attempts[k] == s.attempts[k]; }
    forall k | 0 <= k < |s.workers| && s.workers[k].Handling? ensures !s.workers[k].spoilt {
      if k != w { assert s'.workers[k] == s.workers[k]; } else { assert WorkerOrderly(s.workers[w]); }
    }
  }

  // The last write of the last call completes the run.
  lemma LandingCompletes(s: State, w: nat, i: nat)
    requires w < |s.workers| && CanLand(s.workers[w], i) && !s.workers[w].spoilt && s.workers[w].looked
    requires Tried(s.workers[w], i, Done).left == {}
    requires s.workers[w].at + 1 == |Plan(s.workers[w].event, s.workers[w].found)|
    ensures var h, h' := s.workers[w], Tried(s.workers[w], i, Done);
            var t := s.(store := Apply(s.store, WriteAt(h, i)));
            Landing(s, w, i, Done) == Returning(SetWorker(t, w, h'.(at := h.at + 1)), w, true)
  {
  }

  lemma ContextWriteFacts(h: Worker, i: nat)
    requires CanLand(h, i) && WorkerOrderly(h) && WriteAt(h, i).ToContext?
    ensures h.at + 1 == |Plan(h.event, h.found)| && h.looked && Tried(h, i, Done).left == {}
    ensures h.event.OrderPlaced? && WriteAt(h, i) == ToContext(h.event.orderId, ContextOf(h.event))
  {
    assert InPlan(Plan(h.event, h.found), h.at, i);
    ContextCallIsLast(h.event, h.found, h.at, i);
  }

  lemma ContextSaved(s: State, h: Worker, i: nat)
    requires CanLand(h, i) && WorkerOrderly(h) && WriteAt(h, i).ToContext?
    ensures h.event.OrderPlaced? && h.looked && h.at + 1 == |Plan(h.event, h.found)| && Tried(h, i, Done).left == {}
    ensures h.found == Lookup(s.store.contexts, h.event)
    ensures Apply(s.store, WriteAt(h, i)).contexts == s.store.contexts[h.event.orderId := ContextOf(h.event)]
  {
    ContextWriteFacts(h, i);
  }

  // The context row lands: the order.placed run is complete with it.
  lemma ContextLandsInLine(s: State, w: nat, i: nat, truth: map<string, OrderContext>)
    requires InLine(s, truth) && Agreeing(s, truth)
    requires w < |s.workers| && CanLand(s.workers[w], i) && WorkerOrderly(s.workers[w])
    requires !s.workers[w].spoilt && s.workers[w].msg in s.published
    requires WriteAt(s.workers[w], i).ToContext?
    ensures InLine(Landing(s, w, i, Done), truth)
  {
    var h := s.workers[w];
    ContextSaved(s, h, i);
    PlacedTruth(s, h, truth);
    LandingCompletes(s, w, i);
    CompletedByLanding(s, w, i, truth);
  }

  // The last write of a run has landed and taken its place in the line.
  lemma CompletedByLanding(s: State, w: nat, i: nat, truth: map<string, OrderContext>)
    requires InLine(s, truth) && w < |s.workers| && CanLand(s.workers[w], i)
    requires var h, st := s.workers[w], Apply(s.store, WriteAt(s.workers[w], i));
             && h.found == Lookup(s.store.contexts, h.event)
             && (h.event.OrderPlaced? ==> h.event.orderId in truth && truth[h.event.orderId] == ContextOf(h.event))
             && st.contexts ==
                  if h.event.OrderPlaced? then s.store.contexts[h.event.orderId := ContextOf(h.event)]
                  else s.store.contexts
    ensures var h, h' := s.workers[w], Tried(s.workers[w], i, Done);
            var t := SetWorker(s.(store := Apply(s.store, WriteAt(h, i))), w, h'.(at := h.at + 1));
            InLine(Returning(t, w, true), truth)
  {
    var h, h' := s.workers[w], Tried(s.workers[w], i, Done);
    var h'' := h'.(at := h.at + 1);
    OkReturn(s, SetWorker(s.(store := Apply(s.store, WriteAt(h, i))), w, h''), w, h'', truth);
  }

  lemma PlacedTruth(s: State, h: Worker, truth: map<string, OrderContext>)
    requires Agreeing(s, truth) && WorkerOrderly(h) && h.Handling? && h.event.OrderPlaced? && h.msg in s.published
    ensures h.event.orderId in truth && truth[h.event.orderId] == ContextOf(h.event)
  {
  }

  lemma TriedWorkerInLine(h: Worker, i: nat, contexts: map<string, OrderContext>, at: nat, left: set<nat>)
    requires WorkerInLine(h, contexts) && CanLand(h, i) && !WriteAt(h, i).ToContext? && at >= h.at
    ensures var h' := Tried(h, i, Done); WorkerInLine(h'.(at := at, left := left), contexts)
  {
  }

  // The handler run after a write that does not end it.
  function GoneOn(h: Worker, i: nat): Worker
    requires CanLand(h, i)
  {
    var h', p := Tried(h, i, Done), Plan(h.event, h.found);
    var at := if h'.left == {} then h.at + 1 else h.at;
    h'.(at := at, left := if h'.left == {} && at < |p| then Indices(p[at]) else h'.left)
  }

  lemma LandingGoesOn(s: State, w: nat, i: nat)
    requires w < |s.workers| && CanLand(s.workers[w], i)
    requires !s.workers[w].spoilt
    requires Tried(s.workers[w], i, Done).left != {}
             || s.workers[w].at + 1 < |Plan(s.workers[w].event, s.workers[w].found)|
             || !s.workers[w].looked
    ensures Landing(s, w, i, Done) ==
            s.(store := Apply(s.store, WriteAt(s.workers[w], i)), workers := s.workers[w := GoneOn(s.workers[w], i)])
  {
  }

  // Any other write lands within a run that goes on.
  lemma OtherLandsInLine(s: State, w: nat, i: nat, truth: map<string, OrderContext>)
    requires InLine(s, truth)
    requires w < |s.workers| && CanLand(s.workers[w], i)
    requires !s.workers[w].spoilt && !WriteAt(s.workers[w], i).ToContext?
    requires Tried(s.workers[w], i, Done).left != {}
             || s.workers[w].at + 1 < |Plan(s.workers[w].event, s.workers[w].found)|
             || !s.workers[w].looked
    ensures InLine(Landing(s, w, i, Done), truth)
  {
    var h := s.workers[w];
    var x := GoneOn(h, i);
    TriedWorkerInLine(h, i, s.store.contexts, x.at, x.left);
    LandingGoesOn(s, w, i);
    MovedInLine(s, s.(store := Apply(s.store, WriteAt(h, i)), workers := s.workers[w := x]), w, x, truth);
  }

  lemma FoundAtTheEnd(h: Worker, contexts: map<string, OrderContext>, i: nat)
    requires WorkerOrderly(h) && WorkerInLine(h, contexts) && CanLand(h, i) && h.looked
    ensures h.found == Lookup(contexts, h.event)
  {
  }

  lemma NotPlacedAtTheEnd(h: Worker, i: nat)
    requires CanLand(h, i) && h.at + 1 == |Plan(h.event, h.found)| && !WriteAt(h, i).ToContext?
    ensures !h.event.OrderPlaced?
  {
    assert InPlan(Plan(h.event, h.found), h.at, i);
  }

  // The last write of a run without a context row to write.
  lemma LastLandsInLine(s: State, w: nat, i: nat, truth: map<string, OrderContext>)
    requires InLine(s, truth)
    requires w < |s.workers| && CanLand(s.workers[w], i) && WorkerOrderly(s.workers[w])
    requires !s.workers[w].spoilt && !WriteAt(s.workers[w], i).ToContext?
    requires Tried(s.workers[w], i, Done).left == {} && s.workers[w].looked
    requires s.workers[w].at + 1 == |Plan(s.workers[w].event, s.workers[w].found)|
    ensures InLine(Landing(s, w, i, Done), truth)
  {
    var h := s.workers[w];
    FoundAtTheEnd(h, s.store.contexts, i);
    NotPlacedAtTheEnd(h, i);
    LandingCompletes(s, w, i);
    CompletedByLanding(s, w, i, truth);
  }

  lemma LandingInLine(s: State, w: nat, i: nat, truth: map<string, OrderContext>)
    requires InLine(s, truth) && AllOrderly(s) && Agreeing(s, truth)
    requires w < |s.workers| && CanLand(s.workers[w], i) && !s.workers[w].spoilt && s.workers[w].msg in s.published
    ensures InLine(Landing(s, w, i, Done), truth)
  {
    var h := s.workers[w];
    if WriteAt(h, i).ToContext? {
      ContextLandsInLine(s, w, i, truth);
    } else if Tried(h, i, Done).left == {} && h.at + 1 == |Plan(h.event, h.found)| && h.looked {
      LastLandsInLine(s, w, i, truth);
    } else {
      OtherLandsInLine(s, w, i, truth);
    }
  }

  lemma LookingInLine(s: State, w: nat, truth: map<string, OrderContext>)
    requires InLine(s, truth) && AllOrderly(s)
    requires w < |s.workers| && Looking(s, w, true) != s
    ensures InLine(Looking(s, w, true), truth)
  {
    var h := s.workers[w];
    assert WorkerOrderly(h) && WorkerInLine(h, s.store.contexts);
    var h' := h.(looked := true, found := Lookup(s.store.contexts, h.event));
    var p := Plan(h'.event, h'.found);
    if h'.at < |p| {
      MovedInLine(s, Looking(s, w, true), w, h'.(left := Indices(p[h'.at])), truth);
    } else {
      OkReturn(s, SetWorker(s, w, h'), w, h', truth);
    }
  }

  // What carries the argument along a run.
  ghost predicate Invariant(s: State) {
    NothingLost(s) && AllOrderly(s)
  }

  lemma {:induction false} RunKeepsInvariant(n: nat, hasDlx: bool, run: seq<Action>)
    ensures Invariant(Exec(Initial(n, hasDlx), run))
  {
    RunLosesNothing(n, hasDlx, run);
    RunKeepsCounters(n, hasDlx, run, At(RestaurantCell(DayKey(0, 0), Orders)));
  }

  lemma QuietWasClean(s: State, s': State, w: nat)
    requires Quiet(s, s', w) && Clean(s')
    ensures Clean(s)
  {
    forall k | 0 <= k < |s.workers| && s.workers[k].Handling? ensures !s.workers[k].spoilt {
      assert s'.workers[k] == s.workers[k];
    }
  }

  lemma CrashShows(s: State, w: nat)
    requires w < |s.workers| && WorkerOrderly(s.workers[w])
    ensures s.workers[w].Handling? ==> !Clean(Crashing(s, w))
  {
    if s.workers[w].Handling? { assert !Crashing(s, w).attempts[|s.attempts|].ok; }
  }

  lemma CrashWasClean(s: State, w: nat)
    requires AllOrderly(s) && w < |s.workers| && Clean(Crashing(s, w))
    ensures Clean(s) && !s.workers[w].Handling?
  {
    CrashShows(s, w);
    forall k | 0 <= k < |s.workers| && s.workers[k].Handling? ensures !s.workers[k].spoilt {
      assert Crashing(s, w).workers[k] == s.workers[k];
    }
  }

  lemma StepWasClean(s: State, a: Action)
    requires AllOrderly(s) && Clean(Step(s, a))
    ensures Clean(s)
  {
    var s' := Step(s, a);
    if a.Publish? || a.Replay? {
    } else if a.w < |s.workers| {
      if a.Land? {
        if CanLand(s.workers[a.w], a.i) { LandingWasClean(s, a.w, a.i, a.fate); }
      } else if a.Look? {
        if s' != s { LookingWasClean(s, a.w, a.answered); }
      } else if a.Crash? {
        CrashWasClean(s, a.w);
      } else {
        OutsideQuiet(s, a);
        if s' != s { QuietWasClean(s, s', a.w); }
      }
    }
  }

  lemma QuietInLine(s: State, s': State, w: nat, truth: map<string, OrderContext>)
    requires InLine(s, truth) && Quiet(s, s', w)
    ensures InLine(s', truth)
  {
    MovedInLine(s, s', w, s'.workers[w], truth);
  }

  lemma HandlerInLine(s: State, a: Action, truth: map<string, OrderContext>)
    requires (a.Land? || a.Look?) && a.w < |s.workers|
    requires Invariant(s) && InLine(s, truth) && Agreeing(s, truth) && Clean(s) && Clean(Step(s, a))
    ensures InLine(Step(s, a), truth)
  {
    if a.Land? && CanLand(s.workers[a.w], a.i) {
      LandingWasClean(s, a.w, a.i, a.fate);
      LandingInLine(s, a.w, a.i, truth);
    }
    if a.Look? && Step(s, a) != s {
      LookingWasClean(s, a.w, a.answered);
      LookingInLine(s, a.w, truth);
    }
  }

  lemma StepInLine(s: State, a: Action, truth: map<string, OrderContext>)
    requires Invariant(s) && InLine(s, truth) && Agreeing(s, truth) && Clean(s) && Clean(Step(s, a))
    ensures InLine(Step(s, a), truth)
  {
    var s' := Step(s, a);
    if a.Publish? || a.Replay? {
      assert s'.attempts == s.attempts && s'.workers == s.workers && s'.store == s.store;
    } else if a.w < |s.workers| {
      if a.Land? || a.Look? {
        HandlerInLine(s, a, truth);
      } else if a.Crash? {
        CrashWasClean(s, a.w);
        if s' != s { MovedInLine(s, s', a.w, Idle, truth); }
      } else {
        OutsideQuiet(s, a);
        if s' != s { QuietInLine(s, s', a.w, truth); }
      }
    }
  }

  lemma AgreedBefore(s: State, a: Action, truth: map<string, OrderContext>)
    requires NothingLost(s) && Agreeing(Step(s, a), truth)
    ensures Agreeing(s, truth)
  {
    if !a.Publish? && !a.Replay? && a.w < |s.workers| { ActionTraffic(s, a, a.w); }
  }

  lemma {:induction false} RunInLine(n: nat, hasDlx: bool, run: seq<Action>, truth: map<string, OrderContext>)
    requires Clean(Exec(Initial(n, hasDlx), run)) && Agreeing(Exec(Initial(n, hasDlx), run), truth)
    ensures InLine(Exec(Initial(n, hasDlx), run), truth)
  {
    if run == [] {
      assert EventsOf([]) == [];
    } else {
      var before, a := run[..|run| - 1], run[|run| - 1];
      var s := Exec(Initial(n, hasDlx), before);
      RunKeepsInvariant(n, hasDlx, before);
      StepWasClean(s, a);
      AgreedBefore(s, a, truth);
      RunInLine(n, hasDlx, before, truth);
      StepInLine(s, a, truth);
    }
  }

  lemma AttemptShares(s: State, g: Gauge, truth: map<string, OrderContext>, k: nat)
    requires AllOrderly(s) && Clean(s) && InLine(s, truth) && k < |s.attempts|
    ensures |Trail(EventsOf(s.attempts))| == |s.attempts|
    ensures LandedBy(g)(s.attempts[k]) == ShareOf(g)(Trail(EventsOf(s.attempts))[k])
  {
    TrailEntries(EventsOf(s.attempts));
    SuccessLandsItsShare(s.attempts[k], g);
  }

  lemma SequentialReads(s: State, g: Gauge, truth: map<string, OrderContext>)
    requires AllOrderly(s) && Accounts(s, g) && Clean(s) && InLine(s, truth)
    requires forall h :: h in s.workers ==> !h.Handling?
    ensures Read(s.store, g) == Read(RunAll(EventsOf(s.attempts)), g)
  {
    var h := EventsOf(s.attempts);
    NoneInFlight(s.workers, g);
    RunReads(h, g);
    TrailEntries(h);
    forall k | 0 <= k < |s.attempts| ensures LandedBy(g)(s.attempts[k]) == ShareOf(g)(Trail(h)[k]) {
      AttemptShares(s, g, truth, k);
    }
    SumEqual(s.attempts, LandedBy(g), Trail(h), ShareOf(g));
  }

  // If all published order.placed events of one order carry the same context, then
  // handling the completed events in the order of completion explains the store.
  lemma CompletionOrderExplains(n: nat, hasDlx: bool, run: seq<Action>, truth: map<string, OrderContext>)
    requires var s := Exec(Initial(n, hasDlx), run);
             && Clean(s) && Agreeing(s, truth) && (forall h :: h in s.workers ==> !h.Handling?)
    ensures var s := Exec(Initial(n, hasDlx), run);
            && s.store.contexts == RunAll(EventsOf(s.attempts)).contexts
            && forall cell :: ReadCell(s.store, cell) == ReadCell(RunAll(EventsOf(s.attempts)), cell)
  {
    var s := Exec(Initial(n, hasDlx), run);
    RunInLine(n, hasDlx, run, truth);
    RunContexts(EventsOf(s.attempts));
    forall cell ensures ReadCell(s.store, cell) == ReadCell(RunAll(EventsOf(s.attempts)), cell) {
      RunKeepsCounters(n, hasDlx, run, At(cell));
      SequentialReads(s, At(cell), truth);
    }
  }

  // ---------- A drained system ----------

  ghost predicate AttemptsPublished(s: State) {
    forall k :: 0 <= k < |s.attempts| ==> Envelope(s.attempts[k].id, Carries(s.attempts[k].event)) in s.published
  }

  // A run enters the record under its own message's id and event.
  ghost predicate Enters(s: State, s': State, w: nat) {
    && s.published <= s'.published
    && (|| s'.attempts == s.attempts
        || (&& w < |s.workers| && s.workers[w].Handling? && s.workers[w].msg.Envelope?
            && exists a ::
                 s'.attempts == s.attempts + [a] && a.id == s.workers[w].msg.id && a.event == s.workers[w].event))
  }

  lemma AdvancingEnters(s: State, w: nat, ok: bool)
    requires w < |s.workers| && s.workers[w].Handling? && s.workers[w].msg.Envelope?
    ensures Enters(s, Returning(s, w, ok), w) && Enters(s, Advancing(s, w), w)
  {
    var h := s.workers[w];
    var a, b := Attempt(h.msg.id, h.event, h.found, h.landed, ok), Attempt(h.msg.id, h.event, h.found, h.landed, true);
    assert Returning(s, w, ok).attempts == s.attempts + [a];
    assert Returning(s, w, true).attempts == s.attempts + [b];
  }

  lemma LandingEnters(s: State, w: nat, i: nat, fate: Fate)
    requires w < |s.workers| && CanLand(s.workers[w], i)
    ensures Enters(s, Landing(s, w, i, fate), w)
  {
    var h := s.workers[w];
    var h', store := Tried(h, i, fate), Stored(s.store, h, i, fate);
    if h'.left == {} {
      AdvancingEnters(SetWorker(s.(store := store), w, if h'.spoilt then h' else h'.(at := h.at + 1)), w, false);
    }
  }

  lemma LookingEnters(s: State, w: nat, answered: bool)
    requires w < |s.workers| && Looking(s, w, answered) != s
    ensures Enters(s, Looking(s, w, answered), w)
  {
    var h := s.workers[w];
    if answered {
      AdvancingEnters(SetWorker(s, w, h.(looked := true, found := Lookup(s.store.contexts, h.event))), w, true);
    } else {
      AdvancingEnters(s, w, false);
    }
  }

  lemma CrashingEnters(s: State, w: nat)
    requires w < |s.workers|
    ensures Enters(s, Crashing(s, w), w)
  {
    var h := s.workers[w];
    if h.Handling? && Holding(h) {
      assert Crashing(s, w).attempts == s.attempts + [Attempt(h.msg.id, h.event, h.found, h.landed, false)];
    }
  }

  lemma ActionEnters(s: State, a: Action)
    requires !a.Publish? && !a.Replay? && a.w < |s.workers|
    ensures Enters(s, Step(s, a), a.w)
  {
    var w := a.w;
    ActionTraffic(s, a, w);
    if a.Land? {
      if CanLand(s.workers[w], a.i) { LandingEnters(s, w, a.i, a.fate); }
    } else if a.Look? {
      if Step(s, a) != s { LookingEnters(s, w, a.answered); }
    } else if a.Crash? {
      CrashingEnters(s, w);
    } else {
      OutsideQuiet(s, a);
    }
  }

  lemma StepKeepsAttemptsPublished(s: State, a: Action)
    requires AttemptsPublished(s) && Invariant(s)
    ensures AttemptsPublished(Step(s, a))
  {
    if !a.Publish? && !a.Replay? && a.w < |s.workers| {
      ActionEnters(s, a);
      assert WorkerOrderly(s.workers[a.w]);
    }
  }

  lemma {:induction false} RunKeepsAttemptsPublished(n: nat, hasDlx: bool, run: seq<Action>)
    ensures AttemptsPublished(Exec(Initial(n, hasDlx), run))
  {
    if run != [] {
      var before := run[..|run| - 1];
      RunKeepsAttemptsPublished(n, hasDlx, before);
      RunKeepsInvariant(n, hasDlx, before);
      StepKeepsAttemptsPublished(Exec(Initial(n, hasDlx), before), run[|run| - 1]);
    }
  }

  lemma AgreeingIsConsistent(s: State, truth: map<string, OrderContext>)
    requires AttemptsPublished(s) && Agreeing(s, truth)
    ensures Consistent(EventsOf(s.attempts))
  {
    var h := EventsOf(s.attempts);
    forall i, j | 0 <= i < |h| && 0 <= j < |h| && h[i].OrderPlaced? && h[j].OrderPlaced? && h[i].orderId == h[j].orderId
      ensures ContextOf(h[i]) == ContextOf(h[j])
    {
      assert Envelope(s.attempts[i].id, Carries(h[i])) in s.published;
      assert Envelope(s.attempts[j].id, Carries(h[j])) in s.published;
    }
  }

  // A drained run: every published event of a handled type has completed exactly
  // once, and the counters are the order-independent ones if and only if no event
  // completed ahead of its order's placed event.
  lemma DrainedRun(n: nat, run: seq<Action>, truth: map<string, OrderContext>)
    requires var s := Exec(Initial(n, true), run);
             && Clean(s) && Agreeing(s, truth) && (forall h :: h in s.workers ==> h.Idle?)
             && s.queue == multiset{} && s.dlq == multiset{} && s.stuck == {}
             && forall id :: Envelope(id, Unregistered) !in s.published
    ensures var s := Exec(Initial(n, true), run);
            && (forall m :: m in s.published && m.Envelope? ==>
                  exists k :: 0 <= k < |s.attempts| && s.attempts[k].id == m.id)
            && (forall j, k :: 0 <= j < k < |s.attempts| ==> s.attempts[j].id != s.attempts[k].id)
            && ((forall cell :: ReadCell(s.store, cell) == Ideal(EventsOf(s.attempts), At(cell)))
                <==> Causal(EventsOf(s.attempts)))
  {
    var s := Exec(Initial(n, true), run);
    var h := EventsOf(s.attempts);
    AtMostOnce(n, true, run);
    forall m | m in s.published && m.Envelope? ensures exists k :: 0 <= k < |s.attempts| && s.attempts[k].id == m.id {
      NoSilentLoss(n, run, m);
    }
    RunKeepsAttemptsPublished(n, true, run);
    AgreeingIsConsistent(s, truth);
    CompletionOrderExplains(n, true, run, truth);
    ConvergesExactlyWhenCausal(h);
    if forall cell :: ReadCell(s.store, cell) == Ideal(h, At(cell)) {
      forall cell ensures ReadCell(RunAll(h), cell) == Ideal(h, At(cell)) {
        assert ReadCell(s.store, cell) == Ideal(h, At(cell));
      }
    }
  }
}
