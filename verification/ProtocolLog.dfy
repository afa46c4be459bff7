// All handler runs of a state, finished or under way, the log of the writes they
// landed, and where the contexts they looked up came from.
module ProtocolLog {
  import opened Events
  import opened Sums
  import opened Aggregates
  import opened Runs
  import opened Protocol
  import opened ProtocolCounters
  import opened ProtocolAccounting

  // ---------- Runs ----------

  // A run under way, as an attempt that has not succeeded.
  function RunOf(h: Worker): Attempt
    requires h.Handling? && h.msg.Envelope?
  {
    Attempt(h.msg.id, h.event, h.found, h.landed, false)
  }

  ghost predicate IsRun(s: State, r: Attempt) {
    || r in s.attempts
    || exists i ::
         0 <= i < |s.workers| && s.workers[i].Handling? && s.workers[i].msg.Envelope? && RunOf(s.workers[i]) == r
  }

  // What a run can have become after one more action.
  ghost predicate Follows(s: State, r: Attempt, r': Attempt) {
    && r'.id == r.id && r'.event == r.event && r.landed <= r'.landed
    && (r'.found == r.found || r'.found == Lookup(s.store.contexts, r.event))
  }

  // An action of worker w moves its run on, ends it, or starts an empty one.
  ghost predicate Grows(s: State, s': State, w: nat) {
    && w < |s.workers| == |s'.workers| && s'.workers == s.workers[w := s'.workers[w]]
    && (s'.workers[w].Handling? ==> s'.workers[w].msg.Envelope?)
    && if s.workers[w].Handling? && s.workers[w].msg.Envelope? then
         if s'.workers[w].Handling? then
           s'.attempts == s.attempts && Follows(s, RunOf(s.workers[w]), RunOf(s'.workers[w]))
         else
           exists a :: s'.attempts == s.attempts + [a] && Follows(s, RunOf(s.workers[w]), a)
       else
         && s'.attempts == s.attempts
         && (s'.workers[w].Handling? ==> s'.workers[w].found.None? && s'.workers[w].landed == [])
  }

  lemma ReturningGrows(s: State, t: State, w: nat, h: Worker, ok: bool)
    requires w < |s.workers| && s.workers[w].Handling? && s.workers[w].msg.Envelope?
    requires h.Handling? && h.msg.Envelope? && Follows(s, RunOf(s.workers[w]), RunOf(h))
    requires t.workers == s.workers[w := h] && t.attempts == s.attempts
    ensures Grows(s, Returning(t, w, ok), w)
  {
    var a := Attempt(h.msg.id, h.event, h.found, h.landed, ok);
    assert Returning(t, w, ok).attempts == s.attempts + [a];
    assert Follows(s, RunOf(s.workers[w]), a);
  }

  lemma AdvancingGrows(s: State, t: State, w: nat, h: Worker)
    requires w < |s.workers| && s.workers[w].Handling? && s.workers[w].msg.Envelope?
    requires h.Handling? && h.msg.Envelope? && Follows(s, RunOf(s.workers[w]), RunOf(h))
    requires t.workers == s.workers[w := h] && t.attempts == s.attempts
    ensures Grows(s, t, w) && Grows(s, Advancing(t, w), w)
  {
    ReturningGrows(s, t, w, h, true);
  }

  lemma TriedFollows(s: State, h: Worker, i: nat, fate: Fate, at: nat)
    requires CanLand(h, i)
    ensures var h' := Tried(h, i, fate); Follows(s, RunOf(h), RunOf(h'.(at := at)))
  {
  }

  lemma LandingGrows(s: State, w: nat, i: nat, fate: Fate)
    requires w < |s.workers| && CanLand(s.workers[w], i)
    ensures Grows(s, Landing(s, w, i, fate), w)
  {
    var h := s.workers[w];
    var tried, store := Tried(h, i, fate), Stored(s.store, h, i, fate);
    var at := if tried.left == {} && !tried.spoilt then h.at + 1 else h.at;
    var h' := tried.(at := at);
    var t := SetWorker(s.(store := store), w, h');
    assert tried.(at := h.at) == tried;
    TriedFollows(s, h, i, fate, at);
    if tried.left == {} && tried.spoilt { ReturningGrows(s, t, w, h', false); } else { AdvancingGrows(s, t, w, h'); }
  }

  lemma LookingGrows(s: State, w: nat, answered: bool)
    requires w < |s.workers| && Looking(s, w, answered) != s
    ensures Grows(s, Looking(s, w, answered), w)
  {
    var h := s.workers[w];
    if answered {
      var h' := h.(looked := true, found := Lookup(s.store.contexts, h.event));
      AdvancingGrows(s, SetWorker(s, w, h'), w, h');
    } else {
      assert s.workers[w := h] == s.workers;
      ReturningGrows(s, s, w, h, false);
    }
  }

  lemma CrashingGrows(s: State, w: nat)
    requires w < |s.workers| && WorkerOrderly(s.workers[w]) && Crashing(s, w) != s
    ensures Grows(s, Crashing(s, w), w)
  {
    var h := s.workers[w];
    if h.Handling? {
      assert Crashing(s, w).attempts == s.attempts + [RunOf(h)];
      assert Follows(s, RunOf(h), RunOf(h));
    }
  }

  lemma ActionGrows(s: State, a: Action)
    requires AllOrderly(s) && !a.Publish? && !a.Replay? && a.w < |s.workers|
    ensures Step(s, a) == s || Grows(s, Step(s, a), a.w)
  {
    var w := a.w;
    if a.Land? {
      if CanLand(s.workers[w], a.i) { LandingGrows(s, w, a.i, a.fate); }
    } else if a.Look? {
      if Step(s, a) != s { LookingGrows(s, w, a.answered); }
    } else if a.Crash? {
      if Step(s, a) != s { CrashingGrows(s, w); }
    } else {
      OutsideQuiet(s, a);
    }
  }

  lemma RunsMoveOn(s: State, s': State, w: nat)
    requires AllOrderly(s) && Grows(s, s', w)
    ensures forall r :: IsRun(s, r) ==> exists r' :: IsRun(s', r') && Follows(s, r, r')
    ensures forall r' :: IsRun(s', r') ==> r'.found.None? || exists r :: IsRun(s, r) && Follows(s, r, r')
  {
    forall r | IsRun(s, r) ensures exists r' :: IsRun(s', r') && Follows(s, r, r') {
      if r in s.attempts {
        assert IsRun(s', r) && Follows(s, r, r);
      } else {
        var i :| 0 <= i < |s.workers| && s.workers[i].Handling? && s.workers[i].msg.Envelope?
          && RunOf(s.workers[i]) == r;
        if i != w || s'.workers[w].Handling? {
          assert IsRun(s', RunOf(s'.workers[i])) && Follows(s, r, RunOf(s'.workers[i]));
        } else {
          var a :| s'.attempts == s.attempts + [a] && Follows(s, r, a);
          assert IsRun(s', a);
        }
      }
    }
    forall r' | IsRun(s', r') ensures r'.found.None? || exists r :: IsRun(s, r) && Follows(s, r, r') {
      if r' in s.attempts {
        assert IsRun(s, r') && Follows(s, r', r');
      } else if r' in s'.attempts {
        assert IsRun(s, RunOf(s.workers[w])) && Follows(s, RunOf(s.workers[w]), r');
      } else {
        var i :| 0 <= i < |s'.workers| && s'.workers[i].Handling? && s'.workers[i].msg.Envelope?
          && RunOf(s'.workers[i]) == r';
        if s.workers[i].Handling? {
          assert WorkerOrderly(s.workers[i]) && IsRun(s, RunOf(s.workers[i])) && Follows(s, RunOf(s.workers[i]), r');
        }
      }
    }
  }

  lemma RunsAreOrderly(s: State, r: Attempt)
    requires AllOrderly(s) && IsRun(s, r)
    ensures Orderly(r.landed, Plan(r.event, r.found))
  {
    if r in s.attempts {
      var k :| 0 <= k < |s.attempts| && s.attempts[k] == r;
      assert AttemptOrderly(s.attempts[k]);
    } else {
      var i :| 0 <= i < |s.workers| && s.workers[i].Handling? && s.workers[i].msg.Envelope? && RunOf(s.workers[i]) == r;
      WorkerRunOrderly(s.workers[i]);
    }
  }

  lemma SourcedByRun(s: State, x: Write)
    requires AllOrderly(s)
    ensures Sourced(s, x) <==> exists r :: IsRun(s, r) && x in r.landed
  {
    if k :| 0 <= k < |s.attempts| && x in s.attempts[k].landed {
      assert IsRun(s, s.attempts[k]);
    }
    if i :| 0 <= i < |s.workers| && s.workers[i].Handling? && x in s.workers[i].landed {
      assert WorkerOrderly(s.workers[i]) && IsRun(s, RunOf(s.workers[i]));
    }
    if r :| IsRun(s, r) && x in r.landed {
      if r in s.attempts { var k :| 0 <= k < |s.attempts| && s.attempts[k] == r; }
    }
  }

  // ---------- What a lookup found had been saved ----------

  ghost predicate FoundSaved(s: State) {
    forall r :: IsRun(s, r) && r.found.Some? ==>
      NeedsContext(r.event) && Sourced(s, ToContext(r.event.orderId, r.found.value))
  }

  lemma MovingOnKeepsFound(s: State, s': State, w: nat)
    requires AllOrderly(s) && AllOrderly(s') && Grows(s, s', w)
    requires ContextsSourced(s) && FoundSaved(s)
    ensures FoundSaved(s')
  {
    RunsMoveOn(s, s', w);
    forall x | Sourced(s, x) ensures Sourced(s', x) {
      SourcedByRun(s, x);
      SourcedByRun(s', x);
      var r :| IsRun(s, r) && x in r.landed;
      var r' :| IsRun(s', r') && Follows(s, r, r');
      assert x in r'.landed;
    }
    forall r' | IsRun(s', r') && r'.found.Some?
      ensures NeedsContext(r'.event) && Sourced(s', ToContext(r'.event.orderId, r'.found.value))
    {
      var r :| IsRun(s, r) && Follows(s, r, r');
    }
  }

  lemma StepKeepsFound(s: State, a: Action)
    requires AllOrderly(s) && AllOrderly(Step(s, a)) && ContextsSourced(s) && FoundSaved(s)
    ensures FoundSaved(Step(s, a))
  {
    var s' := Step(s, a);
    if a.Publish? || a.Replay? {
      assert s'.attempts == s.attempts && s'.workers == s.workers;
      forall r ensures IsRun(s', r) <==> IsRun(s, r) {}
      forall x ensures Sourced(s', x) <==> Sourced(s, x) {}
    } else if a.w < |s.workers| {
      ActionGrows(s, a);
      if s' != s { MovingOnKeepsFound(s, s', a.w); }
    }
  }

  lemma {:induction false} RunKeepsFound(n: nat, hasDlx: bool, run: seq<Action>)
    ensures FoundSaved(Exec(Initial(n, hasDlx), run))
  {
    if run != [] {
      var before, g := run[..|run| - 1], At(RestaurantCell(DayKey(0, 0), Orders));
      RunKeepsFound(n, hasDlx, before);
      RunKeepsSources(n, hasDlx, before);
      RunKeepsCounters(n, hasDlx, before, g);
      RunKeepsCounters(n, hasDlx, run, g);
      StepKeepsFound(Exec(Initial(n, hasDlx), before), run[|run| - 1]);
    }
  }

  // ---------- The log of landed writes ----------

  datatype Landed = Landed(event: Event, found: Option<OrderContext>, write: Write)

  function Entries(e: Event, found: Option<OrderContext>, ws: seq<Write>): seq<Landed> {
    seq(|ws|, i requires 0 <= i < |ws| => Landed(e, found, ws[i]))
  }

  function EntriesOf(): Attempt -> seq<Landed> {
    (a: Attempt) => Entries(a.event, a.found, a.landed)
  }

  function EntriesSoFar(): Worker -> seq<Landed> {
    (h: Worker) => if h.Handling? then Entries(h.event, h.found, h.landed) else []
  }

  // Every write that has landed, with the event and lookup of the run it was for.
  function Log(s: State): seq<Landed> {
    Gather(s.attempts, EntriesOf()) + Gather(s.workers, EntriesSoFar())
  }

  function Worth(g: Gauge): Landed -> int {
    (x: Landed) => Delta(x.write, g)
  }

  lemma EntriesWorth(e: Event, found: Option<OrderContext>, ws: seq<Write>, g: Gauge)
    ensures Sum(Entries(e, found, ws), Worth(g)) == Sum(ws, DeltaOf(g))
  {
    SumEqual(Entries(e, found, ws), Worth(g), ws, DeltaOf(g));
  }

  // Every counter and total is what the log adds up to.
  lemma LogReads(n: nat, hasDlx: bool, run: seq<Action>, g: Gauge)
    ensures var s := Exec(Initial(n, hasDlx), run);
            Read(s.store, g) == Sum(Log(s), Worth(g))
  {
    var s := Exec(Initial(n, hasDlx), run);
    RunKeepsCounters(n, hasDlx, run, g);
    forall a ensures Sum(EntriesOf()(a), Worth(g)) == LandedBy(g)(a) { EntriesWorth(a.event, a.found, a.landed, g); }
    GatherSum(s.attempts, EntriesOf(), Worth(g), LandedBy(g));
    forall h ensures Sum(EntriesSoFar()(h), Worth(g)) == RunningLanded(g)(h) {
      if h.Handling? { EntriesWorth(h.event, h.found, h.landed, g); }
    }
    GatherSum(s.workers, EntriesSoFar(), Worth(g), RunningLanded(g));
    SumConcat(Gather(s.attempts, EntriesOf()), Gather(s.workers, EntriesSoFar()), Worth(g));
  }

  ghost predicate LandedIn(r: Attempt, x: Landed) {
    x.event == r.event && x.found == r.found && x.write in r.landed
  }

  lemma EntryMeans(e: Event, found: Option<OrderContext>, ws: seq<Write>, x: Landed)
    ensures x in Entries(e, found, ws) <==> x.event == e && x.found == found && x.write in ws
  {
    if x.event == e && x.found == found && x.write in ws {
      var i :| 0 <= i < |ws| && ws[i] == x.write;
      assert Entries(e, found, ws)[i] == x;
    }
  }

  lemma LoggedIsLanded(s: State, x: Landed) returns (r: Attempt)
    requires AllOrderly(s) && x in Log(s)
    ensures IsRun(s, r) && LandedIn(r, x)
  {
    if x in Gather(s.attempts, EntriesOf()) {
      GatherMembers(s.attempts, EntriesOf(), x);
      var k :| 0 <= k < |s.attempts| && x in EntriesOf()(s.attempts[k]);
      r := s.attempts[k];
      EntryMeans(r.event, r.found, r.landed, x);
    } else {
      GatherMembers(s.workers, EntriesSoFar(), x);
      var i :| 0 <= i < |s.workers| && x in EntriesSoFar()(s.workers[i]);
      assert WorkerOrderly(s.workers[i]);
      r := RunOf(s.workers[i]);
      EntryMeans(r.event, r.found, r.landed, x);
    }
  }

  lemma LandedIsLogged(s: State, x: Landed, r: Attempt)
    requires AllOrderly(s) && IsRun(s, r) && LandedIn(r, x)
    ensures x in Log(s)
  {
    EntryMeans(r.event, r.found, r.landed, x);
    if r in s.attempts {
      var k :| 0 <= k < |s.attempts| && s.attempts[k] == r;
      assert x in EntriesOf()(s.attempts[k]);
      GatherMembers(s.attempts, EntriesOf(), x);
    } else {
      var i :| 0 <= i < |s.workers| && s.workers[i].Handling? && s.workers[i].msg.Envelope? && RunOf(s.workers[i]) == r;
      assert x in EntriesSoFar()(s.workers[i]);
      GatherMembers(s.workers, EntriesSoFar(), x);
    }
  }

  // A logged write is one of its event's plan.
  ghost predicate Planned(x: Landed) {
    exists b, i :: InPlan(Plan(x.event, x.found), b, i) && Plan(x.event, x.found)[b][i] == x.write
  }

  // Entry y is for the order.placed that left what x's handler found, and all of
  // that plan is in the log.
  ghost predicate PlacedFor(s: State, x: Landed, y: Landed)
    requires x.found.Some? && NeedsContext(x.event)
  {
    && Places(y.event, x.event.orderId) && ContextOf(y.event) == x.found.value
    && forall b, i :: InPlan(Plan(y.event, None), b, i) ==>
        Landed(y.event, y.found, Plan(y.event, None)[b][i]) in Log(s)
  }

  // In every reachable state, whatever failed: a landed write is planned, and if its
  // handler had found a context row, then a placed event of the order with that
  // row's currency and instant has landed all of its writes.
  lemma LoggedAfterPlaced(n: nat, hasDlx: bool, run: seq<Action>, x: Landed)
    requires x in Log(Exec(Initial(n, hasDlx), run))
    ensures Planned(x)
    ensures x.found.Some? ==> NeedsContext(x.event) && exists y :: PlacedFor(Exec(Initial(n, hasDlx), run), x, y)
  {
    var s := Exec(Initial(n, hasDlx), run);
    RunKeepsCounters(n, hasDlx, run, At(RestaurantCell(DayKey(0, 0), Orders)));
    var r := LoggedIsLanded(s, x);
    RunsAreOrderly(s, r);
    if x.found.Some? {
      RunKeepsFound(n, hasDlx, run);
      var saved := ToContext(x.event.orderId, x.found.value);
      SourcedByRun(s, saved);
      var q :| IsRun(s, q) && saved in q.landed;
      RunsAreOrderly(s, q);
      ContextWriteIsLast(q.event, q.found, q.landed, x.event.orderId, x.found.value);
      forall b, i | InPlan(Plan(q.event, None), b, i)
        ensures Landed(q.event, q.found, Plan(q.event, None)[b][i]) in Log(s)
      {
        var z := Landed(q.event, q.found, Plan(q.event, None)[b][i]);
        LandedIsLogged(s, z, q);
      }
      assert PlacedFor(s, x, Landed(q.event, q.found, saved));
    }
  }
}
