// A worker left alone settles its delivery: until it does it is never blocked, and
// every action of its own brings the settlement closer.
module ProtocolProgress {
  import opened Events
  import opened Folds
  import opened Aggregates
  import opened Protocol
  import opened ProtocolSafety
  import opened ProtocolCounters

  function Rest(plan: seq<seq<Write>>, from: nat): nat
    decreases |plan| - from
  {
    if from >= |plan| then 0 else |plan[from]| + Rest(plan, from + 1)
  }

  // After the lookup at most three more writes can follow.
  const LOOKUP_COST: nat := 4

  function RunCost(h: Worker): nat
    requires h.Handling?
  {
    |h.left| + Rest(Plan(h.event, h.found), h.at + 1) + if h.looked then 0 else LOOKUP_COST
  }

  function MessageCost(m: Message): nat {
    match m
    case Envelope(_, Carries(e)) => Rest(Plan(e, None), 0) + LOOKUP_COST + 2
    case _ => 2
  }

  // A bound on the worker's own actions until it settles.
  function Rank(h: Worker): nat {
    match h
    case Idle => 0
    case Acking(_) => 1
    case Nacking(_, _) => 1
    case Unmarking(_) => 2
    case Handling(_, _, _, _, _, _, _, _) => 2 + RunCost(h)
    case Marked(m) => 1 + MessageCost(m)
    case Got(m) => 2 + MessageCost(m)
  }

  // In numbers: twelve, and one for each line item of an order.
  lemma RankAtDelivery(m: Message)
    ensures Rank(Got(m)) <=
            12 + if m.Envelope? && m.payload.Carries?
              && m.payload.event.OrderPlaced? then |m.payload.event.items| else 0
  {
    if m.Envelope? && m.payload.Carries? {
      var p := Plan(m.payload.event, None);
      assert |p| <= 5;
      assert Rest(p, 5) == 0;
      assert Rest(p, 4) == if |p| > 4 then |p[4]| else 0;
      assert Rest(p, 3) == if |p| > 3 then |p[3]| + Rest(p, 4) else 0;
      assert Rest(p, 2) == if |p| > 2 then |p[2]| + Rest(p, 3) else 0;
      assert Rest(p, 1) == if |p| > 1 then |p[1]| + Rest(p, 2) else 0;
    }
  }

  predicate Own(a: Action, w: nat) {
    (a.Mark? || a.Dispatch? || a.Land? || a.Look? || a.Unmark? || a.Settle?) && a.w == w
  }

  lemma {:induction false} IndicesSize(n: nat)
    ensures |Below(n)| == n
  {
    if n > 0 { IndicesSize(n - 1); }
  }

  lemma StartCost(m: Message, e: Event)
    requires m.Envelope? && m.payload == Carries(e)
    ensures Rank(Start(m, e)) <= MessageCost(m)
  {
    var plan := Plan(e, None);
    assert Rest(plan, 0) == if plan == [] then 0 else |plan[0]| + Rest(plan, 1);
    if plan != [] { IndicesSize(|plan[0]|); }
  }

  lemma ReturnCost(s: State, w: nat, ok: bool)
    requires w < |s.workers| && s.workers[w].Handling? && s.workers[w].msg.Envelope?
    ensures Rank(Returning(s, w, ok).workers[w]) == if ok then 1 else 2
  {
  }

  lemma NextCallCost(h: Worker)
    requires h.Handling? && h.at < |Plan(h.event, h.found)|
    ensures var plan := Plan(h.event, h.found);
            Rank(h.(left := Indices(plan[h.at]))) == 2 + Rest(plan, h.at) + if h.looked then 0 else LOOKUP_COST
  {
    IndicesSize(|Plan(h.event, h.found)[h.at]|);
  }

  lemma AdvanceCost(s: State, w: nat)
    requires w < |s.workers| && s.workers[w].Handling? && s.workers[w].msg.Envelope?
    requires s.workers[w].left == {}
    ensures var h := s.workers[w];
            Rank(Advancing(s, w).workers[w]) <=
            2 + Rest(Plan(h.event, h.found), h.at) + if h.looked then 0 else LOOKUP_COST
  {
    var h := s.workers[w];
    if h.at < |Plan(h.event, h.found)| { NextCallCost(h); }
    else if h.looked { ReturnCost(s, w, true); }
  }

  lemma TriedCost(h: Worker, i: nat, fate: Fate)
    requires CanLand(h, i)
    ensures Rank(Tried(h, i, fate)) == Rank(h) - 1
    ensures Rank(h) >= 3 + Rest(Plan(h.event, h.found), h.at + 1) + if h.looked then 0 else LOOKUP_COST
  {
    assert |Tried(h, i, fate).left| == |h.left| - 1;
  }

  lemma LandCost(s: State, w: nat, i: nat, fate: Fate)
    requires w < |s.workers| && CanLand(s.workers[w], i)
    ensures Rank(Landing(s, w, i, fate).workers[w]) < Rank(s.workers[w])
  {
    var h := s.workers[w];
    var h', store := Tried(h, i, fate), Stored(s.store, h, i, fate);
    TriedCost(h, i, fate);
    if h'.left == {} {
      if h'.spoilt {
        ReturnCost(SetWorker(s.(store := store), w, h'), w, false);
      } else {
        AdvanceCost(SetWorker(s.(store := store), w, h'.(at := h.at + 1)), w);
      }
    }
  }

  lemma LookCost(s: State, w: nat, answered: bool)
    requires w < |s.workers| && WorkerOrderly(s.workers[w]) && Looking(s, w, answered) != s
    ensures Rank(Looking(s, w, answered).workers[w]) < Rank(s.workers[w])
  {
    var h := s.workers[w];
    if answered {
      var h' := h.(looked := true, found := Lookup(s.store.contexts, h.event));
      AdvanceCost(SetWorker(s, w, h'), w);
      AfterContextHit(h.event, h'.found, h.at);
    } else {
      ReturnCost(s, w, false);
    }
  }

  lemma AfterContextHit(e: Event, found: Option<OrderContext>, at: nat)
    requires NeedsContext(e) && at == |Plan(e, None)|
    ensures Rest(Plan(e, found), at) <= 3
  {
    var p := Plan(e, found);
    assert Rest(p, at) == if at >= |p| then 0 else |p[at]| + Rest(p, at + 1);
    assert Rest(p, at + 1) == if at + 1 >= |p| then 0 else |p[at + 1]| + Rest(p, at + 2);
    assert Rest(p, at + 2) == if at + 2 >= |p| then 0 else |p[at + 2]| + Rest(p, at + 3);
  }

  lemma MarkCost(s: State, w: nat, fate: Fate)
    requires w < |s.workers| && Marking(s, w, fate) != s
    ensures Rank(Marking(s, w, fate).workers[w]) < Rank(s.workers[w])
  {
  }

  lemma DispatchCost(s: State, w: nat)
    requires w < |s.workers| && Dispatching(s, w) != s
    ensures Rank(Dispatching(s, w).workers[w]) < Rank(s.workers[w])
  {
    var m := s.workers[w].msg;
    if m.payload.Carries? { StartCost(m, m.payload.event); }
  }

  lemma SettleCost(s: State, w: nat, fate: Fate)
    requires w < |s.workers|
    ensures Removing(s, w, fate) == s || Rank(Removing(s, w, fate).workers[w]) < Rank(s.workers[w])
    ensures Settling(s, w) == s || Rank(Settling(s, w).workers[w]) < Rank(s.workers[w])
  {
  }

  // Whatever the fates, an action of its own that does anything lowers the rank of
  // a worker.
  lemma OwnActionLowersRank(s: State, a: Action, w: nat)
    requires AllOrderly(s) && w < |s.workers| && Own(a, w) && Step(s, a) != s
    ensures Rank(Step(s, a).workers[w]) < Rank(s.workers[w])
  {
    match a
    case Mark(_, fate) => MarkCost(s, w, fate);
    case Dispatch(_) => DispatchCost(s, w);
    case Land(_, i, fate) => LandCost(s, w, i, fate);
    case Look(_, answered) => LookCost(s, w, answered);
    case Unmark(_, fate) => SettleCost(s, w, fate);
    case Settle(_) => SettleCost(s, w, Done);
  }

  // How many actions of a run, from a state on, are the worker's own and effective.
  ghost function OwnSteps(s: State, run: seq<Action>, w: nat): nat {
    if run == [] then 0
    else
      var t, a := Exec(s, run[..|run| - 1]), run[|run| - 1];
      OwnSteps(s, run[..|run| - 1], w) + if Own(a, w) && Step(t, a) != t then 1 else 0
  }

  // The worker has not settled before the last action of the run.
  ghost predicate BusyThroughout(s: State, run: seq<Action>, w: nat)
    requires w < |s.workers|
  {
    forall i :: 0 <= i < |run| ==> !Exec(s, run[..i]).workers[w].Idle?
  }

  // Nobody else's action touches a busy worker; a crash takes its message away.
  lemma OthersLeaveRank(s: State, a: Action, w: nat)
    requires w < |s.workers| && !s.workers[w].Idle? && !Own(a, w)
    ensures Rank(Step(s, a).workers[w]) <= Rank(s.workers[w])
  {
    if !a.Publish? && !a.Replay? && a.w < |s.workers| { ActionEvens(s, a); }
  }

  lemma RunNext(s: State, run: seq<Action>, a: Action)
    ensures Exec(s, run + [a]) == Step(Exec(s, run), a)
  {
    assert (run + [a])[..|run|] == run;
  }

  lemma {:induction false} RunIsFold(s: State, run: seq<Action>)
    ensures Exec(s, run) == Fold(s, run, Step)
  {
    if run != [] { RunIsFold(s, run[..|run| - 1]); }
  }

  lemma RunExtended(s: State, a: seq<Action>, b: seq<Action>)
    ensures Exec(s, a + b) == Exec(Exec(s, a), b)
  {
    FoldConcat(s, a, b, Step);
    RunIsFold(s, a + b);
    RunIsFold(s, a);
    RunIsFold(Exec(s, a), b);
  }

  lemma StepLowersRank(s: State, a: Action, w: nat)
    requires AllOrderly(s) && w < |s.workers| && !s.workers[w].Idle?
    ensures (if Own(a, w) && Step(s, a) != s then 1 else 0) + Rank(Step(s, a).workers[w]) <= Rank(s.workers[w])
  {
    if !Own(a, w) {
      OthersLeaveRank(s, a, w);
    } else if Step(s, a) != s {
      OwnActionLowersRank(s, a, w);
    }
  }

  // Between a delivery and its settlement, whatever the other workers do and
  // whatever fails, a worker takes at most as many actions as its rank at the
  // delivery, which is read off the message.
  lemma {:induction false} OwnActionsRunOut(n: nat, hasDlx: bool, run: seq<Action>, more: seq<Action>, w: nat)
    requires w < n && BusyThroughout(Exec(Initial(n, hasDlx), run), more, w)
    ensures var s := Exec(Initial(n, hasDlx), run);
            OwnSteps(s, more, w) + Rank(Exec(s, more).workers[w]) <= Rank(s.workers[w])
  {
    if more != [] {
      var s, k := Exec(Initial(n, hasDlx), run), |more| - 1;
      var before := more[..k];
      assert forall i :: 0 <= i < k ==> before[..i] == more[..i];
      OwnActionsRunOut(n, hasDlx, run, before, w);
      RunExtended(Initial(n, hasDlx), run, before);
      RunKeepsCounters(n, hasDlx, run + before, At(RestaurantCell(DayKey(0, 0), Orders)));
      StepLowersRank(Exec(s, before), more[k], w);
    }
  }

  // An action of ordinary operation: it does not fail and brings nothing new.
  predicate Smooth(a: Action) {
    match a
    case Publish(_) => false
    case Crash(_) => false
    case Mark(_, fate) => fate.Done?
    case Land(_, _, fate) => fate.Done?
    case Look(_, answered) => answered
    case Unmark(_, fate) => fate.Done?
    case _ => true
  }

  // A worker with a message in its hands always has an action of its own to take,
  // one that needs nothing to fail.
  lemma NeverBlocked(s: State, w: nat) returns (a: Action)
    requires AllOrderly(s) && w < |s.workers| && !s.workers[w].Idle?
    ensures Own(a, w) && Smooth(a) && Step(s, a) != s
  {
    var h := s.workers[w];
    assert WorkerOrderly(h);
    match h
    case Got(_) => a := Mark(w, Done);
    case Marked(_) => a := Dispatch(w);
    case Handling(_, _, _, _, at, left, _, _) =>
      if at < |Plan(h.event, h.found)| {
        var i :| i in left;
        a := Land(w, i, Done);
        LandCost(s, w, i, Done);
      } else {
        a := Look(w, true);
      }
    case Unmarking(_) => a := Unmark(w, Done);
    case Acking(_) => a := Settle(w);
    case Nacking(_, _) => a := Settle(w);
    assert Step(s, a).workers[w] != h;
  }
}
