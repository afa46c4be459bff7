// What the counters are worth in every reachable state of the protocol, failures,
// crashes and replays included.
module ProtocolCounters {
  import opened Events
  import opened Sums
  import opened Aggregates
  import opened Protocol

  // ---------- Plans and the writes that landed ----------

  ghost predicate InPlan(plan: seq<seq<Write>>, b: int, i: int) {
    0 <= b < |plan| && 0 <= i < |plan[b]|
  }

  ghost predicate PlanDistinct(plan: seq<seq<Write>>) {
    forall b, i, c, j :: InPlan(plan, b, i) && InPlan(plan, c, j) && plan[b][i] == plan[c][j] ==> b == c && i == j
  }

  // The kind of call a write belongs to; along a plan it only goes up.
  function Stage(w: Write): nat {
    match w
    case ToRestaurant(_, _) => 0
    case ToBranch(_, _) => 1
    case ToProduct(_, _, _, _, _) => 2
    case ToPlatform(_, _) => 3
    case ToPayments(_, _) => 3
    case ToContext(_, _) => 4
  }

  lemma PlanStages(e: Event, found: Option<OrderContext>)
    ensures var plan := Plan(e, found);
            && (forall b, i, c, j :: InPlan(plan, b, i) && InPlan(plan, c, j) && b < c ==>
                Stage(plan[b][i]) < Stage(plan[c][j]))
            && (forall b, i, j :: InPlan(plan, b, i) && InPlan(plan, b, j) && plan[b][i] == plan[b][j] ==> i == j)
            && (forall b :: 0 <= b < |plan| ==> plan[b] != [])
  {
  }

  lemma PlanIsDistinct(e: Event, found: Option<OrderContext>)
    ensures PlanDistinct(Plan(e, found))
  {
    PlanStages(e, found);
  }

  // The writes that landed, read against the plan: none twice, none from outside,
  // and none before all earlier calls had landed in full.
  ghost predicate Orderly(landed: seq<Write>, plan: seq<seq<Write>>) {
    && Distinct(landed)
    && (forall w :: w in landed ==> exists b, i :: InPlan(plan, b, i) && plan[b][i] == w)
    && (forall b, i, c, j :: InPlan(plan, b, i) && InPlan(plan, c, j) && b < c && plan[c][j] in landed ==>
        plan[b][i] in landed)
  }

  ghost predicate Complete(landed: seq<Write>, plan: seq<seq<Write>>) {
    forall b, i :: InPlan(plan, b, i) ==> plan[b][i] in landed
  }

  ghost predicate Behind(plan: seq<seq<Write>>, at: nat, left: set<nat>, b: int, i: int) {
    InPlan(plan, b, i) && (b < at || (b == at && i !in left))
  }

  // A handler run under way.
  ghost predicate Progress(plan: seq<seq<Write>>, at: nat, left: set<nat>, spoilt: bool, landed: seq<Write>) {
    && at <= |plan|
    && Distinct(landed)
    && (forall b, i :: InPlan(plan, b, i) && b < at ==> plan[b][i] in landed)
    && (forall w :: w in landed ==> exists b, i :: Behind(plan, at, left, b, i) && plan[b][i] == w)
    && (!spoilt ==> forall i :: InPlan(plan, at, i) && i !in left ==> plan[at][i] in landed)
  }

  lemma ProgressIsOrderly(plan: seq<seq<Write>>, at: nat, left: set<nat>, spoilt: bool, landed: seq<Write>)
    requires PlanDistinct(plan) && Progress(plan, at, left, spoilt, landed)
    ensures Orderly(landed, plan)
    ensures at == |plan| ==> Complete(landed, plan)
  {
    forall b, i, c, j | InPlan(plan, b, i) && InPlan(plan, c, j) && b < c && plan[c][j] in landed
      ensures plan[b][i] in landed
    {
      var d, k :| Behind(plan, at, left, d, k) && plan[d][k] == plan[c][j];
      assert d == c;
    }
    forall w | w in landed ensures exists b, i :: InPlan(plan, b, i) && plan[b][i] == w {
      var b, i :| Behind(plan, at, left, b, i) && plan[b][i] == w;
    }
  }

  // A write of the current call landed.
  lemma ProgressLands(plan: seq<seq<Write>>, at: nat, left: set<nat>, spoilt: bool, landed: seq<Write>, i: nat,
                      spoils: bool)
    requires PlanDistinct(plan) && Progress(plan, at, left, spoilt, landed)
    requires InPlan(plan, at, i) && i in left
    ensures Progress(plan, at, left - {i}, spoilt || spoils, landed + [plan[at][i]])
  {
    var w := plan[at][i];
    forall v | v in landed ensures v != w {
      var b, j :| Behind(plan, at, left, b, j) && plan[b][j] == v;
    }
    assert forall j :: 0 <= j < |landed| ==> landed[j] in landed;
    var landed', left' := landed + [w], left - {i};
    forall v | v in landed' ensures exists b, j :: Behind(plan, at, left', b, j) && plan[b][j] == v {
      if v == w {
        assert Behind(plan, at, left', at, i);
      } else {
        var b, j :| Behind(plan, at, left, b, j) && plan[b][j] == v;
        assert Behind(plan, at, left', b, j);
      }
    }
  }

  // It failed without landing.
  lemma ProgressMisses(plan: seq<seq<Write>>, at: nat, left: set<nat>, spoilt: bool, landed: seq<Write>, i: nat)
    requires Progress(plan, at, left, spoilt, landed)
    ensures Progress(plan, at, left - {i}, true, landed)
  {
    forall v | v in landed ensures exists b, j :: Behind(plan, at, left - {i}, b, j) && plan[b][j] == v {
      var b, j :| Behind(plan, at, left, b, j) && plan[b][j] == v;
      assert Behind(plan, at, left - {i}, b, j);
    }
  }

  // A call that succeeded is over, and the next one may begin, possibly of a plan
  // that the context lookup has extended.
  lemma ProgressAdvances(plan: seq<seq<Write>>, at: nat, landed: seq<Write>, longer: seq<seq<Write>>, left: set<nat>)
    requires Progress(plan, at, {}, false, landed)
    requires plan <= longer
    requires at < |plan| ==> at + 1 < |longer| ==> forall i :: InPlan(longer, at + 1, i) ==> i in left
    requires at == |plan| ==> forall i :: InPlan(longer, at, i) ==> i in left
    ensures at < |plan| ==> Progress(longer, at + 1, left, false, landed)
    ensures at == |plan| ==> Progress(longer, at, left, false, landed)
  {
    var to := if at < |plan| then at + 1 else at;
    forall v | v in landed ensures exists b, j :: Behind(longer, to, left, b, j) && longer[b][j] == v {
      var b, j :| Behind(plan, at, {}, b, j) && plan[b][j] == v;
      assert Behind(longer, to, left, b, j);
    }
    forall b, i | InPlan(longer, b, i) && b < to ensures longer[b][i] in landed {
      assert InPlan(plan, b, i);
    }
  }

  // ---------- Handler runs, under way and finished ----------

  ghost predicate WorkerOrderly(h: Worker) {
    && (h.Marked? || h.Unmarking? ==> h.msg.Envelope?)
    && (h.Handling? ==>
      && h.msg.Envelope? && h.msg.payload == Carries(h.event)
      && (h.found.Some? ==> h.looked && NeedsContext(h.event))
      && (!h.looked ==> NeedsContext(h.event))
      && (h.looked ==> h.at < |Plan(h.event, h.found)|)
      && (h.at == |Plan(h.event, h.found)| ==> h.left == {} && !h.spoilt)
      && (h.at < |Plan(h.event, h.found)| ==>
            h.left != {} && forall i :: i in h.left ==> i < |Plan(h.event, h.found)[h.at]|)
      && Progress(Plan(h.event, h.found), h.at, h.left, h.spoilt, h.landed))
  }

  ghost predicate AttemptOrderly(a: Attempt) {
    && Orderly(a.landed, Plan(a.event, a.found))
    && (a.ok ==> Complete(a.landed, Plan(a.event, a.found)))
  }

  ghost predicate AllOrderly(s: State) {
    && (forall i :: 0 <= i < |s.workers| ==> WorkerOrderly(s.workers[i]))
    && (forall k :: 0 <= k < |s.attempts| ==> AttemptOrderly(s.attempts[k]))
  }

  // The worker between two calls: the call at `at` is over, or the lookup is.
  ghost predicate BetweenCalls(h: Worker) {
    && h.Handling? && h.msg.Envelope? && h.msg.payload == Carries(h.event)
    && (h.found.Some? ==> h.looked && NeedsContext(h.event))
    && (!h.looked ==> NeedsContext(h.event))
    && !h.spoilt
    && (h.at == |Plan(h.event, h.found)| ==> h.left == {})
    && Progress(Plan(h.event, h.found), h.at,
                if h.at < |Plan(h.event, h.found)| then Indices(Plan(h.event, h.found)[h.at]) else {}, false, h.landed)
  }

  lemma NonemptyCalls(e: Event, found: Option<OrderContext>, b: nat)
    requires b < |Plan(e, found)|
    ensures 0 in Indices(Plan(e, found)[b])
  {
    PlanStages(e, found);
  }

  lemma StartOrderly(m: Message, e: Event)
    requires m.Envelope? && m.payload == Carries(e)
    ensures WorkerOrderly(Start(m, e))
  {
    var plan := Plan(e, None);
    if plan != [] { NonemptyCalls(e, None, 0); }
  }

  // Replacing one worker, or finishing its run, keeps everything orderly.
  lemma ReplacedOrderly(s: State, s': State, w: nat)
    requires AllOrderly(s)
    requires w < |s.workers| == |s'.workers|
    requires forall i :: 0 <= i < |s.workers| && i != w ==> s'.workers[i] == s.workers[i]
    requires WorkerOrderly(s'.workers[w])
    requires s'.attempts == s.attempts || (exists a :: s'.attempts == s.attempts + [a] && AttemptOrderly(a))
    ensures AllOrderly(s')
  {
  }

  // Handing a run back: its landed writes become an attempt.
  lemma ReturningOrderly(s: State, t: State, w: nat, h: Worker, ok: bool)
    requires AllOrderly(s) && w < |s.workers| && h.Handling? && h.msg.Envelope?
    requires t.workers == s.workers[w := h] && t.attempts == s.attempts
    requires AttemptOrderly(Attempt(h.msg.id, h.event, h.found, h.landed, ok))
    ensures AllOrderly(Returning(t, w, ok))
  {
    var s' := Returning(t, w, ok);
    assert s'.attempts == s.attempts + [Attempt(h.msg.id, h.event, h.found, h.landed, ok)];
    ReplacedOrderly(s, s', w);
  }

  lemma AdvancingOrderly(s: State, t: State, w: nat, h: Worker)
    requires AllOrderly(s) && w < |s.workers| && BetweenCalls(h)
    requires t.workers == s.workers[w := h] && t.attempts == s.attempts
    ensures AllOrderly(Advancing(t, w))
  {
    var plan := Plan(h.event, h.found);
    PlanIsDistinct(h.event, h.found);
    if h.at < |plan| {
      NonemptyCalls(h.event, h.found, h.at);
      ReplacedOrderly(s, Advancing(t, w), w);
    } else {
      ProgressIsOrderly(plan, h.at, {}, false, h.landed);
      if h.looked {
        ReturningOrderly(s, t, w, h, true);
      } else {
        assert Advancing(t, w) == t;
        assert WorkerOrderly(h);
      }
    }
  }

  lemma TriedProgress(h: Worker, i: nat, fate: Fate)
    requires WorkerOrderly(h) && CanLand(h, i)
    ensures var h' := Tried(h, i, fate);
            Progress(Plan(h.event, h.found), h'.at, h'.left, h'.spoilt, h'.landed)
  {
    PlanIsDistinct(h.event, h.found);
    if fate.Lost? {
      ProgressMisses(Plan(h.event, h.found), h.at, h.left, h.spoilt, h.landed, i);
    } else {
      ProgressLands(Plan(h.event, h.found), h.at, h.left, h.spoilt, h.landed, i, !fate.Done?);
    }
  }

  lemma LastWriteOrderly(s: State, t: State, w: nat, h: Worker)
    requires AllOrderly(s) && w < |s.workers|
    requires h.Handling? && h.left == {} && h.at < |Plan(h.event, h.found)|
    requires h.msg.Envelope? && h.msg.payload == Carries(h.event)
    requires (h.found.Some? ==> h.looked && NeedsContext(h.event)) && (!h.looked ==> NeedsContext(h.event))
    requires Progress(Plan(h.event, h.found), h.at, h.left, h.spoilt, h.landed)
    requires t.attempts == s.attempts
    requires t.workers == s.workers[w := if h.spoilt then h else h.(at := h.at + 1)]
    ensures AllOrderly(if h.spoilt then Returning(t, w, false) else Advancing(t, w))
  {
    var plan := Plan(h.event, h.found);
    PlanIsDistinct(h.event, h.found);
    if h.spoilt {
      ProgressIsOrderly(plan, h.at, h.left, h.spoilt, h.landed);
      ReturningOrderly(s, t, w, h, false);
    } else {
      var h' := h.(at := h.at + 1);
      ProgressAdvances(plan, h.at, h.landed, plan, if h'.at < |plan| then Indices(plan[h'.at]) else {});
      AdvancingOrderly(s, t, w, h');
    }
  }

  lemma LandingEnds(s: State, w: nat, i: nat, fate: Fate)
    requires w < |s.workers| && CanLand(s.workers[w], i) && Tried(s.workers[w], i, fate).left == {}
    ensures var h, h' := s.workers[w], Tried(s.workers[w], i, fate);
            var x := if h'.spoilt then h' else h'.(at := h'.at + 1);
            var t := SetWorker(s.(store := Stored(s.store, h, i, fate)), w, x);
            Landing(s, w, i, fate) == if h'.spoilt then Returning(t, w, false) else Advancing(t, w)
  {
  }

  lemma LandingEndsCall(s: State, w: nat, i: nat, fate: Fate)
    requires AllOrderly(s) && w < |s.workers| && CanLand(s.workers[w], i) && Tried(s.workers[w], i, fate).left == {}
    ensures AllOrderly(Landing(s, w, i, fate))
  {
    var h := s.workers[w];
    var h', store := Tried(h, i, fate), Stored(s.store, h, i, fate);
    assert WorkerOrderly(h);
    TriedProgress(h, i, fate);
    var t := SetWorker(s.(store := store), w, if h'.spoilt then h' else h'.(at := h'.at + 1));
    LastWriteOrderly(s, t, w, h');
    LandingEnds(s, w, i, fate);
  }

  lemma LandingOrderly(s: State, w: nat, i: nat, fate: Fate)
    requires AllOrderly(s) && w < |s.workers| && CanLand(s.workers[w], i)
    ensures AllOrderly(Landing(s, w, i, fate))
  {
    assert WorkerOrderly(s.workers[w]);
    if Tried(s.workers[w], i, fate).left == {} {
      LandingEndsCall(s, w, i, fate);
    } else {
      TriedProgress(s.workers[w], i, fate);
      ReplacedOrderly(s, Landing(s, w, i, fate), w);
    }
  }

  lemma LongerPlan(e: Event, found: Option<OrderContext>)
    requires NeedsContext(e)
    ensures Plan(e, None) <= Plan(e, found)
  {
  }

  lemma LookingOrderly(s: State, w: nat, answered: bool)
    requires AllOrderly(s) && w < |s.workers| && Looking(s, w, answered) != s
    ensures AllOrderly(Looking(s, w, answered))
  {
    var h := s.workers[w];
    var plan := Plan(h.event, None);
    PlanIsDistinct(h.event, None);
    ProgressIsOrderly(plan, h.at, h.left, h.spoilt, h.landed);
    if !answered {
      ReturningOrderly(s, s.(workers := s.workers[w := h]), w, h, false);
      assert s.workers[w := h] == s.workers;
    } else {
      var found := Lookup(s.store.contexts, h.event);
      var longer := Plan(h.event, found);
      LongerPlan(h.event, found);
      ProgressAdvances(plan, h.at, h.landed, longer, if h.at < |longer| then Indices(longer[h.at]) else {});
      var h' := h.(looked := true, found := found);
      AdvancingOrderly(s, SetWorker(s, w, h'), w, h');
    }
  }

  // ---------- Accounting ----------

  function RunningLanded(g: Gauge): Worker -> int {
    (w: Worker) => if w.Handling? then Sum(w.landed, DeltaOf(g)) else 0
  }

  function LandedBy(g: Gauge): Attempt -> int {
    (a: Attempt) => Sum(a.landed, DeltaOf(g))
  }

  ghost predicate Accounts(s: State, g: Gauge) {
    Read(s.store, g) == Sum(s.attempts, LandedBy(g)) + Sum(s.workers, RunningLanded(g))
  }

  // Worker w goes from what it was to x, and store and attempts move by as much.
  lemma MovedAccounts(s: State, s': State, w: nat, x: Worker, g: Gauge)
    requires Accounts(s, g)
    requires w < |s.workers| && s'.workers == s.workers[w := x]
    requires Read(s'.store, g) - Read(s.store, g) ==
             Sum(s'.attempts, LandedBy(g)) - Sum(s.attempts, LandedBy(g))
               + RunningLanded(g)(x) - RunningLanded(g)(s.workers[w])
    ensures Accounts(s', g)
  {
    SumUpdate(s.workers, w, x, RunningLanded(g));
  }

  lemma ReturningAccounts(s: State, w: nat, ok: bool, g: Gauge)
    requires Accounts(s, g) && w < |s.workers| && s.workers[w].Handling? && s.workers[w].msg.Envelope?
    ensures Accounts(Returning(s, w, ok), g)
  {
    var h := s.workers[w];
    var a := Attempt(h.msg.id, h.event, h.found, h.landed, ok);
    var x := if ok then Acking(h.msg) else Unmarking(h.msg);
    var s' := Returning(s, w, ok);
    assert s'.store == s.store && s'.attempts == s.attempts + [a] && s'.workers == s.workers[w := x];
    SumAppend(s.attempts, a, LandedBy(g));
    assert LandedBy(g)(a) == RunningLanded(g)(h) && RunningLanded(g)(x) == 0;
    MovedAccounts(s, s', w, x, g);
  }

  lemma AdvancingAccounts(s: State, w: nat, g: Gauge)
    requires Accounts(s, g) && w < |s.workers| && s.workers[w].Handling? && s.workers[w].msg.Envelope?
    ensures Accounts(Advancing(s, w), g)
  {
    var h := s.workers[w];
    var plan := Plan(h.event, h.found);
    if h.at < |plan| {
      MovedAccounts(s, Advancing(s, w), w, h.(left := Indices(plan[h.at])), g);
    } else if h.looked {
      ReturningAccounts(s, w, true, g);
    }
  }

  // One write met its fate: the store and the run's record move together.
  lemma TriedAccounts(s: State, w: nat, i: nat, fate: Fate, at: nat, g: Gauge)
    requires Accounts(s, g) && w < |s.workers| && CanLand(s.workers[w], i)
    ensures var h' := Tried(s.workers[w], i, fate);
            Accounts(SetWorker(s.(store := Stored(s.store, s.workers[w], i, fate)), w, h'.(at := at)), g)
  {
    var h := s.workers[w];
    var tried := Tried(h, i, fate);
    var h' := tried.(at := at);
    if !fate.Lost? {
      ApplyReads(s.store, WriteAt(h, i), g);
      SumAppend(h.landed, WriteAt(h, i), DeltaOf(g));
    }
    MovedAccounts(s, SetWorker(s.(store := Stored(s.store, h, i, fate)), w, h'), w, h', g);
  }

  lemma LandingEndsAccounts(s: State, w: nat, i: nat, fate: Fate, g: Gauge)
    requires Accounts(s, g) && w < |s.workers| && CanLand(s.workers[w], i) && Tried(s.workers[w], i, fate).left == {}
    ensures Accounts(Landing(s, w, i, fate), g)
  {
    var h := s.workers[w];
    var h', store := Tried(h, i, fate), Stored(s.store, h, i, fate);
    var at := if h'.spoilt then h.at else h.at + 1;
    TriedAccounts(s, w, i, fate, at, g);
    var t := SetWorker(s.(store := store), w, h'.(at := at));
    assert h'.spoilt ==> h'.(at := at) == h';
    LandingEnds(s, w, i, fate);
    if h'.spoilt { ReturningAccounts(t, w, false, g); } else { AdvancingAccounts(t, w, g); }
  }

  lemma LandingAccounts(s: State, w: nat, i: nat, fate: Fate, g: Gauge)
    requires Accounts(s, g) && w < |s.workers| && CanLand(s.workers[w], i)
    ensures Accounts(Landing(s, w, i, fate), g)
  {
    var h' := Tried(s.workers[w], i, fate);
    if h'.left == {} {
      LandingEndsAccounts(s, w, i, fate, g);
    } else {
      TriedAccounts(s, w, i, fate, h'.at, g);
      assert h'.(at := h'.at) == h';
    }
  }

  lemma LookingAccounts(s: State, w: nat, answered: bool, g: Gauge)
    requires Accounts(s, g) && w < |s.workers| && Looking(s, w, answered) != s
    ensures Accounts(Looking(s, w, answered), g)
  {
    var h := s.workers[w];
    if answered {
      var h' := h.(looked := true, found := Lookup(s.store.contexts, h.event));
      MovedAccounts(s, SetWorker(s, w, h'), w, h', g);
      AdvancingAccounts(SetWorker(s, w, h'), w, g);
    } else {
      ReturningAccounts(s, w, false, g);
    }
  }

  // ---------- Actions outside handlers ----------

  // Nothing in flight starts or ends, except that a dispatched run starts empty.
  ghost predicate Quiet(s: State, s': State, w: nat) {
    && w < |s.workers| == |s'.workers| && s'.workers == s.workers[w := s'.workers[w]]
    && s'.store == s.store && s'.attempts == s.attempts
    && !s.workers[w].Handling?
    && WorkerOrderly(s'.workers[w])
    && (s'.workers[w].Handling? ==>
          s'.workers[w].landed == [] && s'.workers[w].found.None?
          && s'.workers[w].looked == !NeedsContext(s'.workers[w].event))
  }

  lemma DeliveringQuiet(s: State, w: nat, m: Message)
    requires w < |s.workers|
    ensures Delivering(s, w, m) == s || Quiet(s, Delivering(s, w, m), w)
  {
  }

  lemma MarkingQuiet(s: State, w: nat, fate: Fate)
    requires w < |s.workers|
    ensures Marking(s, w, fate) == s || Quiet(s, Marking(s, w, fate), w)
  {
  }

  lemma DispatchingQuiet(s: State, w: nat)
    requires w < |s.workers|
    ensures Dispatching(s, w) == s || Quiet(s, Dispatching(s, w), w)
  {
    match s.workers[w]
    case Marked(Envelope(id, Carries(e))) => StartOrderly(Envelope(id, Carries(e)), e);
    case _ =>
  }

  lemma RemovingQuiet(s: State, w: nat, fate: Fate)
    requires w < |s.workers|
    ensures Removing(s, w, fate) == s || Quiet(s, Removing(s, w, fate), w)
  {
  }

  lemma SettlingQuiet(s: State, w: nat)
    requires w < |s.workers|
    ensures Settling(s, w) == s || Quiet(s, Settling(s, w), w)
  {
    if Settling(s, w) != s {
      assert Settling(s, w).workers == s.workers[w := Idle];
      assert WorkerOrderly(Idle);
    }
  }

  lemma QuietKeepsCounters(s: State, s': State, w: nat, g: Gauge)
    requires AllOrderly(s) && Accounts(s, g) && Quiet(s, s', w)
    ensures AllOrderly(s') && Accounts(s', g)
  {
    ReplacedOrderly(s, s', w);
    MovedAccounts(s, s', w, s'.workers[w], g);
  }

  lemma CrashInHandler(s: State, w: nat, g: Gauge)
    requires AllOrderly(s) && Accounts(s, g) && w < |s.workers| && s.workers[w].Handling?
    ensures AllOrderly(Crashing(s, w)) && Accounts(Crashing(s, w), g)
  {
    var h, s' := s.workers[w], Crashing(s, w);
    var a := Attempt(h.msg.id, h.event, h.found, h.landed, false);
    PlanIsDistinct(h.event, h.found);
    ProgressIsOrderly(Plan(h.event, h.found), h.at, h.left, h.spoilt, h.landed);
    assert s'.attempts == s.attempts + [a] && AttemptOrderly(a);
    SumAppend(s.attempts, a, LandedBy(g));
    ReplacedOrderly(s, s', w);
    MovedAccounts(s, s', w, Idle, g);
  }

  lemma CrashElsewhere(s: State, w: nat, g: Gauge)
    requires AllOrderly(s) && Accounts(s, g) && w < |s.workers| && !s.workers[w].Handling?
    ensures AllOrderly(Crashing(s, w)) && Accounts(Crashing(s, w), g)
  {
    if !s.workers[w].Idle? {
      ReplacedOrderly(s, Crashing(s, w), w);
      MovedAccounts(s, Crashing(s, w), w, Idle, g);
    }
  }

  lemma CrashingKeepsCounters(s: State, w: nat, g: Gauge)
    requires AllOrderly(s) && Accounts(s, g) && w < |s.workers|
    ensures AllOrderly(Crashing(s, w)) && Accounts(Crashing(s, w), g)
  {
    if s.workers[w].Handling? { CrashInHandler(s, w, g); } else { CrashElsewhere(s, w, g); }
  }

  lemma StepKeepsCounters(s: State, a: Action, g: Gauge)
    requires AllOrderly(s) && Accounts(s, g)
    ensures AllOrderly(Step(s, a)) && Accounts(Step(s, a), g)
  {
    if a.Publish? || a.Replay? {
    } else if a.w < |s.workers| {
      var s', w := Step(s, a), a.w;
      if a.Land? {
        if CanLand(s.workers[w], a.i) {
          LandingOrderly(s, w, a.i, a.fate);
          LandingAccounts(s, w, a.i, a.fate, g);
        }
      } else if a.Look? {
        if s' != s {
          LookingOrderly(s, w, a.answered);
          LookingAccounts(s, w, a.answered, g);
        }
      } else if a.Crash? {
        CrashingKeepsCounters(s, w, g);
      } else {
        OutsideQuiet(s, a);
        if s' != s { QuietKeepsCounters(s, s', w, g); }
      }
    }
  }

  lemma OutsideQuiet(s: State, a: Action)
    requires a.Deliver? || a.Mark? || a.Dispatch? || a.Unmark? || a.Settle?
    requires a.w < |s.workers|
    ensures Step(s, a) == s || Quiet(s, Step(s, a), a.w)
  {
    match a
    case Deliver(w, m) => DeliveringQuiet(s, w, m);
    case Mark(w, fate) => MarkingQuiet(s, w, fate);
    case Dispatch(w) => DispatchingQuiet(s, w);
    case Unmark(w, fate) => RemovingQuiet(s, w, fate);
    case Settle(w) => SettlingQuiet(s, w);
  }

  lemma {:induction false} RunKeepsCounters(n: nat, hasDlx: bool, run: seq<Action>, g: Gauge)
    ensures var s := Exec(Initial(n, hasDlx), run); AllOrderly(s) && Accounts(s, g)
  {
    if run == [] {
      NoneInFlight(Initial(n, hasDlx).workers, g);
    } else {
      var before := run[..|run| - 1];
      RunKeepsCounters(n, hasDlx, before, g);
      StepKeepsCounters(Exec(Initial(n, hasDlx), before), run[|run| - 1], g);
    }
  }

  lemma {:induction false} NoneInFlight(ws: seq<Worker>, g: Gauge)
    requires forall w :: w in ws ==> !w.Handling?
    ensures Sum(ws, RunningLanded(g)) == 0
  {
    if ws != [] {
      assert ws[|ws| - 1] in ws;
      NoneInFlight(ws[..|ws| - 1], g);
    }
  }
}
