// Lost broker connections. The handler of a worker whose connection dies runs on; the
// broker redelivers its message meanwhile, and its own Ack or Nack reaches nobody.
// Locks and books hold all the same, and it is said exactly which events can still
// complete.
module LostConnections {
  import opened Events
  import opened Folds
  import opened Aggregates
  import opened Protocol
  import opened ProtocolSafety
  import opened ProtocolCounters
  import opened ProtocolProgress
  import opened ProtocolRecovery

  // The workers in cut have no connection. They get no delivery until their process
  // is restarted.
  datatype Net = Net(s: State, cut: set<nat>)

  datatype Occurrence = Do(a: Action) | Disconnect(w: nat) | Restart(w: nat)

  function Connected(n: nat, hasDlx: bool): Net {
    Net(Initial(n, hasDlx), {})
  }

  function CopyOf(h: Worker): multiset<Message> {
    if h.Idle? then multiset{} else multiset{h.msg}
  }

  function Disconnecting(l: Net, w: nat): Net {
    if w < |l.s.workers| && w !in l.cut then Net(l.s.(queue := l.s.queue + CopyOf(l.s.workers[w])), l.cut + {w}) else l
  }

  function Restarting(l: Net, w: nat): Net {
    if w < |l.s.workers| && l.s.workers[w].Idle? then Net(l.s, l.cut - {w}) else l
  }

  // Without a connection a delivery does not come, a settlement is not heard, and
  // after a crash there is nothing to redeliver.
  function CutOff(s: State, a: Action): (s': State)
    requires !a.Publish? && !a.Replay? && a.w < |s.workers|
    ensures |s'.workers| == |s.workers|
  {
    match a
    case Deliver(_, _) => s
    case Settle(w) => if s.workers[w].Acking? || s.workers[w].Nacking? then SetWorker(s, w, Idle) else s
    case Crash(w) => Crashing(s, w).(queue := s.queue)
    case _ => Step(s, a)
  }

  predicate ByCut(l: Net, a: Action) {
    !a.Publish? && !a.Replay? && a.w < |l.s.workers| && a.w in l.cut
  }

  function NetStep(l: Net, d: Occurrence): (l': Net)
    ensures |l'.s.workers| == |l.s.workers|
  {
    match d
    case Disconnect(w) => Disconnecting(l, w)
    case Restart(w) => Restarting(l, w)
    case Do(a) => Net(if ByCut(l, a) then CutOff(l.s, a) else Step(l.s, a), l.cut)
  }

  function NetExec(l: Net, run: seq<Occurrence>): Net {
    Fold(l, run, NetStep)
  }

  // ---------- What lost connections do not change ----------

  ghost predicate WellKept(s: State) {
    Locks(s) && AllOrderly(s) && Provenance(s)
  }

  lemma SettledUnheard(s: State, w: nat, g: Gauge)
    requires WellKept(s) && Accounts(s, g) && w < |s.workers| && (s.workers[w].Acking? || s.workers[w].Nacking?)
    ensures WellKept(SetWorker(s, w, Idle)) && Accounts(SetWorker(s, w, Idle), g)
  {
    BystanderKeepsLocks(s, SetWorker(s, w, Idle), w);
    ReplacedOrderly(s, SetWorker(s, w, Idle), w);
    MovedAccounts(s, SetWorker(s, w, Idle), w, Idle, g);
  }

  lemma StepKeepsProvenance(s: State, a: Action)
    requires Provenance(s)
    ensures Provenance(Step(s, a))
  {
    if !a.Publish? && !a.Replay? && a.w < |s.workers| {
      ActionTraffic(s, a, a.w);
      if Step(s, a) != s { TrafficKeepsProvenance(s, Step(s, a), a.w); }
    }
  }

  lemma StepKeepsAll(s: State, a: Action, g: Gauge)
    requires WellKept(s) && Accounts(s, g)
    ensures WellKept(Step(s, a)) && Accounts(Step(s, a), g)
  {
    StepKeepsLocks(s, a);
    StepKeepsCounters(s, a, g);
    StepKeepsProvenance(s, a);
  }

  // What is queued matters to neither locks nor books.
  lemma OtherQueue(s: State, queue: multiset<Message>, g: Gauge)
    requires WellKept(s) && Accounts(s, g)
    requires forall m :: m in queue ==> m in s.published
    ensures WellKept(s.(queue := queue)) && Accounts(s.(queue := queue), g)
  {
    var t := s.(queue := queue);
    assert t.workers == s.workers && t.attempts == s.attempts && t.store == s.store;
    assert Locks(t) by { assert OpenRowsAreHeld(t) && CompletedOnce(t); }
  }

  lemma CutOffKeepsAll(s: State, a: Action, g: Gauge)
    requires WellKept(s) && Accounts(s, g) && !a.Publish? && !a.Replay? && a.w < |s.workers|
    ensures WellKept(CutOff(s, a)) && Accounts(CutOff(s, a), g)
  {
    match a
    case Deliver(_, _) =>
    case Settle(w) => if s.workers[w].Acking? || s.workers[w].Nacking? { SettledUnheard(s, w, g); }
    case Crash(w) =>
      StepKeepsAll(s, a, g);
      assert forall m :: m in s.queue ==> Pooled(s, m);
      CrashPublishesNothing(s, w);
      OtherQueue(Crashing(s, w), s.queue, g);
    case _ => StepKeepsAll(s, a, g);
  }

  lemma CrashPublishesNothing(s: State, w: nat)
    requires w < |s.workers|
    ensures Crashing(s, w).published == s.published
  {
  }

  lemma NetStepKeepsAll(l: Net, d: Occurrence, g: Gauge)
    requires WellKept(l.s) && Accounts(l.s, g)
    ensures WellKept(NetStep(l, d).s) && Accounts(NetStep(l, d).s, g)
  {
    match d
    case Disconnect(w) =>
      if w < |l.s.workers| && w !in l.cut {
        assert forall m :: m in l.s.queue ==> Pooled(l.s, m);
        OtherQueue(l.s, l.s.queue + CopyOf(l.s.workers[w]), g);
      }
    case Restart(_) =>
    case Do(a) => if ByCut(l, a) { CutOffKeepsAll(l.s, a, g); } else { StepKeepsAll(l.s, a, g); }
  }

  lemma StartsKept(n: nat, hasDlx: bool, g: Gauge)
    ensures WellKept(Initial(n, hasDlx)) && Accounts(Initial(n, hasDlx), g)
  {
    NoneInFlight(Initial(n, hasDlx).workers, g);
  }

  lemma NetStepKeepsShape(l: Net, d: Occurrence)
    ensures |NetStep(l, d).s.workers| == |l.s.workers| && NetStep(l, d).s.hasDlx == l.s.hasDlx
  {
  }

  // Every run, connections lost at any moment: rows keep their two roles, so no event
  // is handled twice at once or completes twice, and every counter is still the sum
  // of what all handler runs have landed.
  lemma {:induction false} RunKeepsLocksAndBooks(n: nat, hasDlx: bool, run: seq<Occurrence>, g: Gauge)
    ensures var l := NetExec(Connected(n, hasDlx), run);
            Locks(l.s) && AllOrderly(l.s) && Accounts(l.s, g) && Provenance(l.s) && |l.s.workers| == n
              && l.s.hasDlx == hasDlx
  {
    if run == [] {
      StartsKept(n, hasDlx, g);
    } else {
      var k := |run| - 1;
      RunKeepsLocksAndBooks(n, hasDlx, run[..k], g);
      NetStepKeepsAll(NetExec(Connected(n, hasDlx), run[..k]), run[k], g);
      NetStepKeepsShape(NetExec(Connected(n, hasDlx), run[..k]), run[k]);
    }
  }

  // ---------- Events nothing can bring back ----------

  predicate Has(h: Worker, id: EventId) {
    !h.Idle? && IsFor(h.msg, id)
  }

  // What the worker still does for its message ends without completing the event.
  predicate Spent(h: Worker) {
    h.Acking? || h.Nacking? || h.Unmarking? || (h.Handling? && h.spoilt)
  }

  // A connected worker may at most have an Ack of the event pending, and only if so
  // allowed; one without a connection is bound to fail.
  ghost predicate Useless(l: Net, id: EventId, acks: bool, i: nat)
    requires i < |l.s.workers|
  {
    Has(l.s.workers[i], id) ==> if i in l.cut then Spent(l.s.workers[i]) else acks && l.s.workers[i].Acking?
  }

  // The event has not completed, no message of it is left with the broker, and no
  // worker will complete it.
  ghost predicate Hopeless(l: Net, id: EventId, acks: bool) {
    && id !in l.s.done
    && (forall m :: Pooled(l.s, m) ==> !IsFor(m, id))
    && forall i :: 0 <= i < |l.s.workers| ==> Useless(l, id, acks, i)
  }

  // Worker w alone changed, its message for another event.
  ghost predicate Elsewhere(s: State, t: State, w: nat, id: EventId) {
    && w < |s.workers| == |t.workers| && t.workers == s.workers[w := t.workers[w]]
    && (id in t.done ==> id in s.done)
    && (Has(t.workers[w], id) ==> Has(s.workers[w], id))
    && forall m :: Pooled(t, m) && IsFor(m, id) ==> Pooled(s, m) || Has(s.workers[w], id)
  }

  lemma CompletesOwn(s: State, a: Action, w: nat, id: EventId)
    requires !a.Publish? && !a.Replay? && a.w == w < |s.workers| && WorkerOrderly(s.workers[w])
    requires id in Step(s, a).done && id !in s.done
    ensures (a.Land? || a.Look?) && Has(s.workers[w], id) && !Spent(s.workers[w])
  {
    match a
    case Land(_, i, fate) =>
      if CanLand(s.workers[w], i) && Tried(s.workers[w], i, fate).left == {} { LandingEnds(s, w, i, fate); }
    case _ =>
  }

  lemma OthersElsewhere(s: State, a: Action, w: nat, id: EventId)
    requires AllOrderly(s) && !a.Publish? && !a.Replay? && a.w == w < |s.workers|
    requires !Has(s.workers[w], id) && (forall m :: Pooled(s, m) ==> !IsFor(m, id))
    ensures Elsewhere(s, Step(s, a), w, id)
  {
    ActionTraffic(s, a, w);
    ActionEvens(s, a);
    assert WorkerOrderly(s.workers[w]);
    if id in Step(s, a).done && id !in s.done { CompletesOwn(s, a, w, id); }
  }

  // A worker that is spent stays so until it settles or dies.
  ghost predicate StillSpent(s: State, t: State, w: nat) {
    && w < |s.workers| == |t.workers| && t.workers == s.workers[w := t.workers[w]]
    && t.done == s.done && t.queue == s.queue && t.dlq == s.dlq && t.dropped == s.dropped
    && !s.workers[w].Idle? && (t.workers[w].Idle? || (Spent(t.workers[w]) && t.workers[w].msg == s.workers[w].msg))
  }

  lemma SpentLands(s: State, w: nat, i: nat, fate: Fate)
    requires w < |s.workers| && Spent(s.workers[w])
    ensures StillSpent(s, Landing(s, w, i, fate), w)
  {
    if CanLand(s.workers[w], i) && Tried(s.workers[w], i, fate).left == {} { LandingEnds(s, w, i, fate); }
  }

  lemma SpentCutOff(s: State, a: Action, w: nat)
    requires !a.Publish? && !a.Replay? && a.w == w < |s.workers| && WorkerOrderly(s.workers[w])
    requires Spent(s.workers[w])
    ensures StillSpent(s, CutOff(s, a), w)
  {
    match a
    case Land(_, i, fate) => SpentLands(s, w, i, fate);
    case _ =>
  }

  predicate Gentle(d: Occurrence) {
    match d
    case Do(a) => Smooth(a)
    case Disconnect(_) => false
    case Restart(_) => true
  }

  predicate Republishes(d: Occurrence, id: EventId) {
    d.Do? && d.a.Publish? && IsFor(d.a.m, id)
  }

  lemma CutStaysHopeless(l: Net, a: Action, id: EventId, acks: bool)
    requires WellKept(l.s) && Hopeless(l, id, acks) && ByCut(l, a)
    ensures Hopeless(NetStep(l, Do(a)), id, acks)
  {
    var s, t, w := l.s, CutOff(l.s, a), a.w;
    assert WorkerOrderly(s.workers[w]) && Useless(l, id, acks, w);
    if Has(s.workers[w], id) {
      SpentCutOff(s, a, w);
    } else {
      OthersElsewhere(s, a, w, id);
    }
    forall i | 0 <= i < |t.workers| ensures Useless(Net(t, l.cut), id, acks, i) {
      assert Useless(l, id, acks, i);
    }
  }

  lemma AckStaysHopeless(s: State, a: Action, w: nat)
    requires !a.Publish? && !a.Replay? && !a.Crash? && a.w == w < |s.workers| && s.workers[w].Acking?
    ensures Step(s, a) == s || (a.Settle? && Step(s, a) == SetWorker(s, w, Idle).(settled := s.settled + 1))
  {
  }

  lemma ConnectedStaysHopeless(l: Net, a: Action, id: EventId, acks: bool)
    requires WellKept(l.s) && Hopeless(l, id, acks) && !ByCut(l, a) && !a.Publish? && !a.Replay?
    requires acks ==> Smooth(a)
    ensures Hopeless(NetStep(l, Do(a)), id, acks)
  {
    var s, t, w := l.s, Step(l.s, a), a.w;
    if w < |s.workers| {
      assert Useless(l, id, acks, w);
      if Has(s.workers[w], id) {
        AckStaysHopeless(s, a, w);
      } else {
        OthersElsewhere(s, a, w, id);
      }
      forall i | 0 <= i < |t.workers| ensures Useless(Net(t, l.cut), id, acks, i) {
        assert Useless(l, id, acks, i);
      }
    }
  }

  lemma DisconnectStaysHopeless(l: Net, w: nat, id: EventId)
    requires Hopeless(l, id, false)
    ensures Hopeless(Disconnecting(l, w), id, false)
  {
    var l' := Disconnecting(l, w);
    if w < |l.s.workers| { assert Useless(l, id, false, w); }
    forall m | Pooled(l'.s, m) ensures !IsFor(m, id) {
      if !Pooled(l.s, m) { assert m in CopyOf(l.s.workers[w]); }
    }
    forall i | 0 <= i < |l'.s.workers| ensures Useless(l', id, false, i) {
      assert Useless(l, id, false, i);
    }
  }

  lemma RestartStaysHopeless(l: Net, w: nat, id: EventId, acks: bool)
    requires Hopeless(l, id, acks)
    ensures Hopeless(Restarting(l, w), id, acks)
  {
    forall i | 0 <= i < |l.s.workers| ensures Useless(Restarting(l, w), id, acks, i) {
      assert Useless(l, id, acks, i);
    }
  }

  lemma PoolStaysHopeless(l: Net, a: Action, id: EventId, acks: bool)
    requires Hopeless(l, id, acks) && (a.Publish? || a.Replay?) && !Republishes(Do(a), id)
    ensures Hopeless(NetStep(l, Do(a)), id, acks)
  {
    var l' := NetStep(l, Do(a));
    forall m | Pooled(l'.s, m) ensures !IsFor(m, id) {
      if a.Replay? { assert Pooled(l.s, m); } else if m != a.m { assert Pooled(l.s, m); }
    }
    forall i | 0 <= i < |l'.s.workers| ensures Useless(l', id, acks, i) {
      assert Useless(l, id, acks, i);
    }
  }

  // Unless the event is published again it stays hopeless: while Acks are pending
  // under ordinary operation, without them whatever happens.
  lemma StaysHopeless(l: Net, d: Occurrence, id: EventId, acks: bool)
    requires WellKept(l.s) && Hopeless(l, id, acks) && !Republishes(d, id) && (acks ==> Gentle(d))
    ensures Hopeless(NetStep(l, d), id, acks)
  {
    match d
    case Disconnect(w) => DisconnectStaysHopeless(l, w, id);
    case Restart(w) => RestartStaysHopeless(l, w, id, acks);
    case Do(a) =>
      if a.Publish? || a.Replay? {
        PoolStaysHopeless(l, a, id, acks);
      } else if ByCut(l, a) {
        CutStaysHopeless(l, a, id, acks);
      } else {
        ConnectedStaysHopeless(l, a, id, acks);
      }
  }

  // ---------- Events that can still complete ----------

  // A set of states that ordinary operation does not leave.
  ghost predicate NetStays(inv: Net -> bool) {
    && (forall l, d {:trigger NetStep(l, d)} :: inv(l) && Gentle(d) ==> inv(NetStep(l, d)))
    && (forall l :: inv(l) ==> WellKept(l.s) && l.s.hasDlx)
  }

  // Worker w's own progress: nobody else's, and the broker loses nothing.
  ghost predicate OwnProgress(l: Net, l': Net, w: nat) {
    && w < |l.s.workers| == |l'.s.workers| && l'.s.workers == l.s.workers[w := l'.s.workers[w]]
    && l'.cut == l.cut && l'.s.published == l.s.published
    && forall m :: Pooled(l.s, m) ==> Pooled(l'.s, m)
  }

  lemma OwnMoves(l: Net, a: Action, w: nat)
    requires w < |l.s.workers| && Own(a, w) && !l.s.workers[w].Idle?
    ensures OwnProgress(l, NetStep(l, Do(a)), w)
  {
    if w in l.cut && a.Settle? {
      assert CutOff(l.s, a).published == l.s.published;
    } else {
      ActionEvens(l.s, a);
      NoneTaken(l.s, a, w);
      assert NetStep(l, Do(a)).s == Step(l.s, a);
    }
  }

  lemma NoneTaken(s: State, a: Action, w: nat)
    requires w < |s.workers| && Own(a, w)
    ensures forall m :: Pooled(s, m) ==> Pooled(Step(s, a), m)
    ensures Step(s, a).published == s.published
  {
    match a
    case Land(_, i, fate) => if CanLand(s.workers[w], i) { LandingInside(s, w, i, fate); }
    case Look(_, answered) => if Step(s, a) != s { LookingInside(s, w, answered); }
    case _ =>
  }

  // What the worker would do next in ordinary operation.
  lemma NextMove(inv: Net -> bool, l: Net, w: nat) returns (a: Action)
    requires NetStays(inv) && inv(l) && w < |l.s.workers| && !l.s.workers[w].Idle?
    ensures Own(a, w) && Smooth(a) && Step(l.s, a) != l.s
    ensures var l' := NetStep(l, Do(a));
            inv(l') && OwnProgress(l, l', w) && Rank(l'.s.workers[w]) < Rank(l.s.workers[w])
  {
    a := NeverBlocked(l.s, w);
    OwnActionLowersRank(l.s, a, w);
    OwnMoves(l, a, w);
  }

  // On the way to completion, its connection being there or not.
  lemma Completes(inv: Net -> bool, l: Net, w: nat, id: EventId, e: Event) returns (l': Net)
    requires NetStays(inv) && inv(l) && OnTrack(l.s, w, id, e)
    ensures inv(l') && id in l'.s.done
    decreases Rank(l.s.workers[w])
  {
    var a := NextMove(inv, l, w);
    l' := NetStep(l, Do(a));
    TrackStep(l.s, a, w, id, e);
    assert !a.Settle?;
    if id !in l'.s.done { l' := Completes(inv, l', w, id, e); }
  }

  // The row's holder is about to give it up.
  ghost predicate AboutToFail(l: Net, w: nat, m: Message) {
    && w < |l.s.workers| && m.Envelope? && m.id !in l.s.done
    && match l.s.workers[w]
       case Handling(x, _, _, _, _, _, spoilt, _) => x == m && spoilt
       case Unmarking(x) => x == m
       case Nacking(x, requeue) => x == m && !requeue && m.id !in l.s.rows
       case _ => false
  }

  lemma SpoiltLands(s: State, w: nat, i: nat, fate: Fate)
    requires w < |s.workers| && CanLand(s.workers[w], i) && s.workers[w].spoilt
    ensures var t, m := Landing(s, w, i, fate), s.workers[w].msg;
            && t.done == s.done && w < |t.workers|
            && var h := t.workers[w]; h == Unmarking(m) || (h.Handling? && h.msg == m && h.spoilt)
  {
    if Tried(s.workers[w], i, fate).left == {} { LandingEnds(s, w, i, fate); }
  }

  lemma SpoiltMoves(l: Net, a: Action, w: nat, m: Message)
    requires WellKept(l.s) && AboutToFail(l, w, m) && l.s.workers[w].Handling? && Own(a, w) && Smooth(a)
    ensures AboutToFail(NetStep(l, Do(a)), w, m)
  {
    assert WorkerOrderly(l.s.workers[w]);
    if a.Land? && CanLand(l.s.workers[w], a.i) {
      SpoiltLands(l.s, w, a.i, a.fate);
    } else {
      assert Step(l.s, a) == l.s;
    }
  }

  lemma FailureMoves(l: Net, a: Action, w: nat, m: Message)
    requires WellKept(l.s) && l.s.hasDlx && AboutToFail(l, w, m) && Own(a, w) && Smooth(a) && Step(l.s, a) != l.s
    ensures var l' := NetStep(l, Do(a));
            || AboutToFail(l', w, m)
            || (l'.s.workers[w].Idle? && m.id !in l'.s.rows && m.id !in l'.s.done && (w !in l.cut ==> m in l'.s.dlq))
  {
    if l.s.workers[w].Handling? { SpoiltMoves(l, a, w, m); }
  }

  // It finishes: the row is free, and with a connection the message dead-lettered.
  lemma Frees(inv: Net -> bool, l: Net, w: nat, m: Message) returns (l': Net)
    requires NetStays(inv) && inv(l) && AboutToFail(l, w, m)
    ensures inv(l') && OwnProgress(l, l', w) && l'.s.workers[w].Idle?
    ensures m.id !in l'.s.rows && m.id !in l'.s.done && (w !in l.cut ==> m in l'.s.dlq)
    decreases Rank(l.s.workers[w])
  {
    var a := NextMove(inv, l, w);
    l' := NetStep(l, Do(a));
    FailureMoves(l, a, w, m);
    if !l'.s.workers[w].Idle? { l' := Frees(inv, l', w, m); }
  }

  // The message waits with the broker, its row is free, and no worker has it before
  // it.
  ghost predicate Waiting(l: Net, w: nat, m: Message) {
    && w < |l.s.workers| && m.Envelope? && m.id !in l.s.rows && m.id !in l.s.done && Pooled(l.s, m)
    && (l.s.workers[w].Got? ==> !IsFor(l.s.workers[w].msg, m.id))
  }

  lemma HandlingLeavesRows(s: State, a: Action, w: nat)
    requires w < |s.workers| && Own(a, w) && (a.Land? || a.Look?)
    ensures Step(s, a).rows == s.rows && (!Step(s, a).workers[w].Got? || Step(s, a) == s)
  {
    match a
    case Land(_, i, fate) =>
      if CanLand(s.workers[w], i) {
        LandingInside(s, w, i, fate);
        LandingStays(s, w, i, fate);
      }
    case Look(_, answered) => if Step(s, a) != s { LookingInside(s, w, answered); }
  }

  lemma LandingStays(s: State, w: nat, i: nat, fate: Fate)
    requires w < |s.workers| && CanLand(s.workers[w], i)
    ensures !Landing(s, w, i, fate).workers[w].Got?
  {
  }

  lemma RowsByOwn(s: State, a: Action, w: nat, id: EventId)
    requires w < |s.workers| && Own(a, w) && id !in s.rows
    requires s.workers[w].Got? ==> !IsFor(s.workers[w].msg, id)
    ensures id !in Step(s, a).rows
    ensures !Step(s, a).workers[w].Got? || Step(s, a) == s
  {
    if a.Land? || a.Look? { HandlingLeavesRows(s, a, w); }
  }

  lemma OwnRow(s: State, a: Action, w: nat, id: EventId)
    requires WellKept(s) && w < |s.workers| && Own(a, w) && id !in s.rows && id !in s.done
    requires s.workers[w].Got? ==> !IsFor(s.workers[w].msg, id)
    ensures id !in Step(s, a).rows && id !in Step(s, a).done
    ensures Step(s, a).workers[w].Got? ==> !IsFor(Step(s, a).workers[w].msg, id)
  {
    RowsByOwn(s, a, w, id);
    if id in Step(s, a).done {
      assert WorkerOrderly(s.workers[w]);
      CompletesOwn(s, a, w, id);
    }
  }

  lemma ClearsDesk(inv: Net -> bool, l: Net, w: nat, m: Message) returns (l': Net)
    requires NetStays(inv) && inv(l) && Waiting(l, w, m)
    ensures inv(l') && Waiting(l', w, m) && l'.s.workers[w].Idle? && l'.s.published == l.s.published
    decreases Rank(l.s.workers[w])
  {
    l' := l;
    if !l.s.workers[w].Idle? {
      var a := NextMove(inv, l, w);
      OwnRow(l.s, a, w, m.id);
      l' := NetStep(l, Do(a));
      l' := ClearsDesk(inv, l', w, m);
    }
  }

  lemma WithBroker(inv: Net -> bool, l: Net, w: nat, m: Message) returns (l': Net)
    requires NetStays(inv) && inv(l) && Waiting(l, w, m)
    ensures inv(l') && l'.s.workers == l.s.workers && l'.cut == l.cut && l'.s.rows == l.s.rows && m in l'.s.queue
  {
    l' := l;
    if m !in l.s.queue { l' := NetStep(l, Do(Replay(m))); }
  }

  lemma Fetches(inv: Net -> bool, l: Net, w: nat, m: Message) returns (l': Net)
    requires NetStays(inv) && inv(l) && Waiting(l, w, m) && l.s.workers[w].Idle?
    ensures inv(l') && w < |l'.s.workers| && l'.s.workers[w] == Got(m) && m.id !in l'.s.rows
  {
    l' := WithBroker(inv, l, w, m);
    l' := NetStep(l', Restart(w));
    var a := Deliver(w, m);
    assert Gentle(Do(a)) && !ByCut(l', a) && NetStep(l', Do(a)).s == Delivering(l'.s, w, m);
    l' := NetStep(l', Do(a));
  }

  // ---------- The characterisation ----------

  // A worker that can still complete the event, or hand its message back.
  ghost predicate Promising(l: Net, id: EventId, i: nat) {
    && i < |l.s.workers| && Has(l.s.workers[i], id)
    && if i in l.cut then !Spent(l.s.workers[i]) else !l.s.workers[i].Acking?
  }

  lemma HopeLeft(l: Net, id: EventId)
    requires !Hopeless(l, id, true) && id !in l.s.done
    ensures (exists m :: Pooled(l.s, m) && IsFor(m, id)) || (exists i: nat :: Promising(l, id, i))
  {
    if !exists m :: Pooled(l.s, m) && IsFor(m, id) {
      var i :| 0 <= i < |l.s.workers| && !Useless(l, id, true, i);
      assert Promising(l, id, i);
    }
  }

  lemma Known(l: Net, m: Message, id: EventId)
    requires WellKept(l.s) && Handled(l.s, id) && IsFor(m, id)
    requires Pooled(l.s, m) || (exists i :: 0 <= i < |l.s.workers| && !l.s.workers[i].Idle? && l.s.workers[i].msg == m)
    ensures m.payload.Carries?
  {
  }

  // A worker with a message of the event whose row is free, or its own with nothing
  // failed, completes it.
  lemma OnTrackWith(inv: Net -> bool, l: Net, w: nat, id: EventId) returns (l': Net)
    requires NetStays(inv) && inv(l) && Handled(l.s, id) && w < |l.s.workers| && Has(l.s.workers[w], id)
    requires (l.s.workers[w].Got? && id !in l.s.rows) || l.s.workers[w].Marked?
             || (l.s.workers[w].Handling? && !l.s.workers[w].spoilt)
    ensures inv(l') && id in l'.s.done
  {
    var m := l.s.workers[w].msg;
    Known(l, m, id);
    assert WorkerOrderly(l.s.workers[w]);
    l' := Completes(inv, l, w, id, m.payload.event);
  }

  // A waiting message of an event with its row free: if no worker is about to handle
  // another copy, the first one clears its desk and fetches it.
  lemma WaitingCompletes(inv: Net -> bool, l: Net, m: Message, id: EventId) returns (l': Net)
    requires NetStays(inv) && inv(l) && Handled(l.s, id) && l.s.workers != [] && IsFor(m, id)
    requires Pooled(l.s, m) && id !in l.s.rows && id !in l.s.done
    ensures inv(l') && id in l'.s.done
  {
    if l.s.workers[0].Got? && IsFor(l.s.workers[0].msg, id) {
      l' := OnTrackWith(inv, l, 0, id);
    } else {
      Known(l, m, id);
      l' := ClearsDesk(inv, l, 0, m);
      l' := Fetches(inv, l', 0, m);
      l' := Completes(inv, l', 0, id, m.payload.event);
    }
  }

  // With the row free.
  lemma FreeCompletes(inv: Net -> bool, l: Net, id: EventId) returns (l': Net)
    requires NetStays(inv) && inv(l) && Handled(l.s, id) && l.s.workers != [] && id !in l.s.rows && id !in l.s.done
    requires (exists m :: Pooled(l.s, m) && IsFor(m, id)) || (exists i: nat :: Promising(l, id, i))
    ensures inv(l') && id in l'.s.done
  {
    if m :| Pooled(l.s, m) && IsFor(m, id) {
      l' := WaitingCompletes(inv, l, m, id);
    } else {
      var i: nat :| Promising(l, id, i);
      var h := l.s.workers[i];
      assert !Holding(h);
      if h.Got? {
        l' := OnTrackWith(inv, l, i, id);
      } else {
        l' := HandsBack(inv, l, i);
        l' := WaitingCompletes(inv, l', h.msg, id);
      }
    }
  }

  lemma HandsBack(inv: Net -> bool, l: Net, w: nat) returns (l': Net)
    requires NetStays(inv) && inv(l) && w < |l.s.workers| && w !in l.cut && l.s.workers[w].Nacking?
    ensures inv(l') && Pooled(l'.s, l.s.workers[w].msg) && l'.s.workers != []
    ensures l'.s.rows == l.s.rows && l'.s.done == l.s.done && l'.s.published == l.s.published
  {
    l' := NetStep(l, Do(Settle(w)));
  }

  // With the row held by a worker bound to fail.
  lemma HeldCompletes(inv: Net -> bool, l: Net, id: EventId, w: nat) returns (l': Net)
    requires NetStays(inv) && inv(l) && Handled(l.s, id) && id !in l.s.done
    requires w < |l.s.workers| && Has(l.s.workers[w], id) && AboutToFail(l, w, l.s.workers[w].msg)
    requires (exists m :: Pooled(l.s, m) && IsFor(m, id)) || (exists i: nat :: Promising(l, id, i))
    ensures inv(l') && id in l'.s.done
  {
    var m := l.s.workers[w].msg;
    l' := Frees(inv, l, w, m);
    if w !in l.cut {
      assert Pooled(l'.s, m);
    } else if i: nat :| Promising(l, id, i) {
      assert i != w && Promising(l', id, i);
    }
    l' := FreeCompletes(inv, l', id);
  }

  lemma HopeCompletes(inv: Net -> bool, l: Net, id: EventId) returns (l': Net)
    requires NetStays(inv) && inv(l) && Handled(l.s, id) && l.s.workers != []
    requires id !in l.s.stuck && !Hopeless(l, id, true)
    ensures inv(l') && id in l'.s.done
  {
    l' := l;
    if id !in l.s.done {
      HopeLeft(l, id);
      assert id !in l.s.skipped by {
        if id in l.s.skipped { assert IsFor(Envelope(id, Unregistered), id); }
      }
      if id !in l.s.rows {
        l' := FreeCompletes(inv, l, id);
      } else {
        var w :| 0 <= w < |l.s.workers| && Holds(l.s.workers[w], id);
        if Spent(l.s.workers[w]) {
          l' := HeldCompletes(inv, l, id, w);
        } else {
          l' := OnTrackWith(inv, l, w, id);
        }
      }
    }
  }

  ghost predicate AllGentle(run: seq<Occurrence>) {
    forall d :: d in run ==> Gentle(d)
  }

  ghost predicate GentlyFrom(l: Net, l': Net) {
    exists more :: AllGentle(more) && NetExec(l, more) == l'
  }

  lemma GentlyOn(l: Net, t: Net, d: Occurrence)
    requires GentlyFrom(l, t) && Gentle(d)
    ensures GentlyFrom(l, NetStep(t, d))
  {
    var more :| AllGentle(more) && NetExec(l, more) == t;
    FoldNext(l, more, d, NetStep);
    assert AllGentle(more + [d]);
  }

  lemma GentlyStays(n: nat, run: seq<Occurrence>, inv: Net -> bool)
    requires forall t :: inv(t) <==> GentlyFrom(NetExec(Connected(n, true), run), t)
    ensures NetStays(inv) && inv(NetExec(Connected(n, true), run))
  {
    var l := NetExec(Connected(n, true), run);
    assert GentlyFrom(l, l) by { assert AllGentle([]) && NetExec(l, []) == l; }
    forall t, d | inv(t) && Gentle(d) ensures inv(NetStep(t, d)) { GentlyOn(l, t, d); }
    forall t | inv(t) ensures WellKept(t.s) && t.s.hasDlx {
      var more :| AllGentle(more) && NetExec(l, more) == t;
      FoldConcat(Connected(n, true), run, more, NetStep);
      RunKeepsLocksAndBooks(n, true, run + more, At(RestaurantCell(DayKey(0, 0), Orders)));
    }
  }

  ghost predicate NotRepublished(more: seq<Occurrence>, id: EventId) {
    forall d :: d in more ==> !Republishes(d, id)
  }

  lemma {:induction false} HopelessForever(n: nat, run: seq<Occurrence>, more: seq<Occurrence>, id: EventId, acks: bool)
    requires Hopeless(NetExec(Connected(n, true), run), id, acks) && NotRepublished(more, id)
             && (acks ==> AllGentle(more))
    ensures Hopeless(NetExec(NetExec(Connected(n, true), run), more), id, acks)
  {
    if more != [] {
      var k := |more| - 1;
      assert more[k] in more;
      HopelessForever(n, run, more[..k], id, acks);
      FoldConcat(Connected(n, true), run, more[..k], NetStep);
      RunKeepsLocksAndBooks(n, true, run + more[..k], At(RestaurantCell(DayKey(0, 0), Orders)));
      StaysHopeless(NetExec(NetExec(Connected(n, true), run), more[..k]), more[k], id, acks);
    }
  }

  lemma StuckStaysStuck(l: Net, d: Occurrence)
    ensures l.s.stuck <= NetStep(l, d).s.stuck
  {
    if d.Do? { StuckStays(l.s, d.a); }
  }

  lemma {:induction false} StuckForGood(n: nat, run: seq<Occurrence>, more: seq<Occurrence>, id: EventId)
    requires id in NetExec(Connected(n, true), run).s.stuck
    ensures var t := NetExec(NetExec(Connected(n, true), run), more); id in t.s.stuck && id !in t.s.done
  {
    var l := NetExec(Connected(n, true), run);
    if more != [] {
      var k := |more| - 1;
      StuckForGood(n, run, more[..k], id);
      StuckStaysStuck(NetExec(l, more[..k]), more[k]);
    }
    FoldConcat(Connected(n, true), run, more, NetStep);
    RunKeepsLocksAndBooks(n, true, run + more, At(RestaurantCell(DayKey(0, 0), Orders)));
  }

  // Main result: from every state that a run with lost connections reaches, an event
  // that has a handler can be brought to completion, by ordinary operation, restarts
  // and replays, if and only if its row is not stuck and it is not hopeless. If it is
  // stuck, or hopeless with no Ack of it pending, no continuation whatever completes
  // it unless it is published again.
  lemma CompletesExactlyWhenHopeIsLeft(n: nat, run: seq<Occurrence>, id: EventId)
    requires n > 0 && Handled(NetExec(Connected(n, true), run).s, id)
    ensures var l := NetExec(Connected(n, true), run);
            && ((exists more :: AllGentle(more) && id in NetExec(l, more).s.done) <==>
                id !in l.s.stuck && !Hopeless(l, id, true))
            && (id in l.s.stuck ==> forall more :: id !in NetExec(l, more).s.done)
            && (Hopeless(l, id, false) ==> forall more :: NotRepublished(more, id) ==> id !in NetExec(l, more).s.done)
  {
    var l := NetExec(Connected(n, true), run);
    if id in l.s.stuck {
      forall more ensures id !in NetExec(l, more).s.done { StuckForGood(n, run, more, id); }
    } else if Hopeless(l, id, true) {
      forall more | AllGentle(more) ensures id !in NetExec(l, more).s.done { HopelessForever(n, run, more, id, true); }
    } else {
      var more := GentlyCompletes(n, run, id);
    }
    if Hopeless(l, id, false) {
      forall more | NotRepublished(more, id) ensures id !in NetExec(l, more).s.done {
        HopelessForever(n, run, more, id, false);
      }
    }
  }

  lemma GentlyCompletes(n: nat, run: seq<Occurrence>, id: EventId) returns (more: seq<Occurrence>)
    requires n > 0 && Handled(NetExec(Connected(n, true), run).s, id)
    requires var l := NetExec(Connected(n, true), run); id !in l.s.stuck && !Hopeless(l, id, true)
    ensures AllGentle(more) && id in NetExec(NetExec(Connected(n, true), run), more).s.done
  {
    var l := NetExec(Connected(n, true), run);
    var inv := (t: Net) => GentlyFrom(l, t);
    GentlyStays(n, run, inv);
    RunKeepsLocksAndBooks(n, true, run, At(RestaurantCell(DayKey(0, 0), Orders)));
    var t := HopeCompletes(inv, l, id);
    more :| AllGentle(more) && NetExec(l, more) == t;
  }

  // ---------- While no connection is lost ----------

  function Doing(run: seq<Action>): seq<Occurrence> {
    seq(|run|, i requires 0 <= i < |run| => Do(run[i]))
  }

  lemma {:induction false} DoingIsRunning(n: nat, hasDlx: bool, run: seq<Action>)
    ensures NetExec(Connected(n, hasDlx), Doing(run)) == Net(Exec(Initial(n, hasDlx), run), {})
  {
    if run != [] {
      var k := |run| - 1;
      DoingIsRunning(n, hasDlx, run[..k]);
      assert Doing(run)[..k] == Doing(run[..k]);
    }
  }

  // These are the runs of the protocol, and in them nothing but a stuck row makes an
  // event hopeless.
  lemma NoneHopelessWhileConnected(n: nat, run: seq<Action>, id: EventId)
    requires var l := NetExec(Connected(n, true), Doing(run)); Handled(l.s, id) && id !in l.s.stuck
    ensures NetExec(Connected(n, true), Doing(run)).s == Exec(Initial(n, true), run)
    ensures !Hopeless(NetExec(Connected(n, true), Doing(run)), id, true)
  {
    DoingIsRunning(n, true, run);
    RunLosesNothing(n, true, run);
    var l := NetExec(Connected(n, true), Doing(run));
    if id !in l.s.done {
      var m :| m in l.s.published && IsFor(m, id);
      assert Accounted(l.s, m.id);
      assert id !in l.s.skipped by {
        if id in l.s.skipped { assert IsFor(Envelope(id, Unregistered), id); }
      }
      if !InPools(l.s, id) {
        assert InHands(l.s, id);
        var i :| 0 <= i < |l.s.workers| && Bears(l.s.workers[i], id);
        assert !Useless(l, id, true, i);
      }
    }
  }

  // ---------- An event lost with its connection ----------

  // Worker 0 handles the event when its connection dies; worker 1 gets the second
  // copy and acknowledges it as a duplicate; then worker 0's handler fails.
  function Vanishing(id: EventId, e: Event): seq<Occurrence> {
    var m := Envelope(id, Carries(e));
    [Do(Publish(m)), Do(Deliver(0, m)), Do(Mark(0, Done)), Do(Dispatch(0)), Disconnect(0),
     Do(Deliver(1, m)), Do(Mark(1, Done)), Do(Settle(1)), Do(FirstFailure(e)), Do(Unmark(0, Done)), Do(Settle(0))]
  }

  ghost predicate NetTraces(trace: (Net, seq<Occurrence>) -> bool) {
    forall t, run, d {:trigger NetStep(t, d), run + [d]} :: trace(t, run) ==> trace(NetStep(t, d), run + [d])
  }

  ghost predicate Pair(l: Net, x: Worker, y: Worker, cut: set<nat>, queue: multiset<Message>) {
    && l.s.workers == [x, y] && l.cut == cut && l.s.queue == queue
    && l.s.dlq == multiset{} && l.s.dropped == multiset{} && l.s.hasDlx && l.s.done == {} && l.s.stuck == {}
  }

  lemma Taken0(trace: (Net, seq<Occurrence>) -> bool, m: Message) returns (l: Net)
    requires NetTraces(trace) && trace(Connected(2, true), [])
    ensures trace(l, [] + [Do(Publish(m))] + [Do(Deliver(0, m))])
    ensures Pair(l, Got(m), Idle, {}, multiset{}) && l.s.rows == {}
  {
    l := NetStep(Connected(2, true), Do(Publish(m)));
    assert Pair(l, Idle, Idle, {}, multiset{m}) && l.s.rows == {};
    l := NetStep(l, Do(Deliver(0, m)));
  }

  lemma Handling0(trace: (Net, seq<Occurrence>) -> bool, l0: Net, run: seq<Occurrence>, id: EventId, e: Event)
    returns (l: Net)
    requires NetTraces(trace) && trace(l0, run)
    requires Pair(l0, Got(Envelope(id, Carries(e))), Idle, {}, multiset{}) && l0.s.rows == {}
    ensures trace(l, run + [Do(Mark(0, Done))] + [Do(Dispatch(0))])
    ensures Pair(l, Start(Envelope(id, Carries(e)), e), Idle, {}, multiset{}) && l.s.rows == {id}
  {
    l := NetStep(l0, Do(Mark(0, Done)));
    assert Pair(l, Marked(Envelope(id, Carries(e))), Idle, {}, multiset{}) && l.s.rows == {id};
    l := NetStep(l, Do(Dispatch(0)));
  }

  lemma Taken1(trace: (Net, seq<Occurrence>) -> bool, l0: Net, run: seq<Occurrence>, x: Worker) returns (l: Net)
    requires NetTraces(trace) && trace(l0, run)
    requires !x.Idle? && Pair(l0, x, Idle, {}, multiset{})
    ensures trace(l, run + [Disconnect(0)] + [Do(Deliver(1, x.msg))])
    ensures Pair(l, x, Got(x.msg), {0}, multiset{}) && l.s.rows == l0.s.rows
  {
    l := NetStep(l0, Disconnect(0));
    assert Pair(l, x, Idle, {0}, multiset{x.msg}) && l.s.rows == l0.s.rows;
    l := NetStep(l, Do(Deliver(1, x.msg)));
  }

  lemma Skipped1(trace: (Net, seq<Occurrence>) -> bool, l0: Net, run: seq<Occurrence>, x: Worker, m: Message)
    returns (l: Net)
    requires NetTraces(trace) && trace(l0, run)
    requires m.Envelope? && Pair(l0, x, Got(m), {0}, multiset{}) && m.id in l0.s.rows
    ensures trace(l, run + [Do(Mark(1, Done))] + [Do(Settle(1))])
    ensures Pair(l, x, Idle, {0}, multiset{}) && l.s.rows == l0.s.rows
  {
    l := NetStep(l0, Do(Mark(1, Done)));
    assert Pair(l, x, Acking(m), {0}, multiset{}) && l.s.rows == l0.s.rows;
    l := NetStep(l, Do(Settle(1)));
  }

  lemma FailsAlone(l: Net, id: EventId, e: Event)
    requires var m := Envelope(id, Carries(e)); Pair(l, Start(m, e), Idle, {0}, multiset{}) && l.s.rows == {id}
    ensures Pair(NetStep(l, Do(FirstFailure(e))), Unmarking(Envelope(id, Carries(e))), Idle, {0}, multiset{})
    ensures NetStep(l, Do(FirstFailure(e))).s.rows == {id}
  {
    var plan := Plan(e, None);
    if plan != [] {
      assert |plan[0]| == 1;
      assert Indices(plan[0]) == {0};
    }
  }

  lemma SettlesAlone(l: Net, m: Message)
    requires m.Envelope? && Pair(l, Unmarking(m), Idle, {0}, multiset{}) && l.s.rows == {m.id}
    ensures var l' := NetStep(NetStep(l, Do(Unmark(0, Done))), Do(Settle(0)));
            Pair(l', Idle, Idle, {0}, multiset{}) && l'.s.rows == {}
  {
    var t := NetStep(l, Do(Unmark(0, Done)));
    assert Pair(t, Nacking(m, false), Idle, {0}, multiset{}) && t.s.rows == {};
  }

  lemma FailureUnheard(trace: (Net, seq<Occurrence>) -> bool, l0: Net, run: seq<Occurrence>, id: EventId, e: Event)
    returns (l: Net)
    requires NetTraces(trace) && trace(l0, run)
    requires var m := Envelope(id, Carries(e)); Pair(l0, Start(m, e), Idle, {0}, multiset{}) && l0.s.rows == {id}
    ensures trace(l, run + [Do(FirstFailure(e))] + [Do(Unmark(0, Done))] + [Do(Settle(0))])
    ensures Pair(l, Idle, Idle, {0}, multiset{}) && l.s.rows == {}
  {
    FailsAlone(l0, id, e);
    l := NetStep(l0, Do(FirstFailure(e)));
    SettlesAlone(l, Envelope(id, Carries(e)));
    l := NetStep(l, Do(Unmark(0, Done)));
    l := NetStep(l, Do(Settle(0)));
  }

  lemma Vanished(trace: (Net, seq<Occurrence>) -> bool, id: EventId, e: Event) returns (l: Net)
    requires NetTraces(trace) && trace(Connected(2, true), [])
    ensures trace(l, Vanishing(id, e)) && Pair(l, Idle, Idle, {0}, multiset{}) && l.s.rows == {}
  {
    var m := Envelope(id, Carries(e));
    var x := Start(m, e);
    l := Taken0(trace, m);
    var run := [] + [Do(Publish(m))] + [Do(Deliver(0, m))];
    l := Handling0(trace, l, run, id, e);
    run := run + [Do(Mark(0, Done))] + [Do(Dispatch(0))];
    l := Taken1(trace, l, run, x);
    run := run + [Disconnect(0)] + [Do(Deliver(1, m))];
    l := Skipped1(trace, l, run, x, m);
    run := run + [Do(Mark(1, Done))] + [Do(Settle(1))];
    l := FailureUnheard(trace, l, run, id, e);
    run := run + [Do(FirstFailure(e))] + [Do(Unmark(0, Done))] + [Do(Settle(0))];
    assert Vanishing(id, e) == run;
  }

  // For every event: it ends in no queue, in no worker's hands and without a row,
  // neither completed nor stuck; unless it is published again nothing completes it.
  lemma EventVanishes(id: EventId, e: Event)
    ensures var l := NetExec(Connected(2, true), Vanishing(id, e));
            && Pair(l, Idle, Idle, {0}, multiset{}) && l.s.rows == {}
            && Hopeless(l, id, false)
            && forall more :: NotRepublished(more, id) ==> id !in NetExec(l, more).s.done
  {
    var trace := (t: Net, run: seq<Occurrence>) => NetExec(Connected(2, true), run) == t;
    TracesNet(trace);
    var l := Vanished(trace, id, e);
    forall more | NotRepublished(more, id) ensures id !in NetExec(l, more).s.done {
      HopelessForever(2, Vanishing(id, e), more, id, false);
    }
  }

  lemma TracesNet(trace: (Net, seq<Occurrence>) -> bool)
    requires forall t, run :: trace(t, run) <==> NetExec(Connected(2, true), run) == t
    ensures NetTraces(trace) && trace(Connected(2, true), [])
  {
    forall t, run, d | trace(t, run) ensures trace(NetStep(t, d), run + [d]) {
      FoldNext(Connected(2, true), run, d, NetStep);
    }
    assert NetExec(Connected(2, true), []) == Connected(2, true);
  }
}
