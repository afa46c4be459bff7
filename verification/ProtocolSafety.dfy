// What every run of the protocol keeps: the two roles of an event_ids row stay
// apart, so no event completes twice and none is lost silently.
module ProtocolSafety {
  import opened Events
  import opened Sums
  import opened Aggregates
  import opened Protocol

  predicate Holds(w: Worker, id: EventId) {
    Holding(w) && w.msg.id == id
  }

  // As a lock, a row is held by at most one worker.
  ghost predicate Exclusive(s: State) {
    forall i, j :: 0 <= i < j < |s.workers| && Holding(s.workers[i]) && Holding(s.workers[j]) ==>
      s.workers[i].msg.id != s.workers[j].msg.id
  }

  // As a record, a row says that the event is over: completed, skipped for want of
  // a handler, or stuck behind a crash, a failed Unmark or a failed MarkSeen.
  function Closed(s: State): set<EventId> {
    s.done + s.skipped + s.stuck
  }

  ghost predicate HeldRowsAreOpen(s: State) {
    forall i :: 0 <= i < |s.workers| && Holding(s.workers[i]) ==>
      s.workers[i].msg.id in s.rows && s.workers[i].msg.id !in Closed(s)
  }

  ghost predicate OpenRowsAreHeld(s: State) {
    forall id :: id in s.rows && id !in Closed(s) ==> exists i :: 0 <= i < |s.workers| && Holds(s.workers[i], id)
  }

  ghost predicate RecordsStay(s: State) {
    && Closed(s) <= s.rows
    && s.done !! s.skipped && s.done !! s.stuck && s.skipped !! s.stuck
  }

  ghost predicate CompletedOnce(s: State) {
    && (forall i :: 0 <= i < |s.attempts| && s.attempts[i].ok ==> s.attempts[i].id in s.done)
    && (forall i, j :: 0 <= i < j < |s.attempts| && s.attempts[i].ok && s.attempts[j].ok ==>
        s.attempts[i].id != s.attempts[j].id)
    && (forall id :: id in s.done ==> exists i :: 0 <= i < |s.attempts| && s.attempts[i].ok && s.attempts[i].id == id)
  }

  ghost predicate Locks(s: State) {
    Exclusive(s) && HeldRowsAreOpen(s) && OpenRowsAreHeld(s) && RecordsStay(s) && CompletedOnce(s)
  }

  // ---------- Each action keeps the locks ----------

  // Only worker w changed, and every open row is still accounted for.
  lemma StillHeld(s: State, s': State, w: nat)
    requires OpenRowsAreHeld(s)
    requires w < |s.workers| == |s'.workers|
    requires forall i :: 0 <= i < |s.workers| && i != w ==> s'.workers[i] == s.workers[i]
    requires forall id :: id in s'.rows && id !in Closed(s') && !Holds(s'.workers[w], id) ==>
               id in s.rows && id !in Closed(s) && !Holds(s.workers[w], id)
    ensures OpenRowsAreHeld(s')
  {
    forall id | id in s'.rows && id !in Closed(s')
      ensures exists i :: 0 <= i < |s'.workers| && Holds(s'.workers[i], id)
    {
      if !Holds(s'.workers[w], id) {
        var i :| 0 <= i < |s.workers| && Holds(s.workers[i], id);
        assert Holds(s'.workers[i], id);
      }
    }
  }

  // A worker that holds no row before or after an action that leaves rows and
  // records alone.
  lemma BystanderKeepsLocks(s: State, s': State, w: nat)
    requires Locks(s)
    requires w < |s.workers| == |s'.workers| && s'.workers == s.workers[w := s'.workers[w]]
    requires !Holding(s.workers[w]) && !Holding(s'.workers[w])
    requires s'.rows == s.rows && s'.done == s.done && s'.skipped == s.skipped && s'.stuck == s.stuck
    requires s'.attempts == s.attempts
    ensures Locks(s')
  {
    StillHeld(s, s', w);
  }

  lemma DeliveringKeepsLocks(s: State, w: nat, m: Message)
    requires Locks(s) && w < |s.workers|
    ensures Locks(Delivering(s, w, m))
  {
    var s' := Delivering(s, w, m);
    if s' != s { BystanderKeepsLocks(s, s', w); }
  }

  lemma AcquiringKeepsLocks(s: State, w: nat, m: Message)
    requires Locks(s) && w < |s.workers|
    requires s.workers[w] == Got(m) && m.Envelope? && m.id !in s.rows
    ensures Locks(SetWorker(s, w, Marked(m)).(rows := s.rows + {m.id}))
    ensures Locks(SetWorker(s, w, Nacking(m, true)).(rows := s.rows + {m.id}, stuck := s.stuck + {m.id}))
  {
    StillHeld(s, SetWorker(s, w, Marked(m)).(rows := s.rows + {m.id}), w);
    StillHeld(s, SetWorker(s, w, Nacking(m, true)).(rows := s.rows + {m.id}, stuck := s.stuck + {m.id}), w);
  }

  lemma MarkingKeepsLocks(s: State, w: nat, fate: Fate)
    requires Locks(s) && w < |s.workers|
    ensures Locks(Marking(s, w, fate))
  {
    var s' := Marking(s, w, fate);
    if s.workers[w].Got? {
      var m := s.workers[w].msg;
      if m.Envelope? && m.id !in s.rows && !fate.Lost? {
        AcquiringKeepsLocks(s, w, m);
      } else {
        BystanderKeepsLocks(s, s', w);
      }
    }
  }

  lemma SkippingKeepsLocks(s: State, w: nat, m: Message)
    requires Locks(s) && w < |s.workers|
    requires m.Envelope? && s.workers[w] == Marked(m)
    ensures Locks(SetWorker(s, w, Acking(m)).(skipped := s.skipped + {m.id}))
  {
    assert Holding(s.workers[w]);
    StillHeld(s, SetWorker(s, w, Acking(m)).(skipped := s.skipped + {m.id}), w);
  }

  lemma DispatchingKeepsLocks(s: State, w: nat)
    requires Locks(s) && w < |s.workers|
    ensures Locks(Dispatching(s, w))
  {
    if s.workers[w].Marked? && s.workers[w].msg.Envelope? {
      var m := s.workers[w].msg;
      assert s.(store := s.store) == s;
      match m.payload
      case Unregistered => SkippingKeepsLocks(s, w, m);
      case Undecodable => WorkingKeepsLocks(s, w, Unmarking(m), s.store);
      case Carries(e) => WorkingKeepsLocks(s, w, Start(m, e), s.store);
    }
  }

  // Work inside a handler changes neither the lock nor the records.
  lemma WorkingKeepsLocks(s: State, w: nat, h: Worker, store: Store)
    requires Locks(s) && w < |s.workers|
    requires Holding(s.workers[w]) && Holding(h) && h.msg == s.workers[w].msg
    ensures Locks(SetWorker(s.(store := store), w, h))
  {
    StillHeld(s, SetWorker(s.(store := store), w, h), w);
  }

  lemma ReturningKeepsLocks(s: State, w: nat, ok: bool)
    requires Locks(s) && w < |s.workers| && s.workers[w].Handling? && s.workers[w].msg.Envelope?
    ensures Locks(Returning(s, w, ok))
  {
    var s' := Returning(s, w, ok);
    var id := s.workers[w].msg.id;
    StillHeld(s, s', w);
    assert Exclusive(s') && HeldRowsAreOpen(s') && RecordsStay(s');
    assert CompletedOnce(s') by {
      var n := |s.attempts|;
      forall d | d in s'.done
        ensures exists i :: 0 <= i < |s'.attempts| && s'.attempts[i].ok && s'.attempts[i].id == d
      {
        if d in s.done {
          var i :| 0 <= i < n && s.attempts[i].ok && s.attempts[i].id == d;
          assert s'.attempts[i] == s.attempts[i];
        } else {
          assert s'.attempts[n].ok && s'.attempts[n].id == d;
        }
      }
    }
  }

  lemma AdvancingKeepsLocks(s: State, w: nat)
    requires Locks(s) && w < |s.workers| && s.workers[w].Handling? && s.workers[w].msg.Envelope?
    ensures Locks(Advancing(s, w))
  {
    var h := s.workers[w];
    var plan := Plan(h.event, h.found);
    if h.at < |plan| {
      WorkingKeepsLocks(s, w, h.(left := Indices(plan[h.at])), s.store);
    } else if h.looked {
      ReturningKeepsLocks(s, w, true);
    }
  }

  lemma LandingKeepsLocks(s: State, w: nat, i: nat, fate: Fate)
    requires Locks(s) && w < |s.workers|
    ensures Locks(Landing(s, w, i, fate))
  {
    var h := s.workers[w];
    if CanLand(h, i) {
      var h', store := Tried(h, i, fate), Stored(s.store, h, i, fate);
      var h'' := if h'.left == {} && !h'.spoilt then h'.(at := h.at + 1) else h';
      WorkingKeepsLocks(s, w, h'', store);
      if h'.left == {} {
        var t := SetWorker(s.(store := store), w, h'');
        if h'.spoilt { ReturningKeepsLocks(t, w, false); } else { AdvancingKeepsLocks(t, w); }
      }
    }
  }

  lemma LookingKeepsLocks(s: State, w: nat, answered: bool)
    requires Locks(s) && w < |s.workers|
    ensures Locks(Looking(s, w, answered))
  {
    var h := s.workers[w];
    if h.Handling? && h.msg.Envelope? && !h.looked && h.at == |Plan(h.event, h.found)| {
      if answered {
        var h' := h.(looked := true, found := Lookup(s.store.contexts, h.event));
        WorkingKeepsLocks(s, w, h', s.store);
        assert s.(store := s.store) == s;
        AdvancingKeepsLocks(SetWorker(s, w, h'), w);
      } else {
        ReturningKeepsLocks(s, w, false);
      }
    }
  }

  lemma RemovingKeepsLocks(s: State, w: nat, fate: Fate)
    requires Locks(s) && w < |s.workers|
    ensures Locks(Removing(s, w, fate))
    ensures s.done <= Removing(s, w, fate).rows
  {
    if s.workers[w].Unmarking? && s.workers[w].msg.Envelope? {
      assert Holding(s.workers[w]);
      StillHeld(s, Removing(s, w, fate), w);
    }
  }

  // Rows and records other than finished attempts are as before.
  predicate SameRecords(s: State, s': State) {
    s'.rows == s.rows && s'.done == s.done && s'.skipped == s.skipped
  }

  lemma Settled(s: State, w: nat)
    requires w < |s.workers| && (s.workers[w].Acking? || s.workers[w].Nacking?)
    ensures var s' := Settling(s, w);
            s'.workers == s.workers[w := Idle] && SameRecords(s, s') && s'.stuck == s.stuck && s'.attempts == s.attempts
  {
  }

  lemma SettlingKeepsLocks(s: State, w: nat)
    requires Locks(s) && w < |s.workers|
    ensures Locks(Settling(s, w))
  {
    if s.workers[w].Acking? || s.workers[w].Nacking? {
      Settled(s, w);
      BystanderKeepsLocks(s, Settling(s, w), w);
    }
  }

  lemma Crashed(s: State, w: nat)
    requires w < |s.workers| && !s.workers[w].Idle?
    ensures var s', h := Crashing(s, w), s.workers[w];
            && s'.workers == s.workers[w := Idle] && SameRecords(s, s')
            && s'.stuck == (if Holding(h) then s.stuck + {h.msg.id} else s.stuck)
            && (s'.attempts == s.attempts
                || (|s'.attempts| == |s.attempts| + 1 && s'.attempts[..|s.attempts|] == s.attempts
                    && !s'.attempts[|s.attempts|].ok))
  {
  }

  // A failed attempt more, or none.
  lemma FailureKeepsCompleted(s: State, s': State)
    requires CompletedOnce(s) && s'.done == s.done
    requires s'.attempts == s.attempts
             || (|s'.attempts| == |s.attempts| + 1 && s'.attempts[..|s.attempts|] == s.attempts
                 && !s'.attempts[|s.attempts|].ok)
    ensures CompletedOnce(s')
  {
    assert forall i :: 0 <= i < |s.attempts| ==> s'.attempts[i] == s.attempts[i];
    forall d | d in s'.done ensures exists i :: 0 <= i < |s'.attempts| && s'.attempts[i].ok && s'.attempts[i].id == d {
      var i :| 0 <= i < |s.attempts| && s.attempts[i].ok && s.attempts[i].id == d;
      assert s'.attempts[i].id == d;
    }
  }

  lemma CrashingKeepsLocks(s: State, w: nat)
    requires Locks(s) && w < |s.workers|
    ensures Locks(Crashing(s, w))
  {
    if !s.workers[w].Idle? {
      var s' := Crashing(s, w);
      Crashed(s, w);
      StillHeld(s, s', w);
      FailureKeepsCompleted(s, s');
    }
  }

  lemma StepKeepsLocks(s: State, a: Action)
    requires Locks(s)
    ensures Locks(Step(s, a))
  {
    match a
    case Publish(m) => assert Publishing(s, m).workers == s.workers;
    case Replay(m) => assert Replaying(s, m).workers == s.workers;
    case Deliver(w, m) => if w < |s.workers| { DeliveringKeepsLocks(s, w, m); }
    case Mark(w, fate) => if w < |s.workers| { MarkingKeepsLocks(s, w, fate); }
    case Dispatch(w) => if w < |s.workers| { DispatchingKeepsLocks(s, w); }
    case Land(w, i, fate) => if w < |s.workers| { LandingKeepsLocks(s, w, i, fate); }
    case Look(w, answered) => if w < |s.workers| { LookingKeepsLocks(s, w, answered); }
    case Unmark(w, fate) => if w < |s.workers| { RemovingKeepsLocks(s, w, fate); }
    case Settle(w) => if w < |s.workers| { SettlingKeepsLocks(s, w); }
    case Crash(w) => if w < |s.workers| { CrashingKeepsLocks(s, w); }
  }

  lemma {:induction false} RunKeepsLocks(n: nat, hasDlx: bool, run: seq<Action>)
    ensures Locks(Exec(Initial(n, hasDlx), run))
  {
    if run != [] {
      var before := run[..|run| - 1];
      RunKeepsLocks(n, hasDlx, before);
      StepKeepsLocks(Exec(Initial(n, hasDlx), before), run[|run| - 1]);
    }
  }

  // At most once: in every reachable state no two workers are inside a handler for
  // the same event, nobody is inside a handler for a completed event, no event has
  // completed twice, and the row of a completed event is still there.
  lemma AtMostOnce(n: nat, hasDlx: bool, run: seq<Action>)
    ensures var s := Exec(Initial(n, hasDlx), run);
            && (forall i, j :: 0 <= i < j < |s.workers| && Holding(s.workers[i]) && Holding(s.workers[j]) ==>
                  s.workers[i].msg.id != s.workers[j].msg.id)
            && (forall i, k ::
                  0 <= i < |s.workers| && 0 <= k < |s.attempts| && Holding(s.workers[i]) && s.attempts[k].ok ==>
                  s.workers[i].msg.id != s.attempts[k].id)
            && (forall j, k :: 0 <= j < k < |s.attempts| && s.attempts[j].ok && s.attempts[k].ok ==>
                  s.attempts[j].id != s.attempts[k].id)
            && (forall k :: 0 <= k < |s.attempts| && s.attempts[k].ok ==> s.attempts[k].id in s.rows)
  {
    RunKeepsLocks(n, hasDlx, run);
  }

  // ---------- No silent loss ----------

  predicate IsFor(m: Message, id: EventId) {
    m.Envelope? && m.id == id
  }

  predicate Pooled(s: State, m: Message) {
    m in s.queue || m in s.dlq || m in s.dropped
  }

  // A worker about to acknowledge its message no longer answers for it.
  predicate Bears(w: Worker, id: EventId) {
    !w.Idle? && !w.Acking? && IsFor(w.msg, id)
  }

  ghost predicate InPools(s: State, id: EventId) {
    exists m :: Pooled(s, m) && IsFor(m, id)
  }

  ghost predicate InHands(s: State, id: EventId) {
    exists i :: 0 <= i < |s.workers| && Bears(s.workers[i], id)
  }

  ghost predicate Accounted(s: State, id: EventId) {
    id in Closed(s) || InPools(s, id) || InHands(s, id)
  }

  ghost predicate Tracked(s: State) {
    forall m :: m in s.published && m.Envelope? ==> Accounted(s, m.id)
  }

  ghost predicate Provenance(s: State) {
    && (forall m :: Pooled(s, m) ==> m in s.published)
    && (forall i :: 0 <= i < |s.workers| && !s.workers[i].Idle? ==> s.workers[i].msg in s.published)
    && (forall id :: id in s.skipped ==> Envelope(id, Unregistered) in s.published)
    && (s.hasDlx ==> s.dropped == multiset{})
  }

  // Everything that decides whether a message is accounted for, seen from the one
  // worker that acts: it keeps its message, or passes it to a pool, or takes one
  // from there; the pools of everyone else's messages do not shrink.
  ghost predicate Traffic(s: State, s': State, w: nat) {
    && w < |s.workers| == |s'.workers|
    && (forall i :: 0 <= i < |s.workers| && i != w ==> s'.workers[i] == s.workers[i])
    && s'.published == s.published
    && Closed(s) <= Closed(s')
    && (forall m :: Pooled(s, m) ==> Pooled(s', m) || s'.workers[w] == Got(m))
    && (forall m :: Pooled(s', m) ==> Pooled(s, m) || (!s.workers[w].Idle? && s.workers[w].msg == m))
    && (!s'.workers[w].Idle? ==>
          Pooled(s, s'.workers[w].msg) || (!s.workers[w].Idle? && s'.workers[w].msg == s.workers[w].msg))
    && (s'.skipped == s.skipped
        || (s.workers[w].Marked? && s.workers[w].msg.Envelope? && s.workers[w].msg.payload.Unregistered?
            && s'.skipped == s.skipped + {s.workers[w].msg.id}))
    && s'.hasDlx == s.hasDlx && (s.hasDlx ==> s'.dropped == s.dropped)
  }

  // A message leaves its worker's care into a pool, or its event is closed, or the
  // worker learned that another row of that event exists.
  ghost predicate Passes(s: State, s': State, w: nat)
    requires w < |s.workers| == |s'.workers|
  {
    forall id :: Bears(s.workers[w], id) ==>
      Bears(s'.workers[w], id) || Pooled(s', s.workers[w].msg) || id in Closed(s')
      || (s'.workers[w].Acking? && !Holding(s.workers[w]) && id in s.rows)
  }

  // An action of worker w changes neither the messages in the pools nor its own.
  ghost predicate Inside(s: State, s': State, w: nat) {
    && w < |s.workers| == |s'.workers|
    && s.workers[w].Handling? && !s'.workers[w].Idle? && s'.workers[w].msg == s.workers[w].msg
    && s'.workers == s.workers[w := s'.workers[w]]
    && s'.queue == s.queue && s'.dlq == s.dlq && s'.dropped == s.dropped && s'.hasDlx == s.hasDlx
    && s'.published == s.published && s'.skipped == s.skipped && s'.stuck == s.stuck
    && s.done <= s'.done
    && s'.rows == s.rows
    && s'.delivered == s.delivered && s'.settled == s.settled && s'.crashed == s.crashed
    && (s'.workers[w].Acking? ==> s.workers[w].msg.Envelope? && s.workers[w].msg.id in s'.done)
  }

  lemma AdvancingInside(s: State, w: nat)
    requires w < |s.workers| && s.workers[w].Handling? && s.workers[w].msg.Envelope?
    ensures Inside(s, Advancing(s, w), w)
    ensures Inside(s, Returning(s, w, false), w)
  {
  }

  // Recording a write in the store and in the handler run is invisible to traffic.
  lemma RecordingInside(s: State, w: nat, h: Worker, store: Store, s': State)
    requires w < |s.workers| && s.workers[w].Handling? && h.Handling? && h.msg == s.workers[w].msg
    requires Inside(SetWorker(s.(store := store), w, h), s', w)
    ensures Inside(s, s', w)
  {
  }

  lemma LandingInside(s: State, w: nat, i: nat, fate: Fate)
    requires w < |s.workers| && CanLand(s.workers[w], i)
    ensures Inside(s, Landing(s, w, i, fate), w)
  {
    var h := s.workers[w];
    var h', store := Tried(h, i, fate), Stored(s.store, h, i, fate);
    if h'.left == {} {
      var h'' := if h'.spoilt then h' else h'.(at := h.at + 1);
      var t := SetWorker(s.(store := store), w, h'');
      AdvancingInside(t, w);
      RecordingInside(s, w, h'', store, if h'.spoilt then Returning(t, w, false) else Advancing(t, w));
    }
  }

  lemma LookingInside(s: State, w: nat, answered: bool)
    requires w < |s.workers| && Looking(s, w, answered) != s
    ensures Inside(s, Looking(s, w, answered), w)
  {
    var h := s.workers[w];
    if answered {
      var h' := h.(looked := true, found := Lookup(s.store.contexts, h.event));
      assert s.(store := s.store) == s;
      AdvancingInside(SetWorker(s, w, h'), w);
      RecordingInside(s, w, h', s.store, Advancing(SetWorker(s, w, h'), w));
    } else {
      AdvancingInside(s, w);
    }
  }

  lemma InsideTraffic(s: State, s': State, w: nat)
    requires Inside(s, s', w)
    ensures Traffic(s, s', w) && Passes(s, s', w)
  {
  }

  lemma DeliveringTraffic(s: State, w: nat, m: Message)
    requires w < |s.workers|
    ensures Traffic(s, Delivering(s, w, m), w) && Passes(s, Delivering(s, w, m), w)
  {
  }

  lemma DuplicateTraffic(s: State, w: nat, fate: Fate)
    requires w < |s.workers| && s.workers[w].Got?
    requires s.workers[w].msg.Envelope? ==> s.workers[w].msg.id in s.rows
    ensures Traffic(s, Marking(s, w, fate), w) && Passes(s, Marking(s, w, fate), w)
  {
  }

  lemma FreshTraffic(s: State, w: nat, fate: Fate)
    requires w < |s.workers| && s.workers[w].Got?
    requires s.workers[w].msg.Envelope? && s.workers[w].msg.id !in s.rows
    ensures Traffic(s, Marking(s, w, fate), w) && Passes(s, Marking(s, w, fate), w)
  {
  }

  lemma MarkingTraffic(s: State, w: nat, fate: Fate)
    requires w < |s.workers|
    ensures Marking(s, w, fate) == s || (Traffic(s, Marking(s, w, fate), w) && Passes(s, Marking(s, w, fate), w))
  {
    if s.workers[w].Got? {
      if s.workers[w].msg.Envelope? && s.workers[w].msg.id !in s.rows {
        FreshTraffic(s, w, fate);
      } else {
        DuplicateTraffic(s, w, fate);
      }
    }
  }

  lemma SkippingTraffic(s: State, w: nat)
    requires w < |s.workers| && s.workers[w].Marked? && s.workers[w].msg.Envelope?
             && s.workers[w].msg.payload.Unregistered?
    ensures Traffic(s, Dispatching(s, w), w) && Passes(s, Dispatching(s, w), w)
  {
  }

  lemma HandingTraffic(s: State, w: nat, x: Worker)
    requires w < |s.workers| && s.workers[w].Marked?
    requires !x.Idle? && !x.Acking? && x.msg == s.workers[w].msg
    ensures Traffic(s, SetWorker(s, w, x), w) && Passes(s, SetWorker(s, w, x), w)
  {
  }

  lemma DispatchingTraffic(s: State, w: nat)
    requires w < |s.workers|
    ensures Dispatching(s, w) == s || (Traffic(s, Dispatching(s, w), w) && Passes(s, Dispatching(s, w), w))
  {
    if s.workers[w].Marked? && s.workers[w].msg.Envelope? {
      var m := s.workers[w].msg;
      match m.payload
      case Unregistered => SkippingTraffic(s, w);
      case Undecodable => HandingTraffic(s, w, Unmarking(m));
      case Carries(e) => HandingTraffic(s, w, Start(m, e));
    }
  }

  lemma RemovingTraffic(s: State, w: nat, fate: Fate)
    requires w < |s.workers|
    ensures Traffic(s, Removing(s, w, fate), w) && Passes(s, Removing(s, w, fate), w)
  {
  }

  lemma AckingTraffic(s: State, w: nat)
    requires w < |s.workers| && s.workers[w].Acking?
    ensures Traffic(s, Settling(s, w), w) && Passes(s, Settling(s, w), w)
  {
  }

  lemma RequeueTraffic(s: State, w: nat)
    requires w < |s.workers| && s.workers[w].Nacking? && s.workers[w].requeue
    ensures Traffic(s, Settling(s, w), w) && Passes(s, Settling(s, w), w)
  {
  }

  lemma DeadLetterTraffic(s: State, w: nat)
    requires w < |s.workers| && s.workers[w].Nacking? && !s.workers[w].requeue
    ensures Traffic(s, Settling(s, w), w) && Passes(s, Settling(s, w), w)
  {
  }

  lemma SettlingTraffic(s: State, w: nat)
    requires w < |s.workers|
    ensures Settling(s, w) == s || (Traffic(s, Settling(s, w), w) && Passes(s, Settling(s, w), w))
  {
    match s.workers[w]
    case Acking(_) => AckingTraffic(s, w);
    case Nacking(_, requeue) => if requeue { RequeueTraffic(s, w); } else { DeadLetterTraffic(s, w); }
    case _ =>
  }

  lemma CrashingTraffic(s: State, w: nat)
    requires w < |s.workers|
    ensures Traffic(s, Crashing(s, w), w) && Passes(s, Crashing(s, w), w)
  {
  }

  lemma TrafficKeepsTracking(s: State, s': State, w: nat)
    requires Locks(s) && Tracked(s) && Traffic(s, s', w) && Passes(s, s', w)
    ensures Tracked(s')
  {
    forall m | m in s'.published && m.Envelope? ensures Accounted(s', m.id) {
      var id := m.id;
      if id !in Closed(s') {
        assert Accounted(s, id);
        if InPools(s, id) {
          var p :| Pooled(s, p) && IsFor(p, id);
          assert Pooled(s', p) || Bears(s'.workers[w], id);
        } else {
          var i :| 0 <= i < |s.workers| && Bears(s.workers[i], id);
          if i != w {
            assert Bears(s'.workers[i], id);
          } else if !Bears(s'.workers[w], id) && !Pooled(s', s.workers[w].msg) {
            var k :| 0 <= k < |s.workers| && Holds(s.workers[k], id);
            assert k != w && Bears(s'.workers[k], id);
          }
        }
      }
    }
  }

  lemma TrafficKeepsProvenance(s: State, s': State, w: nat)
    requires Provenance(s) && Traffic(s, s', w)
    ensures Provenance(s')
  {
  }

  lemma PoolingKeepsTracking(s: State, s': State, m: Message)
    requires Tracked(s) && Provenance(s)
    requires s' == Publishing(s, m) || s' == Replaying(s, m)
    ensures Tracked(s') && Provenance(s')
  {
    forall p | p in s'.published && p.Envelope? ensures Accounted(s', p.id) {
      if p in s.published {
        if InPools(s, p.id) {
          var q :| Pooled(s, q) && IsFor(q, p.id);
          assert Pooled(s', q);
        } else if InHands(s, p.id) {
          var i :| 0 <= i < |s.workers| && Bears(s.workers[i], p.id);
          assert Bears(s'.workers[i], p.id);
        }
      } else {
        assert Pooled(s', p) && IsFor(p, p.id);
      }
    }
  }

  ghost predicate NothingLost(s: State) {
    Locks(s) && Tracked(s) && Provenance(s)
  }

  lemma FlowKeepsAll(s: State, s': State, w: nat)
    requires NothingLost(s) && Locks(s')
    requires s' == s || (Traffic(s, s', w) && Passes(s, s', w))
    ensures NothingLost(s')
  {
    if s' != s {
      TrafficKeepsTracking(s, s', w);
      TrafficKeepsProvenance(s, s', w);
    }
  }

  lemma ActionTraffic(s: State, a: Action, w: nat)
    requires !a.Publish? && !a.Replay? && a.w == w < |s.workers|
    ensures Step(s, a) == s || (Traffic(s, Step(s, a), w) && Passes(s, Step(s, a), w))
  {
    match a
    case Deliver(_, m) => DeliveringTraffic(s, w, m);
    case Mark(_, fate) => MarkingTraffic(s, w, fate);
    case Dispatch(_) => DispatchingTraffic(s, w);
    case Land(_, i, fate) =>
      if CanLand(s.workers[w], i) {
        LandingInside(s, w, i, fate);
        InsideTraffic(s, Step(s, a), w);
      }
    case Look(_, answered) =>
      if Step(s, a) != s {
        LookingInside(s, w, answered);
        InsideTraffic(s, Step(s, a), w);
      }
    case Unmark(_, fate) => RemovingTraffic(s, w, fate);
    case Settle(_) => SettlingTraffic(s, w);
    case Crash(_) => CrashingTraffic(s, w);
  }

  lemma StepLosesNothing(s: State, a: Action)
    requires NothingLost(s)
    ensures NothingLost(Step(s, a))
  {
    StepKeepsLocks(s, a);
    if a.Publish? || a.Replay? {
      PoolingKeepsTracking(s, Step(s, a), a.m);
    } else if a.w < |s.workers| {
      ActionTraffic(s, a, a.w);
      FlowKeepsAll(s, Step(s, a), a.w);
    }
  }

  lemma {:induction false} RunLosesNothing(n: nat, hasDlx: bool, run: seq<Action>)
    ensures NothingLost(Exec(Initial(n, hasDlx), run))
  {
    if run != [] {
      var before := run[..|run| - 1];
      RunLosesNothing(n, hasDlx, before);
      StepLosesNothing(Exec(Initial(n, hasDlx), before), run[|run| - 1]);
    }
  }

  // No silent loss: with a dead-letter exchange, a published event whose type has a
  // handler has completed, or one of its messages is queued, dead-lettered or in a
  // worker's hands, or its row is stuck.
  lemma NoSilentLoss(n: nat, run: seq<Action>, m: Message)
    requires var s := Exec(Initial(n, true), run);
             && m in s.published && m.Envelope?
             && Envelope(m.id, Unregistered) !in s.published
    ensures var s := Exec(Initial(n, true), run);
            || (exists k :: 0 <= k < |s.attempts| && s.attempts[k].ok && s.attempts[k].id == m.id)
            || (exists p :: (p in s.queue || p in s.dlq) && IsFor(p, m.id))
            || InHands(s, m.id)
            || m.id in s.stuck
  {
    var s := Exec(Initial(n, true), run);
    RunLosesNothing(n, true, run);
    assert Accounted(s, m.id);
    if InPools(s, m.id) {
      var p :| Pooled(s, p) && IsFor(p, m.id);
      assert p in s.queue || p in s.dlq;
    }
  }

  predicate Strands(s: State, a: Action) {
    || (a.Crash? && a.w < |s.workers| && Holding(s.workers[a.w]))
    || (a.Unmark? && a.fate.Lost?)
    || (a.Mark? && a.fate.Torn?)
  }

  // Only a crash under a held row, an Unmark that kept the row, or a MarkSeen that
  // reported failure after inserting it makes an event stuck.
  lemma OnlyFaultsStrand(s: State, a: Action)
    requires Step(s, a).stuck != s.stuck
    ensures Strands(s, a)
  {
    if a.Land? && a.w < |s.workers| && CanLand(s.workers[a.w], a.i) { LandingInside(s, a.w, a.i, a.fate); }
    if a.Look? && a.w < |s.workers| { LookingInside(s, a.w, a.answered); }
  }

  // What it means: an event is stuck exactly when its row is there although no
  // worker holds it and the event neither completed nor was skipped. The row is a
  // lock that nobody will release.
  lemma StuckMeansAbandoned(n: nat, hasDlx: bool, run: seq<Action>, id: EventId)
    ensures var s := Exec(Initial(n, hasDlx), run);
            id in s.stuck <==>
            && id in s.rows && id !in s.done && id !in s.skipped
            && forall i :: 0 <= i < |s.workers| ==> !Holds(s.workers[i], id)
  {
    RunKeepsLocks(n, hasDlx, run);
  }

  // Every stuck event of a run owes it to one such fault, before which it was not.
  lemma {:induction false} StuckTakesAFault(n: nat, hasDlx: bool, run: seq<Action>, id: EventId) returns (i: nat)
    requires id in Exec(Initial(n, hasDlx), run).stuck
    ensures i < |run| && Strands(Exec(Initial(n, hasDlx), run[..i]), run[i])
    ensures id !in Exec(Initial(n, hasDlx), run[..i]).stuck
            && id in Step(Exec(Initial(n, hasDlx), run[..i]), run[i]).stuck
  {
    var k := |run| - 1;
    var s := Exec(Initial(n, hasDlx), run[..k]);
    if id in s.stuck {
      i := StuckTakesAFault(n, hasDlx, run[..k], id);
      assert run[..k][..i] == run[..i];
    } else {
      i := k;
      OnlyFaultsStrand(s, run[k]);
    }
  }

  lemma StuckStays(s: State, a: Action)
    ensures s.stuck <= Step(s, a).stuck
  {
    if a.Land? && a.w < |s.workers| && CanLand(s.workers[a.w], a.i) { LandingInside(s, a.w, a.i, a.fate); }
    if a.Look? && a.w < |s.workers| && Step(s, a) != s { LookingInside(s, a.w, a.answered); }
  }

  // ---------- One settlement per delivery ----------

  function IsBusy(): Worker -> bool {
    (w: Worker) => !w.Idle?
  }

  predicate Balanced(s: State) {
    s.delivered == s.settled + s.crashed + Count(s.workers, IsBusy())
  }

  function Hands(w: Worker): int {
    if w.Idle? then 0 else 1
  }

  predicate Evens(s: State, s': State, w: nat) {
    && w < |s.workers| == |s'.workers| && s'.workers == s.workers[w := s'.workers[w]]
    && s'.delivered - s'.settled - s'.crashed - (s.delivered - s.settled - s.crashed)
        == Hands(s'.workers[w]) - Hands(s.workers[w])
  }

  lemma DeliveringEvens(s: State, w: nat, m: Message)
    requires w < |s.workers|
    ensures Evens(s, Delivering(s, w, m), w)
  {
  }

  lemma MarkingEvens(s: State, w: nat, fate: Fate)
    requires w < |s.workers|
    ensures Evens(s, Marking(s, w, fate), w)
  {
  }

  lemma DispatchingEvens(s: State, w: nat)
    requires w < |s.workers|
    ensures Evens(s, Dispatching(s, w), w)
  {
  }

  lemma RemovingEvens(s: State, w: nat, fate: Fate)
    requires w < |s.workers|
    ensures Evens(s, Removing(s, w, fate), w)
  {
  }

  lemma SettlingEvens(s: State, w: nat)
    requires w < |s.workers|
    ensures Evens(s, Settling(s, w), w)
  {
  }

  lemma CrashingEvens(s: State, w: nat)
    requires w < |s.workers|
    ensures Evens(s, Crashing(s, w), w)
  {
  }

  lemma ActionEvens(s: State, a: Action)
    requires !a.Publish? && !a.Replay? && a.w < |s.workers|
    ensures Evens(s, Step(s, a), a.w)
  {
    match a
    case Deliver(w, m) => DeliveringEvens(s, w, m);
    case Settle(w) => SettlingEvens(s, w);
    case Crash(w) => CrashingEvens(s, w);
    case Mark(w, fate) => MarkingEvens(s, w, fate);
    case Dispatch(w) => DispatchingEvens(s, w);
    case Unmark(w, fate) => RemovingEvens(s, w, fate);
    case Land(w, i, fate) => if CanLand(s.workers[w], i) { LandingInside(s, w, i, fate); }
    case Look(w, answered) => if Step(s, a) != s { LookingInside(s, w, answered); }
  }

  lemma StepKeepsBalance(s: State, a: Action)
    requires Balanced(s)
    ensures Balanced(Step(s, a))
  {
    if !a.Publish? && !a.Replay? && a.w < |s.workers| {
      ActionEvens(s, a);
      SumUpdate(s.workers, a.w, Step(s, a).workers[a.w], Indicator(IsBusy()));
    }
  }

  lemma {:induction false} NobodyBusy(n: nat)
    ensures Count(Initial(n, true).workers, IsBusy()) == 0
  {
    var ws := Initial(n, true).workers;
    SumEqual(ws, Indicator(IsBusy()), ws, _ => 0);
    Zeros(ws);
  }

  lemma {:induction false} Zeros(ws: seq<Worker>)
    ensures Sum(ws, _ => 0) == 0
  {
    if ws != [] { Zeros(ws[..|ws| - 1]); }
  }

  // Every delivery ends in exactly one Ack or Nack, or in a crash, or is still in a
  // worker's hands.
  lemma {:induction false} OneSettlementPerDelivery(n: nat, hasDlx: bool, run: seq<Action>)
    ensures Balanced(Exec(Initial(n, hasDlx), run))
  {
    if run == [] {
      NobodyBusy(n);
    } else {
      var before := run[..|run| - 1];
      OneSettlementPerDelivery(n, hasDlx, before);
      StepKeepsBalance(Exec(Initial(n, hasDlx), before), run[|run| - 1]);
    }
  }
}
