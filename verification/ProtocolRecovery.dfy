// Which events can still complete: in every reachable state exactly those whose row
// is not stuck, and for them ordinary operation and a replay are enough.
module ProtocolRecovery {
  import opened Events
  import opened Aggregates
  import opened Protocol
  import opened ProtocolSafety
  import opened ProtocolRefinement
  import opened ProtocolProgress

  ghost predicate AllSmooth(run: seq<Action>) {
    forall a :: a in run ==> Smooth(a)
  }

  // A set of states that ordinary operation does not leave, inside what every
  // reachable state with a dead-letter exchange keeps.
  ghost predicate Stays(inv: State -> bool) {
    && (forall t, a {:trigger Step(t, a)} :: inv(t) && Smooth(a) ==> inv(Step(t, a)))
    && (forall t :: inv(t) ==> Invariant(t) && t.hasDlx)
  }

  // ---------- A worker left alone finishes its message ----------

  // A smooth action of worker w changes nothing but its own progress.
  ghost predicate Tidy(s: State, t: State, w: nat) {
    && w < |s.workers| == |t.workers| && t.workers == s.workers[w := t.workers[w]]
    && t.stuck == s.stuck && t.published == s.published
  }

  lemma SmoothIsTidy(s: State, a: Action, w: nat)
    requires w < |s.workers| && Own(a, w) && Smooth(a)
    ensures Tidy(s, Step(s, a), w)
  {
    ActionEvens(s, a);
    ActionTraffic(s, a, w);
    if Step(s, a).stuck != s.stuck { OnlyFaultsStrand(s, a); }
  }

  lemma SmoothMove(inv: State -> bool, s: State, w: nat) returns (t: State)
    requires Stays(inv) && inv(s) && w < |s.workers| && !s.workers[w].Idle?
    ensures inv(t) && Tidy(s, t, w) && Rank(t.workers[w]) < Rank(s.workers[w])
  {
    var a := NeverBlocked(s, w);
    OwnActionLowersRank(s, a, w);
    SmoothIsTidy(s, a, w);
    t := Step(s, a);
  }

  lemma FinishMessage(inv: State -> bool, s: State, w: nat) returns (t: State)
    requires Stays(inv) && inv(s) && w < |s.workers|
    ensures inv(t) && Tidy(s, t, w) && t.workers[w].Idle?
    decreases Rank(s.workers[w])
  {
    t := s;
    if !s.workers[w].Idle? {
      t := SmoothMove(inv, s, w);
      t := FinishMessage(inv, t, w);
    }
  }

  // All workers from w on finish theirs, one after the other.
  lemma FinishAll(inv: State -> bool, s: State, w: nat) returns (t: State)
    requires Stays(inv) && inv(s) && w <= |s.workers|
    requires forall i :: 0 <= i < w ==> s.workers[i].Idle?
    ensures inv(t) && t.stuck == s.stuck && t.published == s.published
    ensures |t.workers| == |s.workers| && forall i :: 0 <= i < |t.workers| ==> t.workers[i].Idle?
    decreases |s.workers| - w
  {
    t := s;
    if w < |s.workers| {
      t := FinishMessage(inv, s, w);
      t := FinishAll(inv, t, w + 1);
    }
  }

  // ---------- A message with a free row completes ----------

  // The worker has the message of an event, its row is free or its own, and nothing
  // has failed.
  ghost predicate OnTrack(s: State, w: nat, id: EventId, e: Event) {
    && w < |s.workers|
    && match s.workers[w]
       case Got(m) => m == Envelope(id, Carries(e)) && id !in s.rows
       case Marked(m) => m == Envelope(id, Carries(e))
       case Handling(m, e', _, _, _, _, spoilt, _) => m == Envelope(id, Carries(e)) && e' == e && !spoilt
       case _ => false
  }

  // Worker w has completed the event, and nobody anything else.
  ghost predicate Completing(s: State, t: State, w: nat, id: EventId, e: Event) {
    && id in t.done && w < |t.workers| && t.workers[w] == Acking(Envelope(id, Carries(e)))
    && exists a :: t.attempts == s.attempts + [a] && a.ok && a.id == id && a.event == e
  }

  lemma AdvancingCompletes(s: State, t: State, w: nat, id: EventId, e: Event)
    requires w < |s.workers| && OnTrack(t, w, id, e) && t.workers[w].Handling? && t.attempts == s.attempts
    ensures (OnTrack(Advancing(t, w), w, id, e) && Advancing(t, w).attempts == s.attempts)
            || Completing(s, Advancing(t, w), w, id, e)
  {
    var h := t.workers[w];
    if h.at >= |Plan(h.event, h.found)| && h.looked {
      assert Advancing(t, w).attempts == s.attempts + [Attempt(id, h.event, h.found, h.landed, true)];
    }
  }

  lemma LandingTracks(s: State, w: nat, i: nat, id: EventId, e: Event)
    requires OnTrack(s, w, id, e) && CanLand(s.workers[w], i)
    ensures var t := Landing(s, w, i, Done);
            (OnTrack(t, w, id, e) && t.attempts == s.attempts) || Completing(s, t, w, id, e)
  {
    var h', t := Tried(s.workers[w], i, Done), s.(store := Stored(s.store, s.workers[w], i, Done));
    if h'.left == {} { AdvancingCompletes(s, SetWorker(t, w, h'.(at := h'.at + 1)), w, id, e); }
  }

  lemma LookingTracks(s: State, w: nat, id: EventId, e: Event)
    requires OnTrack(s, w, id, e) && Looking(s, w, true) != s
    ensures var t := Looking(s, w, true);
            (OnTrack(t, w, id, e) && t.attempts == s.attempts) || Completing(s, t, w, id, e)
  {
    var h := s.workers[w];
    AdvancingCompletes(s, SetWorker(s, w, h.(looked := true, found := Lookup(s.store.contexts, h.event))), w, id, e);
  }

  lemma TrackStep(s: State, a: Action, w: nat, id: EventId, e: Event)
    requires OnTrack(s, w, id, e) && Own(a, w) && Smooth(a)
    ensures (OnTrack(Step(s, a), w, id, e) && Step(s, a).attempts == s.attempts) || Completing(s, Step(s, a), w, id, e)
  {
    match a
    case Land(_, i, _) => if CanLand(s.workers[w], i) { LandingTracks(s, w, i, id, e); }
    case Look(_, _) => if Step(s, a) != s { LookingTracks(s, w, id, e); }
    case _ =>
  }

  lemma TrackMove(inv: State -> bool, s: State, w: nat, id: EventId, e: Event) returns (t: State)
    requires Stays(inv) && inv(s) && OnTrack(s, w, id, e)
    ensures inv(t) && Tidy(s, t, w) && Rank(t.workers[w]) < Rank(s.workers[w])
    ensures (OnTrack(t, w, id, e) && t.attempts == s.attempts) || Completing(s, t, w, id, e)
  {
    var a := NeverBlocked(s, w);
    OwnActionLowersRank(s, a, w);
    SmoothIsTidy(s, a, w);
    TrackStep(s, a, w, id, e);
    t := Step(s, a);
  }

  lemma CompleteEvent(inv: State -> bool, s: State, w: nat, id: EventId, e: Event) returns (t: State)
    requires Stays(inv) && inv(s) && OnTrack(s, w, id, e)
    ensures inv(t) && Tidy(s, t, w) && Completing(s, t, w, id, e)
    decreases Rank(s.workers[w])
  {
    t := TrackMove(inv, s, w, id, e);
    if !Completing(s, t, w, id, e) { t := CompleteEvent(inv, t, w, id, e); }
  }

  lemma Requeued(inv: State -> bool, s: State, m: Message) returns (t: State)
    requires Stays(inv) && inv(s) && m in s.dlq
    ensures inv(t) && m in t.queue && t.workers == s.workers && t.rows == s.rows && t.attempts == s.attempts
  {
    t := Step(s, Replay(m));
  }

  lemma Redelivered(inv: State -> bool, s: State, w: nat, m: Message) returns (t: State)
    requires Stays(inv) && inv(s) && m in s.queue && w < |s.workers| && s.workers[w].Idle?
    ensures inv(t) && t.workers == s.workers[w := Got(m)] && t.rows == s.rows && t.attempts == s.attempts
  {
    t := Step(s, Deliver(w, m));
  }

  // The message is waiting, in the queue or dead-lettered, its row is free and a
  // worker is too: replay, deliver, handle.
  lemma ReplayCompletes(inv: State -> bool, s: State, w: nat, id: EventId, e: Event) returns (t: State)
    requires Stays(inv) && inv(s) && w < |s.workers| && s.workers[w].Idle? && id !in s.rows
    requires Envelope(id, Carries(e)) in s.queue || Envelope(id, Carries(e)) in s.dlq
    ensures inv(t) && |t.workers| == |s.workers| && Completing(s, t, w, id, e)
    ensures forall i :: 0 <= i < |s.workers| && i != w ==> t.workers[i] == s.workers[i]
  {
    t := s;
    if Envelope(id, Carries(e)) !in s.queue { t := Requeued(inv, t, Envelope(id, Carries(e))); }
    t := Redelivered(inv, t, w, Envelope(id, Carries(e)));
    t := CompleteEvent(inv, t, w, id, e);
  }

  // ---------- The characterisation ----------

  // Every message published for this id carries an event for a handler.
  ghost predicate Handled(s: State, id: EventId) {
    && (exists m :: m in s.published && IsFor(m, id))
    && forall m :: m in s.published && IsFor(m, id) ==> m.payload.Carries?
  }

  // With all workers idle, an event that is not over waits with its row free.
  lemma WaitsFreely(s: State, id: EventId) returns (e: Event)
    requires Invariant(s) && s.hasDlx && (forall i :: 0 <= i < |s.workers| ==> s.workers[i].Idle?)
    requires Handled(s, id) && id !in s.stuck && id !in s.done
    ensures id !in s.rows && (Envelope(id, Carries(e)) in s.queue || Envelope(id, Carries(e)) in s.dlq)
  {
    assert id !in s.skipped by {
      if id in s.skipped { assert IsFor(Envelope(id, Unregistered), id); }
    }
    var m :| m in s.published && IsFor(m, id);
    assert Accounted(s, m.id);
    var p :| Pooled(s, p) && IsFor(p, id);
    assert p.payload.Carries?;
    e := p.payload.event;
  }

  lemma CanComplete(inv: State -> bool, s: State, id: EventId) returns (t: State)
    requires Stays(inv) && inv(s) && s.workers != [] && Handled(s, id) && id !in s.stuck
    ensures inv(t) && id in t.done
  {
    t := FinishAll(inv, s, 0);
    if id !in t.done {
      var e := WaitsFreely(t, id);
      t := ReplayCompletes(inv, t, 0, id, e);
    }
  }

  ghost predicate SmoothlyFrom(s: State, t: State) {
    exists more :: AllSmooth(more) && Exec(s, more) == t
  }

  lemma SmoothlyOn(s: State, t: State, a: Action)
    requires SmoothlyFrom(s, t) && Smooth(a)
    ensures SmoothlyFrom(s, Step(t, a))
  {
    var more :| AllSmooth(more) && Exec(s, more) == t;
    RunNext(s, more, a);
    assert AllSmooth(more + [a]);
  }

  // What is smoothly reached from a reachable state is reachable.
  lemma SmoothlyKeeps(n: nat, run: seq<Action>, t: State)
    requires SmoothlyFrom(Exec(Initial(n, true), run), t)
    ensures Invariant(t) && t.hasDlx
  {
    var more :| AllSmooth(more) && Exec(Exec(Initial(n, true), run), more) == t;
    RunExtended(Initial(n, true), run, more);
    RunKeepsInvariant(n, true, run + more);
  }

  lemma SmoothlyStays(n: nat, run: seq<Action>, inv: State -> bool)
    requires forall t :: inv(t) <==> SmoothlyFrom(Exec(Initial(n, true), run), t)
    ensures Stays(inv) && inv(Exec(Initial(n, true), run))
  {
    var s := Exec(Initial(n, true), run);
    assert SmoothlyFrom(s, s) by { assert AllSmooth([]) && Exec(s, []) == s; }
    forall t, a | inv(t) && Smooth(a) ensures inv(Step(t, a)) { SmoothlyOn(s, t, a); }
    forall t | inv(t) ensures Invariant(t) && t.hasDlx { SmoothlyKeeps(n, run, t); }
  }

  lemma SmoothlyCompletes(n: nat, run: seq<Action>, id: EventId) returns (more: seq<Action>)
    requires n > 0 && Handled(Exec(Initial(n, true), run), id) && id !in Exec(Initial(n, true), run).stuck
    ensures AllSmooth(more) && id in Exec(Exec(Initial(n, true), run), more).done
  {
    var s := Exec(Initial(n, true), run);
    var inv := (t: State) => SmoothlyFrom(s, t);
    SmoothlyStays(n, run, inv);
    var t := CanComplete(inv, s, id);
    more :| AllSmooth(more) && Exec(s, more) == t;
  }

  lemma {:induction false} StuckForever(n: nat, hasDlx: bool, run: seq<Action>, id: EventId, more: seq<Action>)
    requires id in Exec(Initial(n, hasDlx), run).stuck
    ensures var t := Exec(Exec(Initial(n, hasDlx), run), more); id in t.stuck && id !in t.done
  {
    if more != [] {
      StuckForever(n, hasDlx, run, id, more[..|more| - 1]);
      StuckStays(Exec(Exec(Initial(n, hasDlx), run), more[..|more| - 1]), more[|more| - 1]);
    }
    RunExtended(Initial(n, hasDlx), run, more);
    RunKeepsLocks(n, hasDlx, run + more);
  }

  // Main result: from every reachable state, an event that has a handler can be
  // brought to completion, by ordinary operation and replays alone, if and only if
  // its row is not stuck. Once it is, no continuation whatever completes it.
  lemma CompletesExactlyWhenNotStuck(n: nat, run: seq<Action>, id: EventId)
    requires n > 0 && Handled(Exec(Initial(n, true), run), id)
    ensures var s := Exec(Initial(n, true), run);
            && ((exists more :: AllSmooth(more) && id in Exec(s, more).done) <==> id !in s.stuck)
            && (id in s.stuck ==> forall more :: id !in Exec(s, more).done)
  {
    var s := Exec(Initial(n, true), run);
    if id in s.stuck {
      forall more ensures id !in Exec(s, more).done { StuckForever(n, true, run, id, more); }
    } else {
      var more := SmoothlyCompletes(n, run, id);
    }
  }

  // ---------- A dead-lettered event that a replay cannot bring back ----------

  // The one call, write or lookup, at which a handler run of the event fails first.
  function FirstFailure(e: Event): Action {
    if Plan(e, None) == [] then Look(0, false) else Land(0, 0, Lost)
  }

  function LockedOut(id: EventId, e: Event): seq<Action> {
    var m := Envelope(id, Carries(e));
    [Publish(m), Deliver(0, m), Mark(0, Done), Dispatch(0), FirstFailure(e), Unmark(0, Lost), Settle(0),
     Replay(m), Deliver(0, m), Mark(0, Done), Settle(0)]
  }

  // What no longer varies once the handler has failed.
  ghost predicate FailedOnce(s: State, x: Worker, id: EventId, e: Event) {
    && s.workers == [x] && s.rows == {id} && s.hasDlx && s.published == {Envelope(id, Carries(e))} && s.done == {}
    && s.store == EMPTY
    && |s.attempts| == 1 && !s.attempts[0].ok
  }

  // Traces: runs from a state, with the states they end in.
  ghost predicate Traces(trace: (State, seq<Action>) -> bool) {
    forall t, run, a {:trigger Step(t, a), run + [a]} :: trace(t, run) ==> trace(Step(t, a), run + [a])
  }

  // One worker has just entered the handler of the first message.
  ghost predicate Entered(s: State, id: EventId, e: Event) {
    var m := Envelope(id, Carries(e));
    && s.workers == [Start(m, e)] && s.rows == {id} && s.hasDlx && s.published == {m} && s.done == {}
    && s.store == EMPTY
    && s.attempts == [] && s.queue == multiset{} && s.dlq == multiset{} && s.stuck == {} && s.settled == 0
  }

  lemma Taken(trace: (State, seq<Action>) -> bool, id: EventId, e: Event) returns (s: State)
    requires Traces(trace) && trace(Initial(1, true), [])
    ensures var m := Envelope(id, Carries(e));
            trace(s, [] + [Publish(m)] + [Deliver(0, m)]) && s.workers == [Got(m)]
    ensures s.rows == {} && s.hasDlx && s.published == {Envelope(id, Carries(e))} && s.done == {} && s.store == EMPTY
    ensures s.attempts == [] && s.queue == multiset{} && s.dlq == multiset{} && s.stuck == {} && s.settled == 0
  {
    s := Step(Initial(1, true), Publish(Envelope(id, Carries(e))));
    s := Step(s, Deliver(0, Envelope(id, Carries(e))));
  }

  lemma Enter(trace: (State, seq<Action>) -> bool, id: EventId, e: Event) returns (s: State)
    requires Traces(trace) && trace(Initial(1, true), [])
    ensures var m := Envelope(id, Carries(e));
            trace(s, [] + [Publish(m)] + [Deliver(0, m)] + [Mark(0, Done)] + [Dispatch(0)])
    ensures Entered(s, id, e)
  {
    s := Taken(trace, id, e);
    s := Step(s, Mark(0, Done));
    s := Step(s, Dispatch(0));
  }

  lemma FirstRunFails(trace: (State, seq<Action>) -> bool, id: EventId, e: Event) returns (s: State)
    requires Traces(trace) && trace(Initial(1, true), [])
    ensures var m := Envelope(id, Carries(e));
            trace(s, [] + [Publish(m)] + [Deliver(0, m)] + [Mark(0, Done)] + [Dispatch(0)] + [FirstFailure(e)])
    ensures FailedOnce(s, Unmarking(Envelope(id, Carries(e))), id, e)
    ensures s.queue == multiset{} && s.dlq == multiset{} && s.stuck == {} && s.settled == 0
  {
    var before := Enter(trace, id, e);
    StartFails(before, Envelope(id, Carries(e)), e);
    s := Step(before, FirstFailure(e));
  }

  lemma StartFails(s: State, m: Message, e: Event)
    requires s.workers == [Start(m, e)] && m.Envelope? && m.payload == Carries(e)
    ensures var t := Step(s, FirstFailure(e));
            t == s.(workers := [Unmarking(m)], attempts := s.attempts + [Attempt(m.id, e, None, [], false)])
  {
    var plan := Plan(e, None);
    if plan != [] {
      assert |plan[0]| == 1;
      assert Indices(plan[0]) == {0};
    }
  }

  lemma StaysLocked(trace: (State, seq<Action>) -> bool, s0: State, run: seq<Action>, id: EventId, e: Event)
    returns (s: State)
    requires Traces(trace) && trace(s0, run)
    requires FailedOnce(s0, Unmarking(Envelope(id, Carries(e))), id, e)
    requires s0.queue == multiset{} && s0.dlq == multiset{} && s0.stuck == {} && s0.settled == 0
    ensures trace(s, run + [Unmark(0, Lost)] + [Settle(0)])
    ensures FailedOnce(s, Idle, id, e)
    ensures s.queue == multiset{} && s.dlq == multiset{Envelope(id, Carries(e))} && s.stuck == {id} && s.settled == 1
  {
    s := Step(s0, Unmark(0, Lost));
    s := Step(s, Settle(0));
  }

  lemma ReplayIsSkipped(trace: (State, seq<Action>) -> bool, s0: State, run: seq<Action>, id: EventId, e: Event)
    returns (s: State)
    requires Traces(trace) && trace(s0, run)
    requires FailedOnce(s0, Idle, id, e)
    requires s0.queue == multiset{} && s0.dlq == multiset{Envelope(id, Carries(e))} && s0.stuck == {id}
             && s0.settled == 1
    ensures var m := Envelope(id, Carries(e));
            trace(s, run + [Replay(m)] + [Deliver(0, m)] + [Mark(0, Done)] + [Settle(0)])
    ensures FailedOnce(s, Idle, id, e)
    ensures s.queue == multiset{} && s.dlq == multiset{} && s.stuck == {id} && s.settled == 2
  {
    var m := Envelope(id, Carries(e));
    s := Step(s0, Replay(m));
    s := Step(s, Deliver(0, m));
    assert s.workers == [Got(m)] && s.queue == multiset{};
    s := Step(s, Mark(0, Done));
    assert s.workers == [Acking(m)];
    s := Step(s, Settle(0));
  }

  // For every event: its handler fails once, the Unmark after it fails too, and the
  // dead-lettered message is replayed. It is acknowledged unread, with nothing left
  // of it in any queue and the event never to be handled.
  lemma ReplayIsLost(id: EventId, e: Event)
    ensures var s := Exec(Initial(1, true), LockedOut(id, e));
            && FailedOnce(s, Idle, id, e) && s.queue == multiset{} && s.dlq == multiset{}
            && s.settled == 2 && s.stuck == {id}
            && forall more :: id !in Exec(s, more).done
  {
    var m := Envelope(id, Carries(e));
    var trace := (t: State, run: seq<Action>) => Exec(Initial(1, true), run) == t;
    assert trace(Initial(1, true), []) by { assert Exec(Initial(1, true), []) == Initial(1, true); }
    forall t, run, a | trace(t, run) ensures trace(Step(t, a), run + [a]) { RunNext(Initial(1, true), run, a); }
    var s := FirstRunFails(trace, id, e);
    var run := [] + [Publish(m)] + [Deliver(0, m)] + [Mark(0, Done)] + [Dispatch(0)] + [FirstFailure(e)];
    s := StaysLocked(trace, s, run, id, e);
    s := ReplayIsSkipped(trace, s, run + [Unmark(0, Lost)] + [Settle(0)], id, e);
    assert LockedOut(id, e) == run + [Unmark(0, Lost)] + [Settle(0)] + [Replay(m)] + [Deliver(0, m)] + [Mark(0, Done)]
           + [Settle(0)];
    forall more ensures id !in Exec(s, more).done { StuckForever(1, true, LockedOut(id, e), id, more); }
  }
}
