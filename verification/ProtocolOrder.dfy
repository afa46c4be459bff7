// Runs whose failed handlers landed nothing are sequential, with no premise on their
// events: an event takes its place when it looks its context up or, if it does not,
// when its handler completes, and gives it up if its handler fails.
module ProtocolOrder {
  import opened Events
  import opened Sums
  import opened Aggregates
  import opened Runs
  import opened Protocol
  import opened ProtocolCounters
  import opened ProtocolAccounting
  import opened ProtocolRefinement
  import opened ProtocolLog
  import opened ProtocolRepeats

  // ---------- The order so far ----------

  function AppliedBy(): Attempt -> seq<Applied> {
    (a: Attempt) => if a.ok then [Applied(a.event, a.found)] else []
  }

  // A run that has looked its context up has its place, though it is not over.
  function Placing(h: Worker): seq<Applied> {
    if h.Handling? && h.looked && NeedsContext(h.event) then [Applied(h.event, h.found)] else []
  }

  function PlacingOf(): Worker -> seq<Applied> {
    (h: Worker) => Placing(h)
  }

  function EventIn(): Applied -> seq<Event> {
    (a: Applied) => [a.event]
  }

  function EventsIn(line: seq<Applied>): seq<Event> {
    Gather(line, EventIn())
  }

  // The completed events with what their handlers found, and those that have their
  // place but are not over.
  function Completed(s: State): multiset<Applied> {
    multiset(Gather(s.attempts, AppliedBy()))
  }

  function Pending(s: State): multiset<Applied> {
    multiset(Gather(s.workers, PlacingOf()))
  }

  // The line is a sequential history, with its lookups, of the completed runs and of
  // those that have their place; it explains the context rows.
  ghost predicate Explains(line: seq<Applied>, s: State) {
    && multiset(line) == Completed(s) + Pending(s)
    && Trail(EventsIn(line)) == line
    && s.store.contexts == ContextsAfter(EventsIn(line))
  }

  function ContextsWith(contexts: map<string, OrderContext>, e: Event): map<string, OrderContext> {
    if e.OrderPlaced? then contexts[e.orderId := ContextOf(e)] else contexts
  }

  lemma LineAppend(line: seq<Applied>, x: Applied)
    requires Trail(EventsIn(line)) == line && x.found == Lookup(ContextsAfter(EventsIn(line)), x.event)
    ensures EventsIn(line + [x]) == EventsIn(line) + [x.event]
    ensures Trail(EventsIn(line + [x])) == line + [x]
    ensures ContextsAfter(EventsIn(line + [x])) == ContextsWith(ContextsAfter(EventsIn(line)), x.event)
  {
    GatherAppend(line, x, EventIn());
    assert (EventsIn(line) + [x.event])[..|EventsIn(line)|] == EventsIn(line);
  }

  // ---------- What one action does to the order ----------

  // Worker w went on; what it has newly placed, if anything.
  ghost predicate Goes(s: State, t: State, w: nat, placed: seq<Applied>) {
    && w < |s.workers| == |t.workers| && t.workers == s.workers[w := t.workers[w]]
    && (|| (t.attempts == s.attempts && Placing(t.workers[w]) == Placing(s.workers[w]) + placed)
        || (exists a :: t.attempts == s.attempts + [a] && a.ok && Placing(t.workers[w]) == []
                        && [Applied(a.event, a.found)] == Placing(s.workers[w]) + placed))
    && (if placed == [] then t.store.contexts == s.store.contexts
        else |placed| == 1 && placed[0].found == Lookup(s.store.contexts, placed[0].event)
             && t.store.contexts == ContextsWith(s.store.contexts, placed[0].event))
  }

  lemma CountsMove(line: multiset<Applied>, placed: multiset<Applied>, a: multiset<Applied>, a': multiset<Applied>,
                   w: multiset<Applied>, w': multiset<Applied>, p: multiset<Applied>, p': multiset<Applied>)
    requires line == a + w && w' + p == w + p'
    requires (a' == a && p' == p + placed) || (a' == a + p + placed && p' == multiset{})
    ensures line + placed == a' + w'
  {
    forall x ensures (line + placed)[x] == (a' + w')[x] {
      assert (w' + p)[x] == w'[x] + p[x] && (w + p')[x] == w[x] + p'[x];
    }
  }

  lemma GoesKeepsCount(line: seq<Applied>, s: State, t: State, w: nat, placed: seq<Applied>)
    requires multiset(line) == Completed(s) + Pending(s)
    requires Goes(s, t, w, placed)
    ensures multiset(line + placed) == Completed(t) + Pending(t)
  {
    var p, p' := Placing(s.workers[w]), Placing(t.workers[w]);
    var a, a' := Gather(s.attempts, AppliedBy()), Gather(t.attempts, AppliedBy());
    GatherUpdate(s.workers, w, t.workers[w], PlacingOf());
    assert (a' == a && p' == p + placed) || (a' == a + (p + placed) && p' == []) by {
      if t.attempts != s.attempts {
        var x :| t.attempts == s.attempts + [x] && x.ok && p' == [] && [Applied(x.event, x.found)] == p + placed;
        GatherAppend(s.attempts, x, AppliedBy());
      }
    }
    CountsMove(multiset(line), multiset(placed), multiset(a), multiset(a'), multiset(Gather(s.workers, PlacingOf())),
               multiset(Gather(t.workers, PlacingOf())), multiset(p), multiset(p'));
  }

  lemma GoesExplains(line: seq<Applied>, s: State, t: State, w: nat, placed: seq<Applied>)
    requires Explains(line, s) && Goes(s, t, w, placed)
    ensures Explains(line + placed, t)
  {
    GoesKeepsCount(line, s, t, w, placed);
    if placed == [] {
      assert line + placed == line;
    } else {
      assert placed == [placed[0]];
      LineAppend(line, placed[0]);
    }
  }

  // A write that does not end the run.
  lemma PartGoes(s: State, w: nat, i: nat)
    requires w < |s.workers| && CanLand(s.workers[w], i) && WorkerOrderly(s.workers[w]) && !s.workers[w].spoilt
    requires Tried(s.workers[w], i, Done).left != {}
             || s.workers[w].at + 1 < |Plan(s.workers[w].event, s.workers[w].found)|
             || !s.workers[w].looked
    ensures Goes(s, Landing(s, w, i, Done), w, [])
  {
    var h := s.workers[w];
    if WriteAt(h, i).ToContext? { ContextWriteFacts(h, i); }
    LandingGoesOn(s, w, i);
  }

  // The one that does: an event that looked nothing up takes its place with it.
  lemma LastGoes(s: State, w: nat, i: nat) returns (placed: seq<Applied>)
    requires w < |s.workers| && CanLand(s.workers[w], i) && WorkerOrderly(s.workers[w]) && !s.workers[w].spoilt
    requires Tried(s.workers[w], i, Done).left == {} && s.workers[w].looked
    requires s.workers[w].at + 1 == |Plan(s.workers[w].event, s.workers[w].found)|
    ensures Goes(s, Landing(s, w, i, Done), w, placed)
  {
    var h := s.workers[w];
    LandingCompletes(s, w, i);
    var t := Landing(s, w, i, Done);
    var landed := Tried(h, i, Done).landed;
    assert t.attempts == s.attempts + [Attempt(h.msg.id, h.event, h.found, landed, true)];
    placed := if NeedsContext(h.event) then [] else [Applied(h.event, h.found)];
    LastContexts(s, h, i);
  }

  lemma LastContexts(s: State, h: Worker, i: nat)
    requires CanLand(h, i) && h.at + 1 == |Plan(h.event, h.found)|
    ensures Apply(s.store, WriteAt(h, i)).contexts == ContextsWith(s.store.contexts, h.event)
  {
    assert InPlan(Plan(h.event, h.found), h.at, i);
    if WriteAt(h, i).ToContext? { ContextCallIsLast(h.event, h.found, h.at, i); } else { NotPlacedAtTheEnd(h, i); }
  }

  lemma LandGoes(s: State, w: nat, i: nat) returns (placed: seq<Applied>)
    requires w < |s.workers| && CanLand(s.workers[w], i) && WorkerOrderly(s.workers[w]) && !s.workers[w].spoilt
    ensures Goes(s, Landing(s, w, i, Done), w, placed)
  {
    var h := s.workers[w];
    if Tried(h, i, Done).left == {} && h.at + 1 == |Plan(h.event, h.found)| && h.looked {
      placed := LastGoes(s, w, i);
    } else {
      placed := [];
      PartGoes(s, w, i);
    }
  }

  lemma LookGoes(s: State, w: nat) returns (placed: seq<Applied>)
    requires w < |s.workers| && WorkerOrderly(s.workers[w]) && Looking(s, w, true) != s
    ensures Goes(s, Looking(s, w, true), w, placed)
  {
    var h, t := s.workers[w], Looking(s, w, true);
    var found := Lookup(s.store.contexts, h.event);
    placed := [Applied(h.event, found)];
    if h.at >= |Plan(h.event, found)| {
      assert t.attempts == s.attempts + [Attempt(h.msg.id, h.event, found, h.landed, true)];
    }
  }

  // ---------- Giving a place up ----------

  // Worker w's run failed and left the context rows alone.
  ghost predicate GivesUp(s: State, t: State, w: nat) {
    && w < |s.workers| == |t.workers| && t.workers == s.workers[w := t.workers[w]]
    && Placing(t.workers[w]) == [] && t.store.contexts == s.store.contexts
    && exists a :: t.attempts == s.attempts + [a] && !a.ok
  }

  lemma LineFront(line: seq<Applied>, x: Applied)
    requires Trail(EventsIn(line + [x])) == line + [x]
    ensures EventsIn(line + [x]) == EventsIn(line) + [x.event]
    ensures Trail(EventsIn(line)) == line && x.found == Lookup(ContextsAfter(EventsIn(line)), x.event)
    ensures ContextsAfter(EventsIn(line + [x])) == ContextsWith(ContextsAfter(EventsIn(line)), x.event)
  {
    GatherAppend(line, x, EventIn());
    var h := EventsIn(line);
    assert (h + [x.event])[..|h|] == h;
    assert line + [x] == Trail(h) + [Applied(x.event, Lookup(ContextsAfter(h), x.event))];
    assert (line + [x])[|line|] == x && |Trail(h)| == |line|;
    assert line == (line + [x])[..|line|] == Trail(h);
  }

  // An event that places no order can be taken out of a history.
  lemma {:induction false} TakeOut(head: seq<Applied>, x: Applied, tail: seq<Applied>)
    requires Trail(EventsIn(head + [x] + tail)) == head + [x] + tail && !x.event.OrderPlaced?
    ensures Trail(EventsIn(head + tail)) == head + tail
    ensures ContextsAfter(EventsIn(head + tail)) == ContextsAfter(EventsIn(head + [x] + tail))
    decreases |tail|
  {
    if tail == [] {
      assert head + tail == head && head + [x] + tail == head + [x];
      LineFront(head, x);
    } else {
      var n := |tail| - 1;
      var rest, y := tail[..n], tail[n];
      assert head + [x] + tail == (head + [x] + rest) + [y] && head + tail == (head + rest) + [y];
      LineFront(head + [x] + rest, y);
      TakeOut(head, x, rest);
      LineAppend(head + rest, y);
    }
  }

  lemma {:induction false} SplitAtLast(line: seq<Applied>, x: Applied) returns (head: seq<Applied>, tail: seq<Applied>)
    requires x in line
    ensures line == head + [x] + tail && x !in tail
  {
    var n := |line| - 1;
    if line[n] == x {
      head, tail := line[..n], [];
    } else {
      assert line == line[..n] + [line[n]];
      head, tail := SplitAtLast(line[..n], x);
      tail := tail + [line[n]];
    }
  }

  // The line lost the last of more occurrences of an entry than have completed.
  ghost predicate Shortened(line: seq<Applied>, shorter: seq<Applied>, s: State) {
    shorter == line || exists head, x, tail ::
      line == head + [x] + tail && shorter == head + tail && x !in tail && multiset(line)[x] > Completed(s)[x]
  }

  lemma GivingUpCounts(s: State, t: State, w: nat)
    requires GivesUp(s, t, w)
    ensures Completed(t) == Completed(s) && Pending(t) + multiset(Placing(s.workers[w])) == Pending(s)
  {
    var a :| t.attempts == s.attempts + [a] && !a.ok;
    GatherAppend(s.attempts, a, AppliedBy());
    assert Gather(t.attempts, AppliedBy()) == Gather(s.attempts, AppliedBy());
    GatherUpdate(s.workers, w, t.workers[w], PlacingOf());
    assert multiset(Placing(t.workers[w])) == multiset{};
  }

  lemma PlacedEventIsNoOrder(h: Worker)
    ensures forall x :: x in Placing(h) ==> !x.event.OrderPlaced?
  {
  }

  lemma PlaceGivenUp(line: seq<Applied>, s: State, t: State, w: nat, x: Applied) returns (shorter: seq<Applied>)
    requires Explains(line, s) && GivesUp(s, t, w) && Placing(s.workers[w]) == [x]
    ensures Explains(shorter, t) && Shortened(line, shorter, s)
  {
    GivingUpCounts(s, t, w);
    assert multiset(line)[x] == (Completed(t) + Pending(t) + multiset{x})[x];
    var head, tail := SplitAtLast(line, x);
    PlacedEventIsNoOrder(s.workers[w]);
    TakeOut(head, x, tail);
    AroundOne(head, x, tail);
    shorter := head + tail;
    SameRest(multiset(shorter), Completed(t) + Pending(t), x);
  }

  lemma GivingUpExplains(line: seq<Applied>, s: State, t: State, w: nat) returns (shorter: seq<Applied>)
    requires Explains(line, s) && GivesUp(s, t, w)
    ensures Explains(shorter, t) && Shortened(line, shorter, s)
  {
    if Placing(s.workers[w]) == [] {
      GivingUpCounts(s, t, w);
      shorter := line;
    } else {
      shorter := PlaceGivenUp(line, s, t, w, Placing(s.workers[w])[0]);
    }
  }

  // ---------- Where an event stands ----------

  // The order was right at an earlier instant: a first part of the line has all that
  // had completed by then and nothing that had not at least taken its place.
  ghost predicate Within(line: seq<Applied>, s: State) {
    exists j :: FirstBetween(line, j, s)
  }

  ghost predicate FirstBetween(line: seq<Applied>, j: int, s: State) {
    0 <= j <= |line| && Between(multiset(line[..j]), s)
  }

  ghost predicate Between(part: multiset<Applied>, s: State) {
    Completed(s) <= part <= Completed(s) + Pending(s)
  }

  lemma LongerWithin(line: seq<Applied>, more: seq<Applied>, s: State)
    requires Within(line, s)
    ensures Within(line + more, s)
  {
    var j :| FirstBetween(line, j, s);
    assert (line + more)[..j] == line[..j];
    assert FirstBetween(line + more, j, s);
  }

  lemma CompletedGrows(s: State, t: State)
    requires s.attempts <= t.attempts
    ensures Completed(s) <= Completed(t)
  {
    assert t.attempts == s.attempts + t.attempts[|s.attempts|..];
    GatherConcat(s.attempts, t.attempts[|s.attempts|..], AppliedBy());
  }

  lemma NotInTail(tail: seq<Applied>, x: Applied, k: nat)
    requires x !in tail && k <= |tail|
    ensures multiset(tail)[x] == 0 && multiset(tail[..k])[x] == 0
  {
  }

  lemma OneFewer(part: multiset<Applied>, x: Applied, s: State)
    requires Between(part + multiset{x}, s) && part[x] >= Completed(s)[x]
    ensures Between(part, s)
  {
    forall y ensures Completed(s)[y] <= part[y] <= (Completed(s) + Pending(s))[y] {
      assert Completed(s)[y] <= (part + multiset{x})[y] <= (Completed(s) + Pending(s))[y];
    }
  }

  lemma PartAfterLast(head: seq<Applied>, x: Applied, tail: seq<Applied>, k: nat, earlier: State)
    requires k <= |tail| && Between(multiset(head + [x] + tail[..k]), earlier)
    requires x !in tail && multiset(head + [x] + tail)[x] > Completed(earlier)[x]
    ensures Between(multiset(head + tail[..k]), earlier)
  {
    AroundOne(head, x, tail[..k]);
    AroundOne(head, x, tail);
    NotInTail(tail, x, k);
    OneFewer(multiset(head + tail[..k]), x, earlier);
  }

  lemma PartBefore<T>(head: seq<T>, x: T, tail: seq<T>, j: nat)
    requires j <= |head|
    ensures (head + [x] + tail)[..j] == (head + tail)[..j]
  {
  }

  lemma PartAfter<T>(head: seq<T>, x: T, tail: seq<T>, k: nat)
    requires k <= |tail|
    ensures (head + [x] + tail)[..|head| + 1 + k] == head + [x] + tail[..k]
    ensures (head + tail)[..|head| + k] == head + tail[..k]
  {
  }

  lemma PartFromEarly(head: seq<Applied>, x: Applied, tail: seq<Applied>, j: nat, earlier: State)
    requires j <= |head| && FirstBetween(head + [x] + tail, j, earlier)
    ensures FirstBetween(head + tail, j, earlier)
  {
    PartBefore(head, x, tail, j);
  }

  lemma PartFromLate(head: seq<Applied>, x: Applied, tail: seq<Applied>, k: nat, earlier: State)
    requires k <= |tail| && FirstBetween(head + [x] + tail, |head| + 1 + k, earlier)
    requires x !in tail && multiset(head + [x] + tail)[x] > Completed(earlier)[x]
    ensures FirstBetween(head + tail, |head| + k, earlier)
  {
    PartAfter(head, x, tail, k);
    PartAfterLast(head, x, tail, k, earlier);
  }

  lemma PartsWithin(head: seq<Applied>, x: Applied, tail: seq<Applied>, earlier: State)
    requires Within(head + [x] + tail, earlier)
    requires x !in tail && multiset(head + [x] + tail)[x] > Completed(earlier)[x]
    ensures Within(head + tail, earlier)
  {
    var j :| FirstBetween(head + [x] + tail, j, earlier);
    if j <= |head| {
      PartFromEarly(head, x, tail, j, earlier);
    } else {
      PartFromLate(head, x, tail, j - 1 - |head|, earlier);
    }
  }

  lemma ShortenedWithin(line: seq<Applied>, shorter: seq<Applied>, earlier: State, s: State)
    requires Within(line, earlier) && Shortened(line, shorter, s) && earlier.attempts <= s.attempts
    ensures Within(shorter, earlier)
  {
    if shorter != line {
      var head, x, tail :| line == head + [x] + tail && shorter == head + tail && x !in tail
                           && multiset(line)[x] > Completed(s)[x];
      CompletedGrows(earlier, s);
      PartsWithin(head, x, tail, earlier);
    }
  }

  // An action leaves the explaining line as it is, extends or shortens it.
  ghost predicate Revises(line: seq<Applied>, next: seq<Applied>, s: State) {
    line <= next || Shortened(line, next, s)
  }

  lemma RevisedWithin(line: seq<Applied>, next: seq<Applied>, earlier: State, s: State)
    requires Within(line, earlier) && Revises(line, next, s) && earlier.attempts <= s.attempts
    ensures Within(next, earlier)
  {
    if line <= next {
      assert next == line + next[|line|..];
      LongerWithin(line, next[|line|..], earlier);
    } else {
      ShortenedWithin(line, next, earlier, s);
    }
  }

  // ---------- Along a run ----------

  // No failed handler run has landed a write.
  ghost predicate Harmless(s: State) {
    forall k :: 0 <= k < |s.attempts| && !s.attempts[k].ok ==> s.attempts[k].landed == []
  }

  ghost predicate Moves(s: State, t: State, w: nat, placed: seq<Applied>) {
    Goes(s, t, w, placed) || (placed == [] && GivesUp(s, t, w))
  }

  lemma FailingMoves(s: State, w: nat)
    requires w < |s.workers| && s.workers[w].Handling? && s.workers[w].msg.Envelope?
    ensures GivesUp(s, Returning(s, w, false), w)
    ensures Harmless(Returning(s, w, false)) ==> s.workers[w].landed == []
  {
    var h, t := s.workers[w], Returning(s, w, false);
    var a := Attempt(h.msg.id, h.event, h.found, h.landed, false);
    assert t.attempts == s.attempts + [a];
    assert t.attempts[|s.attempts|] == a;
  }

  // A call that failed, its run over: none of its writes landed.
  lemma SpoiltEnds(s: State, w: nat, i: nat, fate: Fate)
    requires w < |s.workers| && CanLand(s.workers[w], i) && Harmless(Landing(s, w, i, fate))
    requires Tried(s.workers[w], i, fate).left == {} && Tried(s.workers[w], i, fate).spoilt
    ensures GivesUp(s, Landing(s, w, i, fate), w)
  {
    var h' := Tried(s.workers[w], i, fate);
    var t := SetWorker(s.(store := Stored(s.store, s.workers[w], i, fate)), w, h');
    LandingEnds(s, w, i, fate);
    FailingMoves(t, w);
    var a :| Returning(t, w, false).attempts == t.attempts + [a] && !a.ok;
    assert Landing(s, w, i, fate).attempts == s.attempts + [a];
  }

  // A write in the middle of a call, whatever its fate.
  lemma MiddleGoes(s: State, w: nat, i: nat, fate: Fate)
    requires w < |s.workers| && CanLand(s.workers[w], i) && WorkerOrderly(s.workers[w])
    requires Tried(s.workers[w], i, fate).left != {}
    ensures Goes(s, Landing(s, w, i, fate), w, [])
  {
    var h, t := s.workers[w], Landing(s, w, i, fate);
    assert t.workers == s.workers[w := Tried(h, i, fate)] && t.attempts == s.attempts;
    assert Placing(Tried(h, i, fate)) == Placing(h);
    SameContexts(s.store, h, i, fate);
  }

  lemma SameContexts(st: Store, h: Worker, i: nat, fate: Fate)
    requires CanLand(h, i) && WorkerOrderly(h) && Tried(h, i, fate).left != {}
    ensures Stored(st, h, i, fate).contexts == st.contexts
  {
    assert Tried(h, i, Done).left == Tried(h, i, fate).left;
    if WriteAt(h, i).ToContext? {
      ContextWriteFacts(h, i);
    } else {
      OnlyContextWritesSave(st, WriteAt(h, i));
    }
  }

  lemma OnlyContextWritesSave(st: Store, w: Write)
    requires !w.ToContext?
    ensures Apply(st, w).contexts == st.contexts
  {
  }

  lemma LandMoves(s: State, w: nat, i: nat, fate: Fate) returns (placed: seq<Applied>)
    requires w < |s.workers| && CanLand(s.workers[w], i) && WorkerOrderly(s.workers[w])
    requires Harmless(Landing(s, w, i, fate))
    ensures Moves(s, Landing(s, w, i, fate), w, placed)
  {
    var h' := Tried(s.workers[w], i, fate);
    placed := [];
    if h'.left != {} {
      MiddleGoes(s, w, i, fate);
    } else if h'.spoilt {
      SpoiltEnds(s, w, i, fate);
    } else {
      placed := LandGoes(s, w, i);
    }
  }

  lemma LookMoves(s: State, w: nat, answered: bool) returns (placed: seq<Applied>)
    requires w < |s.workers| && WorkerOrderly(s.workers[w]) && Looking(s, w, answered) != s
    ensures Moves(s, Looking(s, w, answered), w, placed)
  {
    placed := [];
    if answered { placed := LookGoes(s, w); } else { FailingMoves(s, w); }
  }

  lemma CrashMoves(s: State, w: nat)
    requires w < |s.workers| && WorkerOrderly(s.workers[w]) && !s.workers[w].Idle?
    ensures Moves(s, Crashing(s, w), w, [])
  {
    var h := s.workers[w];
    if h.Handling? {
      var a := Attempt(h.msg.id, h.event, h.found, h.landed, false);
      assert Crashing(s, w).attempts == s.attempts + [a];
    }
  }

  lemma ActionMoves(s: State, a: Action) returns (placed: seq<Applied>)
    requires AllOrderly(s) && !a.Publish? && !a.Replay? && a.w < |s.workers|
    requires Harmless(Step(s, a)) && Step(s, a) != s
    ensures Moves(s, Step(s, a), a.w, placed)
  {
    assert WorkerOrderly(s.workers[a.w]);
    placed := [];
    if a.Land? {
      placed := LandMoves(s, a.w, a.i, a.fate);
    } else if a.Look? {
      placed := LookMoves(s, a.w, a.answered);
    } else if a.Crash? {
      CrashMoves(s, a.w);
    } else {
      OutsideQuiet(s, a);
    }
  }

  lemma StepExplained(line: seq<Applied>, s: State, a: Action) returns (next: seq<Applied>)
    requires AllOrderly(s) && Harmless(Step(s, a)) && Explains(line, s)
    ensures Explains(next, Step(s, a)) && Revises(line, next, s)
  {
    next := line;
    if a.Publish? || a.Replay? {
      assert Step(s, a).attempts == s.attempts && Step(s, a).workers == s.workers && Step(s, a).store == s.store;
    } else if a.w < |s.workers| && Step(s, a) != s {
      var placed := ActionMoves(s, a);
      if Goes(s, Step(s, a), a.w, placed) {
        GoesExplains(line, s, Step(s, a), a.w, placed);
        next := line + placed;
      } else {
        next := GivingUpExplains(line, s, Step(s, a), a.w);
      }
    }
  }

  lemma StepGrows(s: State, a: Action)
    requires AllOrderly(s)
    ensures s.attempts <= Step(s, a).attempts
  {
    if !a.Publish? && !a.Replay? && a.w < |s.workers| && !a.Land? && !a.Look? && !a.Crash? { OutsideQuiet(s, a); }
  }

  // The states a run goes through, the first and the last included.
  function States(s: State, run: seq<Action>): (states: seq<State>)
    ensures |states| == |run| + 1 && states[|run|] == Exec(s, run)
  {
    if run == [] then [s]
    else
      var before := States(s, run[..|run| - 1]);
      before + [Step(before[|run| - 1], run[|run| - 1])]
  }

  lemma {:induction false} StatesAt(s: State, run: seq<Action>, k: nat)
    requires k <= |run|
    ensures States(s, run)[k] == Exec(s, run[..k])
  {
    if k < |run| {
      StatesAt(s, run[..|run| - 1], k);
      assert run[..|run| - 1][..k] == run[..k];
    } else {
      assert run[..k] == run;
    }
  }

  ghost predicate Ordered(line: seq<Applied>, states: seq<State>) {
    forall k :: 0 <= k < |states| ==> Within(line, states[k])
  }

  ghost predicate Ascending(states: seq<State>, s: State) {
    forall k :: 0 <= k < |states| ==> states[k].attempts <= s.attempts
  }

  lemma ExplainsWithin(line: seq<Applied>, s: State)
    requires Explains(line, s)
    ensures Within(line, s)
  {
    assert line[..|line|] == line;
    assert FirstBetween(line, |line|, s);
  }

  lemma RevisedOrdered(line: seq<Applied>, next: seq<Applied>, states: seq<State>, s: State)
    requires Ordered(line, states) && Ascending(states, s) && Revises(line, next, s)
    ensures Ordered(next, states)
  {
    forall k | 0 <= k < |states| ensures Within(next, states[k]) {
      RevisedWithin(line, next, states[k], s);
    }
  }

  lemma OrderedMore(line: seq<Applied>, states: seq<State>, t: State)
    requires Ordered(line, states) && Within(line, t)
    ensures Ordered(line, states + [t])
  {
  }

  lemma AscendingMore(states: seq<State>, s: State, t: State)
    requires Ascending(states, s) && s.attempts <= t.attempts
    ensures Ascending(states + [t], t)
  {
  }

  lemma HarmlessBefore(s: State, a: Action)
    requires AllOrderly(s) && Harmless(Step(s, a))
    ensures Harmless(s) && s.attempts <= Step(s, a).attempts
  {
    StepGrows(s, a);
    forall k | 0 <= k < |s.attempts| && !s.attempts[k].ok ensures s.attempts[k].landed == [] {
      assert Step(s, a).attempts[k] == s.attempts[k];
    }
  }

  lemma NobodyPlaced(n: nat, hasDlx: bool)
    ensures Explains([], Initial(n, hasDlx)) && Ordered([], [Initial(n, hasDlx)])
  {
    GatherNothing(Initial(n, hasDlx).workers, PlacingOf());
    assert EventsIn([]) == [] && Gather([], AppliedBy()) == [];
    ExplainsWithin([], Initial(n, hasDlx));
  }

  lemma {:induction false} RunExplained(n: nat, hasDlx: bool, run: seq<Action>) returns (line: seq<Applied>)
    requires Harmless(Exec(Initial(n, hasDlx), run))
    ensures Explains(line, Exec(Initial(n, hasDlx), run))
    ensures Ordered(line, States(Initial(n, hasDlx), run))
    ensures Ascending(States(Initial(n, hasDlx), run), Exec(Initial(n, hasDlx), run))
  {
    if run == [] {
      line := [];
      NobodyPlaced(n, hasDlx);
    } else {
      var before, a := run[..|run| - 1], run[|run| - 1];
      var s := Exec(Initial(n, hasDlx), before);
      RunKeepsInvariant(n, hasDlx, before);
      HarmlessBefore(s, a);
      var shorter := RunExplained(n, hasDlx, before);
      line := StepExplained(shorter, s, a);
      var states := States(Initial(n, hasDlx), before);
      RevisedOrdered(shorter, line, states, s);
      ExplainsWithin(line, Step(s, a));
      OrderedMore(line, states, Step(s, a));
      AscendingMore(states, s, Step(s, a));
    }
  }

  // ---------- The counters ----------

  lemma ExplainedReads(s: State, line: seq<Applied>, g: Gauge)
    requires AllOrderly(s) && Accounts(s, g) && Harmless(s) && Explains(line, s)
    requires forall h :: h in s.workers ==> !h.Handling?
    ensures Read(s.store, g) == Read(RunAll(EventsIn(line)), g)
  {
    NoneInFlight(s.workers, g);
    forall k | 0 <= k < |s.attempts| ensures LandedBy(g)(s.attempts[k]) == CompletedShare(g)(s.attempts[k]) {
      if s.attempts[k].ok { SuccessLandsItsShare(s.attempts[k], g); }
    }
    SumEqual(s.attempts, LandedBy(g), s.attempts, CompletedShare(g));
    forall a ensures Sum(AppliedBy()(a), ShareOf(g)) == CompletedShare(g)(a) {
      if a.ok {
        SumAppend([], Applied(a.event, a.found), ShareOf(g));
        assert [] + AppliedBy()(a) == AppliedBy()(a);
      }
    }
    GatherSum(s.attempts, AppliedBy(), ShareOf(g), CompletedShare(g));
    GatherNothing(s.workers, PlacingOf());
    SumPermutation(line, Gather(s.attempts, AppliedBy()), ShareOf(g));
    RunReads(EventsIn(line), g);
  }

  // Main result: any interleaving of any number of workers in which no failed
  // handler landed a write, once no handler is running, has left the same counters
  // and the same context rows as handling the completed events h one by one. In h
  // each of them finds the context that its handler found, and h agrees with the
  // run at every instant: its first events are those that had completed by then,
  // with some of those whose handlers had looked their context up and were under
  // way. Duplicates, requeues, crashes and conflicting events of one order included.
  lemma InterleavingIsSequential(n: nat, hasDlx: bool, run: seq<Action>) returns (h: seq<Event>)
    requires var s := Exec(Initial(n, hasDlx), run); NothingBesides(s) && forall x :: x in s.workers ==> !x.Handling?
    ensures var s := Exec(Initial(n, hasDlx), run);
            && multiset(Trail(h)) == Completed(s)
            && s.store.contexts == RunAll(h).contexts
            && forall cell :: ReadCell(s.store, cell) == ReadCell(RunAll(h), cell)
    ensures forall k :: 0 <= k <= |run| ==> Within(Trail(h), Exec(Initial(n, hasDlx), run[..k]))
  {
    var s := Exec(Initial(n, hasDlx), run);
    forall k | 0 <= k < |s.attempts| && !s.attempts[k].ok ensures s.attempts[k].landed == [] {
      assert s.attempts[k] in s.attempts && IsRun(s, s.attempts[k]);
    }
    var line := RunExplained(n, hasDlx, run);
    h := EventsIn(line);
    forall k | 0 <= k <= |run| ensures Within(line, Exec(Initial(n, hasDlx), run[..k])) {
      StatesAt(Initial(n, hasDlx), run, k);
    }
    RunContexts(h);
    GatherNothing(s.workers, PlacingOf());
    forall cell ensures ReadCell(s.store, cell) == ReadCell(RunAll(h), cell) {
      RunKeepsCounters(n, hasDlx, run, At(cell));
      ExplainedReads(s, line, At(cell));
    }
  }
}
