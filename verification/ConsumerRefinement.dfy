// Every call of HandleMessage, whatever its store operations meet, is a run of one
// worker of the protocol, and consuming a list of deliveries is a run of the whole
// system: what the protocol keeps holds of the consumer's stores too.
module ConsumerRefinement {
  import opened Events
  import opened Aggregates
  import opened Repositories
  import opened Service
  import opened Protocol
  import opened Consumer
  import ProtocolCounters

  // ---------- Where the steps of one worker can lead ----------

  // A set of states that worker w does not leave while it processes its message.
  ghost predicate WorkerClosed(inv: State -> bool, w: nat) {
    && (forall t, fate {:trigger Marking(t, w, fate)} :: inv(t) && w < |t.workers| ==> inv(Marking(t, w, fate)))
    && (forall t {:trigger Dispatching(t, w)} :: inv(t) && w < |t.workers| ==> inv(Dispatching(t, w)))
    && ClosedInHandler(inv, w)
    && (forall t, fate {:trigger Removing(t, w, fate)} :: inv(t) && w < |t.workers| ==> inv(Removing(t, w, fate)))
  }

  ghost predicate ClosedInHandler(inv: State -> bool, w: nat) {
    && (forall t, i, fate {:trigger Landing(t, w, i, fate)} :: inv(t) && w < |t.workers| ==>
        inv(Landing(t, w, i, fate)))
    && (forall t, answered {:trigger Looking(t, w, answered)} :: inv(t) && w < |t.workers| ==>
        inv(Looking(t, w, answered)))
  }

  // Same state but for the store and one worker, and for what is only recorded.
  ghost predicate Only(s: State, t: State, w: nat, store: Store, x: Worker) {
    w < |s.workers| && t.workers == s.workers[w := x] && t.store == store && t.rows == s.rows && t.queue == s.queue
  }

  // The worker is at the start of a call of its plan.
  predicate Ready(h: Worker, batch: seq<Write>) {
    && h.Handling? && h.msg.Envelope? && !h.spoilt
    && InCall(h, batch)
    && h.left == Indices(batch)
    && batch != []
  }

  predicate InCall(h: Worker, batch: seq<Write>) {
    h.Handling? && h.msg.Envelope? && h.at < |Plan(h.event, h.found)| && Plan(h.event, h.found)[h.at] == batch
  }

  // ---------- One call ----------

  // The worker after all writes of its current call were tried.
  function AfterCall(h: Worker, ok: bool): Worker
    requires h.Handling? && h.msg.Envelope?
  {
    var plan := Plan(h.event, h.found);
    if !ok then Unmarking(h.msg)
    else if h.at + 1 < |plan| then h.(at := h.at + 1, left := Indices(plan[h.at + 1]))
    else if !h.looked then h.(at := h.at + 1)
    else Acking(h.msg)
  }

  function After(st: Store, w: Write, fate: Fate): Store {
    if fate.Lost? then st else Apply(st, w)
  }

  function Trying(h: Worker, batch: seq<Write>, i: nat, fate: Fate): (h': Worker)
    requires h.Handling? && i < |batch|
    ensures h'.Handling? && h'.msg == h.msg
  {
    h.(left := h.left - {i}, spoilt := h.spoilt || !fate.Done?,
       landed := if fate.Lost? then h.landed else h.landed + [batch[i]])
  }

  lemma LandPart(s: State, w: nat, batch: seq<Write>, i: nat, fate: Fate)
    requires w < |s.workers| && InCall(s.workers[w], batch)
    requires i < |batch| && i in s.workers[w].left && s.workers[w].left != {i}
    ensures Only(s, Landing(s, w, i, fate), w, After(s.store, batch[i], fate), Trying(s.workers[w], batch, i, fate))
  {
  }

  lemma LandLast(s: State, w: nat, batch: seq<Write>, i: nat, fate: Fate)
    requires w < |s.workers| && InCall(s.workers[w], batch)
    requires i < |batch| && s.workers[w].left == {i}
    ensures var h := s.workers[w];
            Only(s, Landing(s, w, i, fate), w, After(s.store, batch[i], fate),
                 AfterCall(Trying(h, batch, i, fate), !h.spoilt && fate.Done?))
  {
    var h := s.workers[w];
    assert Tried(h, i, fate) == Trying(h, batch, i, fate) && Trying(h, batch, i, fate).left == {};
    assert Stored(s.store, h, i, fate) == After(s.store, batch[i], fate);
    ProtocolCounters.LandingEnds(s, w, i, fate);
  }

  // The worker after k of the writes of its call were tried.
  ghost function Midway(h: Worker, batch: seq<Write>, k: nat, net: nat -> Fate, from: nat): (h': Worker)
    requires h.Handling? && k <= |batch|
    ensures h'.Handling? && h'.msg == h.msg
  {
    h.(left := Below(|batch|) - Below(k), spoilt := !AllDone(k, net, from),
       landed := h.landed + Surviving(batch[..k], net, from))
  }

  lemma OneMoreSurvives(batch: seq<Write>, k: nat, net: nat -> Fate, from: nat)
    requires k < |batch|
    ensures Surviving(batch[..k + 1], net, from) ==
            Surviving(batch[..k], net, from) + if net(from + k).Lost? then [] else [batch[k]]
  {
    assert batch[..k + 1][..k] == batch[..k];
  }

  lemma OneFewerLeft(n: nat, k: nat)
    requires k < n
    ensures Below(n) - Below(k) - {k} == Below(n) - Below(k + 1)
    ensures k in Below(n) - Below(k)
    ensures Below(n) - Below(k) == {k} <==> k + 1 == n
  {
    if k + 1 < n { assert k + 1 in Below(n) - Below(k); }
  }

  lemma OneMoreTried(h: Worker, batch: seq<Write>, k: nat, net: nat -> Fate, from: nat)
    requires h.Handling? && k < |batch|
    ensures Trying(Midway(h, batch, k, net, from), batch, k, net(from + k)) == Midway(h, batch, k + 1, net, from)
  {
    OneMoreSurvives(batch, k, net, from);
    OneFewerLeft(|batch|, k);
    assert AllDone(k + 1, net, from) <==> AllDone(k, net, from) && net(from + k).Done?;
  }

  lemma OneMoreStored(st: Store, batch: seq<Write>, k: nat, net: nat -> Fate, from: nat)
    requires k < |batch|
    ensures After(ApplyAll(st, Surviving(batch[..k], net, from)), batch[k], net(from + k)) ==
            ApplyAll(st, Surviving(batch[..k + 1], net, from))
  {
    var ws := Surviving(batch[..k], net, from);
    OneMoreSurvives(batch, k, net, from);
    ApplyMore(st, ws, batch[k]);
    assert ws + [] == ws;
  }

  // Where a call stands after k of its writes.
  ghost predicate Stands(s: State, t: State, w: nat, batch: seq<Write>, k: nat, net: nat -> Fate, from: nat)
    requires w < |s.workers| && s.workers[w].Handling? && k <= |batch|
  {
    Only(s, t, w, ApplyAll(s.store, Surviving(batch[..k], net, from)), Midway(s.workers[w], batch, k, net, from))
  }

  lemma StandsAtStart(s: State, w: nat, batch: seq<Write>, net: nat -> Fate, from: nat)
    requires w < |s.workers| && Ready(s.workers[w], batch)
    ensures Stands(s, s, w, batch, 0, net, from)
  {
    assert batch[..0] == [];
    assert Midway(s.workers[w], batch, 0, net, from) == s.workers[w];
  }

  lemma NextStands(s: State, t: State, w: nat, batch: seq<Write>, k: nat, net: nat -> Fate, from: nat)
    requires w < |s.workers| && Ready(s.workers[w], batch) && k + 1 < |batch|
    requires Stands(s, t, w, batch, k, net, from)
    ensures Stands(s, Landing(t, w, k, net(from + k)), w, batch, k + 1, net, from)
  {
    OneMoreTried(s.workers[w], batch, k, net, from);
    OneMoreStored(s.store, batch, k, net, from);
    OneFewerLeft(|batch|, k);
    LandPart(t, w, batch, k, net(from + k));
  }

  lemma {:induction false} PartOfCall(inv: State -> bool, s: State, w: nat, batch: seq<Write>, k: nat, net: nat -> Fate,
                                      from: nat)
    returns (t: State)
    requires ClosedInHandler(inv, w) && inv(s)
    requires w < |s.workers| && Ready(s.workers[w], batch) && k < |batch|
    ensures inv(t) && Stands(s, t, w, batch, k, net, from)
  {
    if k == 0 {
      StandsAtStart(s, w, batch, net, from);
      t := s;
    } else {
      var t' := PartOfCall(inv, s, w, batch, k - 1, net, from);
      t := NextPart(inv, s, t', w, batch, k - 1, net, from);
    }
  }

  lemma NextPart(inv: State -> bool, s: State, t: State, w: nat, batch: seq<Write>, k: nat, net: nat -> Fate, from: nat)
    returns (t': State)
    requires ClosedInHandler(inv, w) && inv(t)
    requires w < |s.workers| && Ready(s.workers[w], batch) && k + 1 < |batch|
    requires Stands(s, t, w, batch, k, net, from)
    ensures inv(t') && Stands(s, t', w, batch, k + 1, net, from)
  {
    t' := Landing(t, w, k, net(from + k));
    NextStands(s, t, w, batch, k, net, from);
  }

  lemma WholeCall(inv: State -> bool, s: State, w: nat, batch: seq<Write>, net: nat -> Fate, from: nat)
    returns (t: State)
    requires ClosedInHandler(inv, w) && inv(s)
    requires w < |s.workers| && Ready(s.workers[w], batch)
    ensures inv(t)
    ensures var n := |batch|;
            Only(s, t, w, ApplyAll(s.store, Surviving(batch, net, from)),
              AfterCall(Midway(s.workers[w], batch, n, net, from), AllDone(n, net, from)))
  {
    var h := s.workers[w];
    var n := |batch| - 1;
    var t' := PartOfCall(inv, s, w, batch, n, net, from);
    OneMoreTried(h, batch, n, net, from);
    OneMoreStored(s.store, batch, n, net, from);
    OneFewerLeft(|batch|, n);
    assert batch[..n + 1] == batch;
    t := Landing(t', w, n, net(from + n));
    LandLast(t', w, batch, n, net(from + n));
    assert AllDone(n + 1, net, from) <==> AllDone(n, net, from) && net(from + n).Done?;
  }

  // ---------- One handler run ----------

  // The worker may go on with call number at of its plan, or with the lookup.
  ghost predicate AtCall(h: Worker, plan: seq<seq<Write>>, at: nat) {
    && h.Handling? && h.msg.Envelope? && !h.spoilt
    && plan == Plan(h.event, h.found) && h.at == at <= |plan|
    && (at < |plan| ==> h.left == Indices(plan[at]))
    && (at == |plan| ==> !h.looked)
    && (forall b :: 0 <= b < |plan| ==> plan[b] != [])
  }

  // The worker after the calls of its plan.
  ghost predicate Over(h: Worker, x: Worker, ok: bool)
    requires h.Handling? && h.msg.Envelope?
  {
    if !ok then x == Unmarking(h.msg)
    else if h.looked then x == Acking(h.msg)
    else AtCall(x, Plan(h.event, h.found), |Plan(h.event, h.found)|)
         && x.msg == h.msg && x.event == h.event && x.found == h.found && !x.looked
  }

  ghost predicate Moved(s: State, t: State, w: nat, store: Store) {
    w < |s.workers| == |t.workers| && Only(s, t, w, store, t.workers[w])
  }

  lemma {:induction false} FailedCallsStop(o: Outcome, plan: seq<seq<Write>>, net: nat -> Fate, from: nat)
    requires !o.ok
    ensures Calls(o, plan, net, from) == o
    decreases |plan|
  {
    if plan != [] { FailedCallsStop(o, plan[1..], net, from + |plan[0]|); }
  }

  lemma NextCall(st: Store, plan: seq<seq<Write>>, at: nat, net: nat -> Fate, from: nat)
    requires at < |plan|
    ensures var st', ok := ApplyAll(st, Surviving(plan[at], net, from)), AllDone(|plan[at]|, net, from);
            Calls(Outcome(st, true), plan[at..], net, from) ==
            if ok then Calls(Outcome(st', true), plan[at + 1..], net, from + |plan[at]|) else Outcome(st', false)
  {
    assert plan[at..][1..] == plan[at + 1..];
    var o := Then(Outcome(st, true), plan[at], net, from);
    if !o.ok { FailedCallsStop(o, plan[at + 1..], net, from + |plan[at]|); }
  }

  // Same place in the same handler run, but for the call reached.
  ghost predicate Continues(h: Worker, x: Worker, plan: seq<seq<Write>>, at: nat)
    requires h.Handling?
  {
    AtCall(x, plan, at) && x.msg == h.msg && x.event == h.event && x.found == h.found && x.looked == h.looked
  }

  predicate Stops(h: Worker, plan: seq<seq<Write>>, at: nat, ok: bool)
    requires h.Handling?
  {
    !ok || (at + 1 == |plan| && h.looked)
  }

  lemma OneCallOfPlan(inv: State -> bool, s: State, w: nat, plan: seq<seq<Write>>, at: nat, net: nat -> Fate, from: nat)
    returns (t: State)
    requires ClosedInHandler(inv, w) && inv(s)
    requires w < |s.workers| && at < |plan| && AtCall(s.workers[w], plan, at)
    ensures inv(t) && Moved(s, t, w, ApplyAll(s.store, Surviving(plan[at], net, from)))
    ensures var h, ok := s.workers[w], AllDone(|plan[at]|, net, from);
            if Stops(h, plan, at, ok) then Over(h, t.workers[w], ok) else Continues(h, t.workers[w], plan, at + 1)
  {
    t := WholeCall(inv, s, w, plan[at], net, from);
  }

  // From s the worker made the calls from number at on, and is in t now.
  ghost predicate Ran(s: State, t: State, w: nat, plan: seq<seq<Write>>, at: nat, net: nat -> Fate, from: nat)
    requires w < |s.workers| && AtCall(s.workers[w], plan, at)
  {
    var o := Calls(Outcome(s.store, true), plan[at..], net, from);
    Moved(s, t, w, o.store) && Over(s.workers[w], t.workers[w], o.ok)
  }

  lemma RanToStop(s: State, t: State, w: nat, plan: seq<seq<Write>>, at: nat, net: nat -> Fate, from: nat)
    requires w < |s.workers| && at < |plan| && AtCall(s.workers[w], plan, at)
    requires Moved(s, t, w, ApplyAll(s.store, Surviving(plan[at], net, from)))
    requires Stops(s.workers[w], plan, at, AllDone(|plan[at]|, net, from))
    requires Over(s.workers[w], t.workers[w], AllDone(|plan[at]|, net, from))
    ensures Ran(s, t, w, plan, at, net, from)
  {
    NextCall(s.store, plan, at, net, from);
    if at + 1 == |plan| { assert plan[at + 1..] == []; }
  }

  lemma RanOn(s: State, t: State, u: State, w: nat, plan: seq<seq<Write>>, at: nat, net: nat -> Fate, from: nat)
    requires w < |s.workers| && at < |plan| && AtCall(s.workers[w], plan, at)
    requires Moved(s, t, w, ApplyAll(s.store, Surviving(plan[at], net, from)))
    requires AllDone(|plan[at]|, net, from) && Continues(s.workers[w], t.workers[w], plan, at + 1)
    requires Ran(t, u, w, plan, at + 1, net, from + |plan[at]|)
    ensures Ran(s, u, w, plan, at, net, from)
  {
    NextCall(s.store, plan, at, net, from);
  }

  lemma RanNothing(s: State, w: nat, plan: seq<seq<Write>>, net: nat -> Fate, from: nat)
    requires w < |s.workers| && AtCall(s.workers[w], plan, |plan|)
    ensures Ran(s, s, w, plan, |plan|, net, from)
  {
    assert plan[|plan|..] == [];
  }

  lemma {:induction false} RestOfPlan(inv: State -> bool, s: State, w: nat, plan: seq<seq<Write>>, at: nat,
                                      net: nat -> Fate, from: nat)
    returns (t: State)
    requires ClosedInHandler(inv, w) && inv(s)
    requires w < |s.workers| && AtCall(s.workers[w], plan, at)
    ensures inv(t) && Ran(s, t, w, plan, at, net, from)
    decreases |plan| - at
  {
    if at == |plan| {
      RanNothing(s, w, plan, net, from);
      return s;
    }
    t := OneCallOfPlan(inv, s, w, plan, at, net, from);
    if Stops(s.workers[w], plan, at, AllDone(|plan[at]|, net, from)) {
      RanToStop(s, t, w, plan, at, net, from);
    } else {
      var u := RestOfPlan(inv, t, w, plan, at + 1, net, from + |plan[at]|);
      RanOn(s, t, u, w, plan, at, net, from);
      t := u;
    }
  }

  lemma StartGoes(m: Message, e: Event)
    requires m.Envelope?
    ensures AtCall(Start(m, e), Plan(e, None), 0)
  {
    ProtocolCounters.PlanStages(e, None);
  }

  // The context lookup, answered or not, of a worker whose first calls are over.
  lemma LookFails(s: State, w: nat, e: Event)
    requires w < |s.workers| && AtCall(s.workers[w], Plan(e, None), |Plan(e, None)|) && s.workers[w].event == e
    ensures Only(s, Looking(s, w, false), w, s.store, Unmarking(s.workers[w].msg))
  {
  }

  lemma LookAnswers(s: State, w: nat, e: Event)
    requires w < |s.workers| && NeedsContext(e) && AtCall(s.workers[w], Plan(e, None), |Plan(e, None)|)
             && s.workers[w].event == e
    ensures var first, plan, t := Plan(e, None), Plan(e, Lookup(s.store.contexts, e)), Looking(s, w, true);
            && Moved(s, t, w, s.store) && |first| <= |plan|
            && if |plan| == |first| then t.workers[w] == Acking(s.workers[w].msg)
               else AtCall(t.workers[w], plan, |first|) && t.workers[w].looked && t.workers[w].msg == s.workers[w].msg
  {
    var found := Lookup(s.store.contexts, e);
    ProtocolCounters.LongerPlan(e, found);
    ProtocolCounters.PlanStages(e, found);
  }

  // The handler has returned.
  ghost predicate Returned(s: State, t: State, w: nat, m: Message, o: Outcome) {
    w < |s.workers| && Only(s, t, w, o.store, if o.ok then Acking(m) else Unmarking(m))
  }

  lemma ResumesAfterLookup(inv: State -> bool, s: State, w: nat, m: Message, e: Event, net: nat -> Fate)
    returns (t: State)
    requires ClosedInHandler(inv, w) && inv(s)
    requires w < |s.workers| && NeedsContext(e)
    requires AtCall(s.workers[w], Plan(e, None), |Plan(e, None)|) && s.workers[w].event == e && s.workers[w].msg == m
    ensures inv(t) && Returned(s, t, w, m, Resume(s.store, e, net))
  {
    var n, plan := |Plan(e, None)|, Plan(e, Lookup(s.store.contexts, e));
    if !net(n).Done? {
      t := Looking(s, w, false);
      LookFails(s, w, e);
    } else {
      t := Looking(s, w, true);
      LookAnswers(s, w, e);
      if |plan| == n {
        assert plan[n..] == [];
      } else {
        var u := t;
        t := RestOfPlan(inv, u, w, plan, n, net, n + 1);
      }
    }
  }

  lemma FirstPart(inv: State -> bool, s: State, w: nat, m: Message, e: Event, net: nat -> Fate) returns (t: State)
    requires ClosedInHandler(inv, w) && inv(s)
    requires w < |s.workers| && m.Envelope? && s.workers[w] == Start(m, e)
    ensures inv(t)
    ensures var o := Calls(Outcome(s.store, true), Plan(e, None), net, 0);
            Moved(s, t, w, o.store) && Over(Start(m, e), t.workers[w], o.ok)
  {
    StartGoes(m, e);
    t := RestOfPlan(inv, s, w, Plan(e, None), 0, net, 0);
    assert Plan(e, None)[0..] == Plan(e, None);
  }

  lemma HandlerWithoutLookup(inv: State -> bool, s: State, w: nat, m: Message, e: Event, net: nat -> Fate)
    returns (t: State)
    requires ClosedInHandler(inv, w) && inv(s)
    requires w < |s.workers| && m.Envelope? && s.workers[w] == Start(m, e) && !NeedsContext(e)
    ensures inv(t) && Returned(s, t, w, m, Serve(s.store, e, net))
  {
    t := FirstPart(inv, s, w, m, e, net);
  }

  lemma HandlerWithLookup(inv: State -> bool, s: State, w: nat, m: Message, e: Event, net: nat -> Fate)
    returns (t: State)
    requires ClosedInHandler(inv, w) && inv(s)
    requires w < |s.workers| && m.Envelope? && s.workers[w] == Start(m, e) && NeedsContext(e)
    ensures inv(t) && Returned(s, t, w, m, Serve(s.store, e, net))
  {
    t := FirstPart(inv, s, w, m, e, net);
    if Calls(Outcome(s.store, true), Plan(e, None), net, 0).ok {
      t := ResumesAfterLookup(inv, t, w, m, e, net);
    }
  }

  // ---------- One message ----------

  // The worker has dealt with its message and is about to settle it.
  ghost predicate Reacted(s: State, t: State, w: nat, m: Message, r: Reaction) {
    && w < |s.workers| && t.rows == r.rows && t.store == r.store && t.queue == s.queue
    && t.workers == s.workers[w := if r.verdict.Acked? then Acking(m) else Nacking(m, r.verdict.requeue)]
  }

  lemma Removes(s: State, w: nat, m: Message, unmark: Fate)
    requires w < |s.workers| && m.Envelope? && s.workers[w] == Unmarking(m)
    ensures Reacted(s, Removing(s, w, unmark), w, m, DeadLetter(s.rows, s.store, m.id, unmark))
  {
  }

  lemma MarkedMessage(inv: State -> bool, s: State, w: nat, m: Message, fates: Fates) returns (t: State)
    requires WorkerClosed(inv, w) && inv(s)
    requires w < |s.workers| && m.Envelope? && s.workers[w] == Marked(m)
    ensures inv(t)
    ensures Reacted(s, t, w, m,
                    match m.payload
                    case Unregistered => Reaction(s.rows, s.store, Acked)
                    case Undecodable => DeadLetter(s.rows, s.store, m.id, fates.unmark)
                    case Carries(e) =>
                      var o := Serve(s.store, e, fates.net);
                      if o.ok then Reaction(s.rows, o.store, Acked)
                        else DeadLetter(s.rows, o.store, m.id, fates.unmark))
  {
    t := Dispatching(s, w);
    if m.payload.Carries? {
      var e := m.payload.event;
      if NeedsContext(e) {
        t := HandlerWithLookup(inv, t, w, m, e, fates.net);
      } else {
        t := HandlerWithoutLookup(inv, t, w, m, e, fates.net);
      }
    }
    if t.workers[w].Unmarking? {
      Removes(t, w, m, fates.unmark);
      t := Removing(t, w, fates.unmark);
    }
  }

  lemma MessageLeads(inv: State -> bool, s: State, w: nat, m: Message, fates: Fates) returns (t: State)
    requires WorkerClosed(inv, w) && inv(s)
    requires w < |s.workers| && s.workers[w] == Got(m)
    ensures inv(t) && Reacted(s, t, w, m, Receive(s.rows, s.store, m, fates))
  {
    t := Marking(s, w, fates.mark);
    if t.workers[w].Marked? {
      t := MarkedMessage(inv, t, w, m, fates);
    }
  }
}
