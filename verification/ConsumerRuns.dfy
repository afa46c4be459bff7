// The consumer as a run of the protocol from its initial state, and what follows
// for the stores it leaves behind, whatever its store operations met.
module ConsumerRuns {
  import opened Events
  import opened Aggregates
  import opened Protocol
  import opened ProtocolAccounting
  import opened Consumer
  import opened ConsumerRefinement

  // A set of states that no action leaves.
  ghost predicate ClosedSystem(inv: State -> bool) {
    forall t, a {:trigger Step(t, a)} :: inv(t) ==> inv(Step(t, a))
  }

  lemma StaysOnLand(inv: State -> bool, t: State, w: nat, i: nat, fate: Fate)
    requires ClosedSystem(inv) && inv(t) && w < |t.workers|
    ensures inv(Landing(t, w, i, fate))
  {
    assert Step(t, Land(w, i, fate)) == Landing(t, w, i, fate);
  }

  lemma StaysOnLook(inv: State -> bool, t: State, w: nat, answered: bool)
    requires ClosedSystem(inv) && inv(t) && w < |t.workers|
    ensures inv(Looking(t, w, answered))
  {
    assert Step(t, Look(w, answered)) == Looking(t, w, answered);
  }

  lemma StaysOnMark(inv: State -> bool, t: State, w: nat, fate: Fate)
    requires ClosedSystem(inv) && inv(t) && w < |t.workers|
    ensures inv(Marking(t, w, fate))
  {
    assert Step(t, Mark(w, fate)) == Marking(t, w, fate);
  }

  lemma StaysOnDispatch(inv: State -> bool, t: State, w: nat)
    requires ClosedSystem(inv) && inv(t) && w < |t.workers|
    ensures inv(Dispatching(t, w))
  {
    assert Step(t, Dispatch(w)) == Dispatching(t, w);
  }

  lemma StaysOnUnmark(inv: State -> bool, t: State, w: nat, fate: Fate)
    requires ClosedSystem(inv) && inv(t) && w < |t.workers|
    ensures inv(Removing(t, w, fate))
  {
    assert Step(t, Unmark(w, fate)) == Removing(t, w, fate);
  }

  lemma StaysClosed(inv: State -> bool, w: nat)
    requires ClosedSystem(inv)
    ensures WorkerClosed(inv, w)
  {
    forall t, i, fate | inv(t) && w < |t.workers| ensures inv(Landing(t, w, i, fate)) {
      StaysOnLand(inv, t, w, i, fate);
    }
    forall t, answered | inv(t) && w < |t.workers| ensures inv(Looking(t, w, answered)) {
      StaysOnLook(inv, t, w, answered);
    }
    forall t, fate | inv(t) && w < |t.workers| ensures inv(Marking(t, w, fate)) { StaysOnMark(inv, t, w, fate); }
    forall t | inv(t) && w < |t.workers| ensures inv(Dispatching(t, w)) { StaysOnDispatch(inv, t, w); }
    forall t, fate | inv(t) && w < |t.workers| ensures inv(Removing(t, w, fate)) { StaysOnUnmark(inv, t, w, fate); }
  }

  // The only worker is between messages, with these stores.
  ghost predicate Resting(t: State, stores: (set<EventId>, Store)) {
    t.workers == [Idle] && t.rows == stores.0 && t.store == stores.1
  }

  lemma Arrives(inv: State -> bool, s: State, m: Message) returns (t: State)
    requires ClosedSystem(inv) && inv(s) && s.workers == [Idle]
    ensures inv(t) && t.workers == [Got(m)] && t.rows == s.rows && t.store == s.store
  {
    t := Step(s, Publish(m));
    t := Step(t, Deliver(0, m));
  }

  lemma Leaves(inv: State -> bool, s: State) returns (t: State)
    requires ClosedSystem(inv) && inv(s) && |s.workers| == 1 && (s.workers[0].Acking? || s.workers[0].Nacking?)
    ensures inv(t) && Resting(t, (s.rows, s.store))
  {
    t := Step(s, Settle(0));
  }

  lemma OneDelivery(inv: State -> bool, s: State, m: Message, fates: Fates) returns (t: State)
    requires ClosedSystem(inv) && inv(s) && s.workers == [Idle]
    ensures var r := Receive(s.rows, s.store, m, fates);
            inv(t) && Resting(t, (r.rows, r.store))
  {
    StaysClosed(inv, 0);
    t := Arrives(inv, s, m);
    t := MessageLeads(inv, t, 0, m, fates);
    t := Leaves(inv, t);
  }

  lemma {:induction false} ConsumingLeads(inv: State -> bool, hasDlx: bool, handlers: map<string, Handler>,
                                          ds: seq<Delivery>)
    returns (t: State)
    requires ClosedSystem(inv) && inv(Initial(1, hasDlx))
    ensures inv(t) && Resting(t, ReceiveAll({}, EMPTY, handlers, ds))
  {
    if ds == [] {
      t := Initial(1, hasDlx);
    } else {
      var n := |ds| - 1;
      var s := ConsumingLeads(inv, hasDlx, handlers, ds[..n]);
      t := OneDelivery(inv, s, MessageOf(ds[n].body, handlers), ds[n].fates);
    }
  }

  ghost predicate Reachable(hasDlx: bool, t: State) {
    exists run :: Exec(Initial(1, hasDlx), run) == t
  }

  lemma ReachableIsClosed(hasDlx: bool, t: State, a: Action)
    requires Reachable(hasDlx, t)
    ensures Reachable(hasDlx, Step(t, a))
  {
    var run :| Exec(Initial(1, hasDlx), run) == t;
    var longer := run + [a];
    assert longer[..|run|] == run;
    assert Exec(Initial(1, hasDlx), longer) == Step(t, a);
  }

  // Main result: whatever the store operations of its deliveries met, the stores a
  // consumer leaves behind are those of a reachable state of the protocol.
  lemma ConsumingIsARun(hasDlx: bool, handlers: map<string, Handler>, ds: seq<Delivery>) returns (run: seq<Action>)
    ensures Resting(Exec(Initial(1, hasDlx), run), ReceiveAll({}, EMPTY, handlers, ds))
  {
    var inv := (t: State) => Reachable(hasDlx, t);
    assert inv(Initial(1, hasDlx)) by { assert Exec(Initial(1, hasDlx), []) == Initial(1, hasDlx); }
    forall t, a | inv(t) ensures inv(Step(t, a)) { ReachableIsClosed(hasDlx, t, a); }
    var t := ConsumingLeads(inv, hasDlx, handlers, ds);
    run :| Exec(Initial(1, hasDlx), run) == t;
  }

  // So, failures or not, restaurant totals are at least the branch totals, and those
  // at least the platform totals, after any list of deliveries.
  lemma ConsumedTotalsInOrder(handlers: map<string, Handler>, ds: seq<Delivery>, rank: nat, days: Day -> bool,
                              c: Counter)
    requires Counts(c) && rank < 2
    ensures var st := ReceiveAll({}, EMPTY, handlers, ds).1;
            Read(st, DayTotals(rank, days, c)) >= Read(st, DayTotals(rank + 1, days, c))
  {
    var run := ConsumingIsARun(true, handlers, ds);
    TotalsInOrder(1, true, run, rank, days, c);
  }
}
