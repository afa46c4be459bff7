// Deduplication refined away: without store failures, any delivery list leaves the
// counters of the plain fold over first occurrences.
module ConsumerLaws {
  import opened Events
  import opened Sums
  import opened Aggregates
  import opened Repositories
  import opened Runs
  import opened Service
  import opened Protocol
  import opened Consumer

  ghost predicate NoFaults(net: nat -> Fate) {
    forall i: nat :: net(i).Done?
  }

  ghost predicate Faultless(f: Fates) {
    f.mark.Done? && f.unmark.Done? && NoFaults(f.net)
  }

  // ---------- A handler run without store failures ----------

  lemma {:induction false} LandsWhole(batch: seq<Write>, net: nat -> Fate, from: nat)
    requires NoFaults(net)
    ensures Surviving(batch, net, from) == batch
  {
    if batch != [] { LandsWhole(batch[..|batch| - 1], net, from); }
  }

  lemma {:induction false} FlatFirst(plan: seq<seq<Write>>)
    requires plan != []
    ensures Flat(plan) == plan[0] + Flat(plan[1..])
    decreases |plan|
  {
    var n := |plan| - 1;
    if n == 0 {
      assert plan[..0] == [] && plan[1..] == [];
      assert Flat(plan) == [] + plan[0];
    } else {
      FlatFirst(plan[..n]);
      assert plan[..n][1..] == plan[1..][..n - 1];
    }
  }

  lemma FaultlessCall(st: Store, batch: seq<Write>, net: nat -> Fate, from: nat)
    requires NoFaults(net)
    ensures Then(Outcome(st, true), batch, net, from) == Outcome(ApplyAll(st, batch), true)
  {
    LandsWhole(batch, net, from);
    assert AllDone(|batch|, net, from);
  }

  lemma FirstThenRest(st: Store, plan: seq<seq<Write>>)
    requires plan != []
    ensures ApplyAll(ApplyAll(st, plan[0]), Flat(plan[1..])) == ApplyAll(st, Flat(plan))
  {
    FlatFirst(plan);
    ApplyAllConcat(st, plan[0], Flat(plan[1..]));
  }

  lemma FirstCallOf(st: Store, plan: seq<seq<Write>>, net: nat -> Fate, from: nat)
    requires NoFaults(net) && plan != []
    ensures Calls(Outcome(st, true), plan, net, from) ==
            Calls(Outcome(ApplyAll(st, plan[0]), true), plan[1..], net, from + |plan[0]|)
  {
    FaultlessCall(st, plan[0], net, from);
  }

  lemma CallsOneMore(st: Store, plan: seq<seq<Write>>, net: nat -> Fate, from: nat)
    requires NoFaults(net) && plan != []
    requires var st' := ApplyAll(st, plan[0]);
             Calls(Outcome(st', true), plan[1..], net, from + |plan[0]|)
               == Outcome(ApplyAll(st', Flat(plan[1..])), true)
    ensures Calls(Outcome(st, true), plan, net, from) == Outcome(ApplyAll(st, Flat(plan)), true)
  {
    FirstCallOf(st, plan, net, from);
    FirstThenRest(st, plan);
  }

  lemma {:induction false} CallsWithoutFaults(st: Store, plan: seq<seq<Write>>, net: nat -> Fate, from: nat)
    requires NoFaults(net)
    ensures Calls(Outcome(st, true), plan, net, from) == Outcome(ApplyAll(st, Flat(plan)), true)
    decreases |plan|
  {
    if plan != [] {
      CallsWithoutFaults(ApplyAll(st, plan[0]), plan[1..], net, from + |plan[0]|);
      CallsOneMore(st, plan, net, from);
    }
  }

  // What comes before the context lookup leaves the context rows alone.
  lemma BeforeLookup(st: Store, e: Event, found: Option<OrderContext>)
    requires NeedsContext(e)
    ensures Plan(e, None) <= Plan(e, found)
    ensures ApplyAll(st, Flat(Plan(e, None))).contexts == st.contexts
  {
    var first := Plan(e, None);
    forall w | w in Flat(first) ensures !w.ToContext? { FlatMembers(first, w); }
    WithoutContextWrites(st, Flat(first));
  }

  lemma ResumedWithoutFaults(st: Store, a: seq<seq<Write>>, b: seq<seq<Write>>, net: nat -> Fate, from: nat)
    requires NoFaults(net)
    ensures Calls(Outcome(ApplyAll(st, Flat(a)), true), b, net, from) == Outcome(ApplyAll(st, Flat(a + b)), true)
  {
    CallsWithoutFaults(ApplyAll(st, Flat(a)), b, net, from);
    FlatSplit(a, b);
    ApplyAllConcat(st, Flat(a), Flat(b));
  }

  // The handler run from its context lookup on.
  lemma CallsAfterLookup(st: Store, e: Event, first: seq<seq<Write>>, plan: seq<seq<Write>>, net: nat -> Fate)
    requires NoFaults(net) && first <= plan
    ensures Calls(Outcome(ApplyAll(st, Flat(first)), true), plan[|first|..], net, |first| + 1)
            == Outcome(ApplyAll(st, Flat(plan)), true)
  {
    assert plan == first + plan[|first|..];
    ResumedWithoutFaults(st, first, plan[|first|..], net, |first| + 1);
  }

  lemma TwoParts(st: Store, e: Event, first: seq<seq<Write>>, plan: seq<seq<Write>>, net: nat -> Fate)
    requires NoFaults(net) && NeedsContext(e)
    requires first == Plan(e, None) && plan == Plan(e, Lookup(st.contexts, e))
    ensures Serve(st, e, net) == Outcome(ApplyAll(st, Flat(plan)), true)
  {
    var mid := ApplyAll(st, Flat(first));
    BeforeLookup(st, e, Lookup(st.contexts, e));
    CallsWithoutFaults(st, first, net, 0);
    assert Lookup(mid.contexts, e) == Lookup(st.contexts, e);
    CallsAfterLookup(st, e, first, plan, net);
  }

  // The step-by-step handlers refine the one-step handler of the run laws.
  lemma ServeWithoutFaults(st: Store, e: Event, net: nat -> Fate)
    requires NoFaults(net)
    ensures Serve(st, e, net) == Outcome(Handle(st, e), true)
  {
    if NeedsContext(e) {
      TwoParts(st, e, Plan(e, None), Plan(e, Lookup(st.contexts, e)), net);
    } else {
      CallsWithoutFaults(st, Plan(e, None), net, 0);
    }
  }

  lemma {:induction false} FlatSplit(a: seq<seq<Write>>, b: seq<seq<Write>>)
    ensures Flat(a + b) == Flat(a) + Flat(b)
    decreases |b|
  {
    if b == [] {
      assert a + b == a;
    } else {
      var n, whole := |b| - 1, a + b;
      var m := |whole| - 1;
      assert whole[..m] == a + b[..n] && whole[m] == b[n];
      FlatSplit(a, b[..n]);
      assert Flat(whole) == Flat(a + b[..n]) + b[n];
      assert Flat(b) == Flat(b[..n]) + b[n];
    }
  }

  // ---------- First occurrences ----------

  // Does this message close its event id, so that a later delivery of it is
  // acknowledged unread? All do, except those whose handler fails to decode them.
  predicate Closes(m: Message, id: EventId) {
    m.Envelope? && m.id == id && !m.payload.Undecodable?
  }

  ghost function ClosedBy(ms: seq<Message>): set<EventId> {
    set m | m in ms && m.Envelope? && !m.payload.Undecodable? :: m.id
  }

  ghost function FirstEvents(ms: seq<Message>): seq<Event> {
    if ms == [] then []
    else
      var n := |ms| - 1;
      var before := FirstEvents(ms[..n]);
      if ms[n].Envelope? && ms[n].payload.Carries? && !(exists j :: 0 <= j < n && Closes(ms[j], ms[n].id))
      then before + [ms[n].payload.event] else before
  }

  function Messages(ds: seq<Delivery>, handlers: map<string, Handler>): (ms: seq<Message>)
    ensures |ms| == |ds|
    ensures forall i :: 0 <= i < |ds| ==> ms[i] == MessageOf(ds[i].body, handlers)
  {
    seq(|ds|, i requires 0 <= i < |ds| => MessageOf(ds[i].body, handlers))
  }

  lemma ClosedLater(ms: seq<Message>, m: Message)
    ensures ClosedBy(ms + [m]) ==
            ClosedBy(ms) + if m.Envelope? && !m.payload.Undecodable? then {m.id} else {}
    ensures forall id :: id in ClosedBy(ms) <==> exists j :: 0 <= j < |ms| && Closes(ms[j], id)
  {
    forall id ensures id in ClosedBy(ms) <==> exists j :: 0 <= j < |ms| && Closes(ms[j], id) {
      if id in ClosedBy(ms) {
        var x :| x in ms && x.Envelope? && !x.payload.Undecodable? && x.id == id;
        var j :| 0 <= j < |ms| && ms[j] == x;
        assert Closes(ms[j], id);
      }
    }
  }

  lemma FaultlessReaction(rows: set<EventId>, h: seq<Event>, m: Message, fates: Fates)
    requires Faultless(fates)
    ensures var r := Receive(rows, RunAll(h), m, fates);
            && r.rows == rows + (if m.Envelope? && !m.payload.Undecodable? then {m.id} else {})
            && r.store ==
                 RunAll(if m.Envelope? && m.payload.Carries? && m.id !in rows then h + [m.payload.event] else h)
            && r.verdict == if m.Malformed? || (m.id !in rows && m.payload.Undecodable?) then Nacked(false) else Acked
  {
    if m.Envelope? && m.payload.Carries? && m.id !in rows {
      var e := m.payload.event;
      ServeWithoutFaults(RunAll(h), e, fates.net);
      assert (h + [e])[..|h|] == h;
    }
  }

  lemma NextOccurrence(ms: seq<Message>, m: Message)
    ensures FirstEvents(ms + [m]) ==
            if m.Envelope? && m.payload.Carries? && m.id !in ClosedBy(ms)
            then FirstEvents(ms) + [m.payload.event] else FirstEvents(ms)
  {
    var n, longer := |ms|, ms + [m];
    assert longer[..n] == ms;
    ClosedLater(ms, m);
    if m.Envelope? {
      assert (exists j :: 0 <= j < n && Closes(ms[j], m.id)) <==> exists j :: 0 <= j < n && Closes(longer[j], m.id) by {
        assert forall j :: 0 <= j < n ==> longer[j] == ms[j];
      }
    }
  }

  // Main result: without store failures, consuming any delivery list, duplicates
  // and unreadable messages included, is one run of the handlers over the first
  // occurrence of each event.
  lemma {:induction false} ConsumingIsRunningFirstOccurrences(handlers: map<string, Handler>, ds: seq<Delivery>)
    requires forall d :: d in ds ==> Faultless(d.fates)
    ensures var ms := Messages(ds, handlers);
            ReceiveAll({}, EMPTY, handlers, ds) == (ClosedBy(ms), RunAll(FirstEvents(ms)))
  {
    if ds != [] {
      var n := |ds| - 1;
      var m, ms' := MessageOf(ds[n].body, handlers), Messages(ds[..n], handlers);
      assert Messages(ds, handlers) == ms' + [m];
      assert ds[n] in ds;
      ConsumingIsRunningFirstOccurrences(handlers, ds[..n]);
      FaultlessReaction(ClosedBy(ms'), FirstEvents(ms'), m, ds[n].fates);
      ClosedLater(ms', m);
      NextOccurrence(ms', m);
    } else {
      assert Messages(ds, handlers) == [] && ClosedBy([]) == {};
    }
  }

  // So every counter after consuming is the closed-form sum over that history.
  lemma ConsumedReads(handlers: map<string, Handler>, ds: seq<Delivery>, g: Gauge)
    requires forall d :: d in ds ==> Faultless(d.fates)
    ensures Read(ReceiveAll({}, EMPTY, handlers, ds).1, g)
            == Sum(Trail(FirstEvents(Messages(ds, handlers))), ShareOf(g))
  {
    ConsumingIsRunningFirstOccurrences(handlers, ds);
    RunReads(FirstEvents(Messages(ds, handlers)), g);
  }

  // ---------- Each id once ----------

  ghost function Ids(ds: seq<Delivery>): set<string> {
    set d | d in ds && d.body.Json? :: d.body.eventId
  }

  // A body with an id, of a registered type, that its handler can read, delivered
  // without store failures.
  predicate Legible(d: Delivery, handlers: map<string, Handler>) {
    && Addressed(d.body) && d.body.eventType in handlers && Readable(handlers[d.body.eventType], d.body.payload)
  }

  lemma {:induction false} FirstsAreIds(ms: seq<Message>)
    requires forall m :: m in ms ==> m.Envelope? && m.payload.Carries?
    ensures |FirstEvents(ms)| == |ClosedBy(ms)|
  {
    if ms == [] {
      assert ClosedBy(ms) == {};
    } else {
      var n := |ms| - 1;
      assert ms == ms[..n] + [ms[n]] && ms[n] in ms;
      FirstsAreIds(ms[..n]);
      NextOccurrence(ms[..n], ms[n]);
      ClosedLater(ms[..n], ms[n]);
    }
  }

  lemma PlainMessage(d: Delivery, handlers: map<string, Handler>)
    requires Legible(d, handlers)
    ensures var m := MessageOf(d.body, handlers);
            m.Envelope? && m.id == d.body.eventId && m.payload.Carries?
  {
  }

  lemma ClosedIds(handlers: map<string, Handler>, ds: seq<Delivery>)
    requires forall d :: d in ds ==> Legible(d, handlers)
    ensures forall m :: m in Messages(ds, handlers) ==> m.Envelope? && m.payload.Carries?
    ensures ClosedBy(Messages(ds, handlers)) == Ids(ds)
  {
    var ms := Messages(ds, handlers);
    forall i | 0 <= i < |ms| ensures ms[i].Envelope? && ms[i].id == ds[i].body.eventId && ms[i].payload.Carries? {
      assert ds[i] in ds;
      PlainMessage(ds[i], handlers);
    }
    forall id ensures id in ClosedBy(ms) <==> id in Ids(ds) {
      if id in ClosedBy(ms) {
        var i :| 0 <= i < |ms| && ms[i].id == id;
        assert ds[i] in ds;
      }
      if id in Ids(ds) {
        var i :| 0 <= i < |ds| && ds[i].body.Json? && ds[i].body.eventId == id;
        assert ms[i] in ms;
      }
    }
  }

  // Over such deliveries exactly their ids are marked, and as many events are handled
  // as there are distinct ids.
  lemma EachIdOnce(handlers: map<string, Handler>, ds: seq<Delivery>)
    requires forall d :: d in ds ==> Legible(d, handlers) && Faultless(d.fates)
    ensures ReceiveAll({}, EMPTY, handlers, ds).0 == Ids(ds)
    ensures |FirstEvents(Messages(ds, handlers))| == |Ids(ds)|
  {
    ConsumingIsRunningFirstOccurrences(handlers, ds);
    ClosedIds(handlers, ds);
    FirstsAreIds(Messages(ds, handlers));
  }

  function AllDates(): PlatformKey -> bool {
    (k: PlatformKey) => true
  }

  lemma PlacementCountsOne(e: Event, found: Option<OrderContext>)
    requires e.OrderPlaced?
    ensures ShareOf(OverPlatform(AllDates(), Orders))(Applied(e, found)) == 1
  {
  }

  lemma {:induction false} PlacementsCountOnce(h: seq<Event>)
    requires forall e :: e in h ==> e.OrderPlaced?
    ensures Sum(Trail(h), ShareOf(OverPlatform(AllDates(), Orders))) == |h|
  {
    if h != [] {
      var n := |h| - 1;
      var last, f := Applied(h[n], Lookup(ContextsAfter(h[..n]), h[n])), ShareOf(OverPlatform(AllDates(), Orders));
      assert h[n] in h;
      PlacementsCountOnce(h[..n]);
      PlacementCountsOne(h[n], last.found);
      SumAppend(Trail(h[..n]), last, f);
      assert Trail(h) == Trail(h[..n]) + [last];
    }
  }

  lemma OrdersRead(st: Store)
    ensures Read(st, OverPlatform(AllDates(), Orders)) == Total(st.platform, OrdersOf())
  {
    TotalEqual(st.platform, PlatformWeight(AllDates(), Orders), OrdersOf());
  }

  lemma PlacedMessages(handlers: map<string, Handler>, ds: seq<Delivery>)
    requires forall t :: t in handlers ==> handlers[t] == PlacedHandler
    ensures forall m :: m in Messages(ds, handlers) && m.Envelope? && m.payload.Carries? ==>
            m.payload.event.OrderPlaced?
  {
  }

  // If they are all orders, so many are counted on the platform, over all days and
  // currencies.
  lemma EachOrderIdCountsOnce(handlers: map<string, Handler>, ds: seq<Delivery>)
    requires forall d :: d in ds ==> Legible(d, handlers) && Faultless(d.fates)
    requires forall t :: t in handlers ==> handlers[t] == PlacedHandler
    ensures Total(ReceiveAll({}, EMPTY, handlers, ds).1.platform, OrdersOf()) == |Ids(ds)|
  {
    ConsumingIsRunningFirstOccurrences(handlers, ds);
    EachIdOnce(handlers, ds);
    PlacedMessages(handlers, ds);
    OnlyPlaced(handlers, Messages(ds, handlers));
    OrdersPlacedCount(FirstEvents(Messages(ds, handlers)));
  }

  lemma OrdersPlacedCount(h: seq<Event>)
    requires forall e :: e in h ==> e.OrderPlaced?
    ensures Total(RunAll(h).platform, OrdersOf()) == |h|
  {
    RunReads(h, OverPlatform(AllDates(), Orders));
    PlacementsCountOnce(h);
    OrdersRead(RunAll(h));
  }

  function OrdersOf(): (PlatformKey, PlatformRow) -> int {
    (k: PlatformKey, row: PlatformRow) => row.tally.orders
  }

  lemma {:induction false} OnlyPlaced(handlers: map<string, Handler>, ms: seq<Message>)
    requires forall m :: m in ms && m.Envelope? && m.payload.Carries? ==> m.payload.event.OrderPlaced?
    ensures forall e :: e in FirstEvents(ms) ==> e.OrderPlaced?
  {
    if ms != [] { OnlyPlaced(handlers, ms[..|ms| - 1]); }
  }
}
