// Does replaying events in another order converge to the same totals? Exactly when
// no delivered or rejected event runs ahead of its order's placed event.
module Convergence {
  import opened Events
  import opened Sums
  import opened Aggregates
  import opened Runs

  // Two order.placed events of one order carry the same currency and instant.
  ghost predicate Consistent(h: seq<Event>) {
    forall i, j ::
      0 <= i < |h| && 0 <= j < |h| && h[i].OrderPlaced? && h[j].OrderPlaced? && h[i].orderId == h[j].orderId ==>
      ContextOf(h[i]) == ContextOf(h[j])
  }

  ghost predicate Early(h: seq<Event>, i: nat)
    requires i < |h|
  {
    && NeedsContext(h[i])
    && (exists j :: 0 <= j < |h| && Places(h[j], h[i].orderId))
    && (forall j :: 0 <= j < i ==> !Places(h[j], h[i].orderId))
  }

  // Every event that needs its order's context row, in a history that holds a
  // placed event of that order, comes after one.
  ghost predicate Causal(h: seq<Event>) {
    forall i :: 0 <= i < |h| ==> !Early(h, i)
  }

  // The value of a gauge if every handler had found whatever context rows the
  // history leaves behind: a sum that does not depend on the order of events.
  function IdealShare(known: map<string, OrderContext>, g: Gauge): Event -> int {
    (e: Event) => Share(Applied(e, Lookup(known, e)), g)
  }

  function Ideal(h: seq<Event>, g: Gauge): int {
    Sum(h, IdealShare(ContextsAfter(h), g))
  }

  lemma FoundOrEarly(h: seq<Event>, i: nat)
    requires Consistent(h) && i < |h|
    ensures !Early(h, i) ==> Lookup(ContextsAfter(h[..i]), h[i]) == Lookup(ContextsAfter(h), h[i])
    ensures Early(h, i) ==> Lookup(ContextsAfter(h[..i]), h[i]) == None && Lookup(ContextsAfter(h), h[i]).Some?
  {
    if NeedsContext(h[i]) {
      var o := h[i].orderId;
      var before := h[..i];
      ContextOrigin(before, o);
      ContextOrigin(h, o);
      assert forall j :: 0 <= j < i ==> before[j] == h[j];
      if j :| 0 <= j < i && Places(h[j], o) {
        assert Places(before[j], o);
        var k :| 0 <= k < i && Places(before[k], o) && ContextsAfter(before)[o] == ContextOf(before[k]);
        var l :| 0 <= l < |h| && Places(h[l], o) && ContextsAfter(h)[o] == ContextOf(h[l]);
        assert h[k].OrderPlaced? && h[l].OrderPlaced?;
      }
    }
  }

  lemma CausalReads(h: seq<Event>, g: Gauge)
    requires Consistent(h) && Causal(h)
    ensures Read(RunAll(h), g) == Ideal(h, g)
  {
    RunReads(h, g);
    TrailEntries(h);
    forall i | 0 <= i < |h| ensures ShareOf(g)(Trail(h)[i]) == IdealShare(ContextsAfter(h), g)(h[i]) {
      FoundOrEarly(h, i);
    }
    SumEqual(Trail(h), ShareOf(g), h, IdealShare(ContextsAfter(h), g));
  }

  // The counter that an event handled too early fails to raise.
  function LostCell(e: Event, placed: OrderContext): Cell
    requires NeedsContext(e)
  {
    if e.OrderDelivered? then PlatformCell(PlatformKey(UtcDay(placed.placedAt), e.currency), DeliveryMsCount)
    else PlatformCell(PlatformKey(UtcDay(e.occurredAt), placed.currency), Failed)
  }

  lemma MissesOnlyLose(e: Event, found: Option<OrderContext>, cell: Cell)
    requires cell.PlatformCell? && (cell.counter.DeliveryMsCount? || cell.counter.Failed?)
    ensures Share(Applied(e, None), At(cell)) <= Share(Applied(e, found), At(cell))
    ensures NeedsContext(e) && found.Some? && cell == LostCell(e, found.value) ==>
              Share(Applied(e, None), At(cell)) < Share(Applied(e, found), At(cell))
  {
  }

  lemma NoShareAboveIdeal(h: seq<Event>, k: nat, cell: Cell)
    requires Consistent(h) && k < |h| && |Trail(h)| == |h|
    requires cell.PlatformCell? && (cell.counter.DeliveryMsCount? || cell.counter.Failed?)
    ensures var known := ContextsAfter(h);
            && Share(Trail(h)[k], At(cell)) <= Share(Applied(h[k], Lookup(known, h[k])), At(cell))
            && (Early(h, k) && Lookup(known, h[k]).Some? && cell == LostCell(h[k], Lookup(known, h[k]).value) ==>
                  Share(Trail(h)[k], At(cell)) < Share(Applied(h[k], Lookup(known, h[k])), At(cell)))
  {
    TrailEntries(h);
    FoundOrEarly(h, k);
    MissesOnlyLose(h[k], Lookup(ContextsAfter(h), h[k]), cell);
  }

  lemma StrictlyBelowIdeal(h: seq<Event>, g: Gauge, i: nat)
    requires i < |h| == |Trail(h)|
    requires forall k :: 0 <= k < |h| ==> ShareOf(g)(Trail(h)[k]) <= IdealShare(ContextsAfter(h), g)(h[k])
    requires ShareOf(g)(Trail(h)[i]) < IdealShare(ContextsAfter(h), g)(h[i])
    ensures Read(RunAll(h), g) < Ideal(h, g)
  {
    RunReads(h, g);
    SumStrict(Trail(h), ShareOf(g), h, IdealShare(ContextsAfter(h), g), i);
  }

  lemma EarlyLoses(h: seq<Event>, i: nat)
    requires Consistent(h) && i < |h| && Early(h, i)
    ensures Lookup(ContextsAfter(h), h[i]).Some?
    ensures var cell := LostCell(h[i], Lookup(ContextsAfter(h), h[i]).value);
            ReadCell(RunAll(h), cell) < Ideal(h, At(cell))
  {
    FoundOrEarly(h, i);
    TrailEntries(h);
    var cell := LostCell(h[i], Lookup(ContextsAfter(h), h[i]).value);
    forall k | 0 <= k < |h|
      ensures ShareOf(At(cell))(Trail(h)[k]) <= IdealShare(ContextsAfter(h), At(cell))(h[k])
    {
      NoShareAboveIdeal(h, k, cell);
    }
    NoShareAboveIdeal(h, i, cell);
    StrictlyBelowIdeal(h, At(cell), i);
  }

  // Main result: a run ends with every counter at its order-independent value if
  // and only if no event ran ahead of its order's placed event.
  lemma ConvergesExactlyWhenCausal(h: seq<Event>)
    requires Consistent(h)
    ensures (forall cell :: ReadCell(RunAll(h), cell) == Ideal(h, At(cell))) <==> Causal(h)
  {
    if Causal(h) {
      forall cell ensures ReadCell(RunAll(h), cell) == Ideal(h, At(cell)) {
        CausalReads(h, At(cell));
      }
    } else {
      var i :| 0 <= i < |h| && Early(h, i);
      EarlyLoses(h, i);
      var cell := LostCell(h[i], Lookup(ContextsAfter(h), h[i]).value);
      assert ReadCell(RunAll(h), cell) != Ideal(h, At(cell));
    }
  }

  // ---------- Permuted histories ----------

  lemma SameMembers(h1: seq<Event>, h2: seq<Event>)
    requires multiset(h1) == multiset(h2)
    ensures forall e :: e in h1 <==> e in h2
  {
    forall e ensures e in h1 <==> e in h2 {
      assert e in multiset(h1) <==> e in h1;
      assert e in multiset(h2) <==> e in h2;
    }
  }

  lemma PermutedContexts(h1: seq<Event>, h2: seq<Event>)
    requires multiset(h1) == multiset(h2) && Consistent(h1)
    ensures Consistent(h2)
    ensures ContextsAfter(h1) == ContextsAfter(h2)
  {
    SameMembers(h1, h2);
    assert Consistent(h2) by {
      forall i, j | 0 <= i < |h2| && 0 <= j < |h2| && h2[i].OrderPlaced? && h2[j].OrderPlaced?
        && h2[i].orderId == h2[j].orderId
        ensures ContextOf(h2[i]) == ContextOf(h2[j])
      {
        assert h2[i] in h1 && h2[j] in h1;
      }
    }
    forall o
      ensures o in ContextsAfter(h1) <==> o in ContextsAfter(h2)
      ensures o in ContextsAfter(h1) ==> ContextsAfter(h1)[o] == ContextsAfter(h2)[o]
    {
      ContextOrigin(h1, o);
      ContextOrigin(h2, o);
      if i :| 0 <= i < |h1| && Places(h1[i], o) {
        assert h1[i] in h2;
        var k :| 0 <= k < |h2| && h2[k] == h1[i];
        assert Places(h2[k], o);
        var l :| 0 <= l < |h2| && Places(h2[l], o) && ContextsAfter(h2)[o] == ContextOf(h2[l]);
        assert h2[l] in h1;
      }
      if i :| 0 <= i < |h2| && Places(h2[i], o) {
        assert h2[i] in h1;
        var k :| 0 <= k < |h1| && h1[k] == h2[i];
        assert Places(h1[k], o);
      }
    }
  }

  lemma IdealIsOrderFree(h1: seq<Event>, h2: seq<Event>, g: Gauge)
    requires multiset(h1) == multiset(h2) && Consistent(h1)
    ensures Ideal(h1, g) == Ideal(h2, g)
  {
    PermutedContexts(h1, h2);
    SumPermutation(h1, h2, IdealShare(ContextsAfter(h1), g));
  }

  // Confluence: two causal orders of the same events agree on every counter of
  // all four collections, and on every context row.
  lemma Confluence(h1: seq<Event>, h2: seq<Event>)
    requires multiset(h1) == multiset(h2) && Consistent(h1)
    requires Causal(h1) && Causal(h2)
    ensures forall cell :: ReadCell(RunAll(h1), cell) == ReadCell(RunAll(h2), cell)
    ensures RunAll(h1).contexts == RunAll(h2).contexts
  {
    PermutedContexts(h1, h2);
    RunContexts(h1);
    RunContexts(h2);
    forall cell ensures ReadCell(RunAll(h1), cell) == ReadCell(RunAll(h2), cell) {
      CausalReads(h1, At(cell));
      CausalReads(h2, At(cell));
      IdealIsOrderFree(h1, h2, At(cell));
    }
  }

  // Given one causal order, another order of the same events agrees with it on
  // every counter if and only if it is causal too.
  lemma ReplayConvergesExactly(h1: seq<Event>, h2: seq<Event>)
    requires multiset(h1) == multiset(h2) && Consistent(h1) && Causal(h1)
    ensures (forall cell :: ReadCell(RunAll(h1), cell) == ReadCell(RunAll(h2), cell)) <==> Causal(h2)
  {
    PermutedContexts(h1, h2);
    ConvergesExactlyWhenCausal(h2);
    forall cell
      ensures ReadCell(RunAll(h1), cell) == Ideal(h2, At(cell))
    {
      CausalReads(h1, At(cell));
      IdealIsOrderFree(h1, h2, At(cell));
    }
    if forall cell :: ReadCell(RunAll(h1), cell) == ReadCell(RunAll(h2), cell) {
      forall cell ensures ReadCell(RunAll(h2), cell) == Ideal(h2, At(cell)) {
        assert ReadCell(RunAll(h1), cell) == ReadCell(RunAll(h2), cell);
      }
    }
    if Causal(h2) { Confluence(h1, h2); }
  }

  // The out-of-order replay that does not converge.
  lemma DeliveredBeforePlacedIsLost()
    ensures var placed := OrderPlaced("o", 1, 2, "EGP", 500, 0, []);
            var delivered := OrderDelivered("o", 1, 2, "EGP", NANOS_PER_MILLI);
            var cell := RestaurantCell(DayKey(1, 0), DeliveryMsCount);
            && multiset([placed, delivered]) == multiset([delivered, placed])
            && ReadCell(RunAll([placed, delivered]), cell) == 1
            && ReadCell(RunAll([delivered, placed]), cell) == 0
  {
    var placed := OrderPlaced("o", 1, 2, "EGP", 500, 0, []);
    var delivered := OrderDelivered("o", 1, 2, "EGP", NANOS_PER_MILLI);
    var g := At(RestaurantCell(DayKey(1, 0), DeliveryMsCount));
    TwoEvents(placed, delivered, g);
    TwoEvents(delivered, placed, g);
    var none: map<string, OrderContext> := map[];
    assert Lookup(none, delivered) == None;
    assert Lookup(none["o" := ContextOf(placed)], delivered) == Some(ContextOf(placed));
  }

  lemma TwoEvents(a: Event, b: Event, g: Gauge)
    ensures Read(RunAll([a, b]), g) ==
            Share(Applied(a, Lookup(map[], a)), g)
            + Share(Applied(b, Lookup(if a.OrderPlaced? then map[a.orderId := ContextOf(a)] else map[], b)), g)
  {
    var h := [a, b];
    RunReads(h, g);
    assert h[..1] == [a] && h[..1][..0] == [];
    assert [a][..0] == [];
    assert Trail([a]) == [Applied(a, Lookup(map[], a))];
    var t := Trail(h);
    assert t == Trail([a]) + [Applied(b, Lookup(ContextsAfter([a]), b))];
    SumAppend(Trail([a]), Applied(b, Lookup(ContextsAfter([a]), b)), ShareOf(g));
    SumAppend([], Applied(a, Lookup(map[], a)), ShareOf(g));
    assert [] + Trail([a]) == Trail([a]);
  }
}
