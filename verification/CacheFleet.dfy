// Several replicas, each with its own cache, consume one queue: a message about
// changed permissions reaches one of them, and the others keep what they have.
module CacheFleet {
  import opened Events
  import opened Folds
  import opened RbacCache
  import opened CacheRaces

  type Fleet = seq<State>

  // An action of replica p; an invalidation is the one the queue hands to p. The
  // clock is everyone's, so a tick at any replica is a tick at all of them.
  datatype Deed = ByReplica(p: nat, a: Action)

  predicate Heard(d: Deed, p: nat) {
    d.a.Tick? || d.p == p
  }

  function FleetStep(f: Fleet, source: Source, ttl: int, d: Deed): Fleet {
    seq(|f|, p requires 0 <= p < |f| => if Heard(d, p) then Step(f[p], source, ttl, d.a) else f[p])
  }

  function FleetSteps(source: Source, ttl: int): (Fleet, Deed) -> Fleet {
    (f: Fleet, d: Deed) => FleetStep(f, source, ttl, d)
  }

  function FleetExec(f: Fleet, source: Source, ttl: int, run: seq<Deed>): Fleet {
    Fold(f, run, FleetSteps(source, ttl))
  }

  function Replicas(n: nat, now: Instant): Fleet {
    seq(n, p => Initial(now))
  }

  // ---------- What one replica sees of a run ----------

  function Seen(run: seq<Deed>, p: nat): seq<Action> {
    if run == [] then []
    else
      var n := |run| - 1;
      Seen(run[..n], p) + if Heard(run[n], p) then [run[n].a] else []
  }

  lemma {:induction false} ReplicaRuns(f: Fleet, source: Source, ttl: int, run: seq<Deed>, p: nat)
    requires p < |f|
    ensures |FleetExec(f, source, ttl, run)| == |f|
    ensures FleetExec(f, source, ttl, run)[p] == Exec(f[p], source, ttl, Seen(run, p))
  {
    if run != [] {
      var n := |run| - 1;
      ReplicaRuns(f, source, ttl, run[..n], p);
      if Heard(run[n], p) {
        ExecMore(f[p], source, ttl, Seen(run[..n], p), run[n].a);
      } else {
        assert Seen(run, p) == Seen(run[..n], p);
      }
    }
  }

  function AllAt(run: seq<Action>, p: nat): (deeds: seq<Deed>) {
    seq(|run|, i requires 0 <= i < |run| => ByReplica(p, run[i]))
  }

  lemma {:induction false} OnlySeen(run: seq<Action>, p: nat)
    ensures Seen(AllAt(run, p), p) == run
  {
    if run != [] {
      var n := |run| - 1;
      OnlySeen(run[..n], p);
      assert AllAt(run, p)[..n] == AllAt(run[..n], p);
      assert run == run[..n] + [run[n]];
    }
  }

  // ---------- A replica that hears nothing ----------

  // Every request that reads the map from step k on is answered from a fetch that
  // starts from step k on.
  ghost predicate AnswersFreshly(s: State, role: Role, k: nat) {
    forall j :: 0 <= j < |s.served| && s.served[j].role == role && s.served[j].readStep >= k ==>
      s.served[j].origin.startStep >= k
  }

  // No later answer of the role comes from a fetch started before step k: what is
  // older has expired.
  ghost predicate FreshSince(s: State, ttl: int, role: Role, k: nat) {
    && s.steps >= k
    && (role in s.entries && Live(s.entries[role].entry, ttl, s.now) ==> s.entries[role].origin.startStep >= k)
    && (forall i :: 0 <= i < |s.requests| ==> RequestFresh(s, ttl, s.requests[i], role, k))
    && AnswersFreshly(s, role, k)
  }

  predicate RequestFresh(s: State, ttl: int, r: Request, role: Role, k: nat) {
    && (r.Checking? && r.role == role && r.readStep >= k && r.cached.Some? && Live(r.cached.value.entry, ttl, s.now) ==>
          r.cached.value.origin.startStep >= k)
    && (FetchingFor(r, role) ==> r.startStep >= k)
  }

  lemma FreshStarts(s: State, source: Source, ttl: int, role: Role)
    requires Valid(s, source, ttl) && !InFlight(s, role) && !Finds(s, ttl, role)
    ensures FreshSince(s, ttl, role, s.steps)
  {
    forall i | 0 <= i < |s.requests| ensures RequestFresh(s, ttl, s.requests[i], role, s.steps) {
      assert RequestGenuine(s, source, s.requests[i]);
    }
    forall j | 0 <= j < |s.served| ensures s.served[j].readStep < s.steps {
      assert AnswerGenuine(s, source, ttl, s.served[j]);
    }
  }

  lemma StepKeepsFresh(s: State, source: Source, ttl: int, a: Action, role: Role, k: nat)
    requires FreshSince(s, ttl, role, k)
    ensures FreshSince(Step(s, source, ttl, a), ttl, role, k)
  {
    if (a.Check? || a.Keep? || a.Sample?) && a.i < |s.requests| {
      assert RequestFresh(s, ttl, s.requests[a.i], role, k);
    }
  }

  lemma {:induction false} RunKeepsFresh(s: State, source: Source, ttl: int, run: seq<Action>, role: Role, k: nat)
    requires FreshSince(s, ttl, role, k)
    ensures FreshSince(Exec(s, source, ttl, run), ttl, role, k)
  {
    if run != [] {
      var n := |run| - 1;
      RunKeepsFresh(s, source, ttl, run[..n], role, k);
      StepKeepsFresh(Exec(s, source, ttl, run[..n]), source, ttl, run[n], role, k);
    }
  }

  ghost predicate FreshHence(s: State, source: Source, ttl: int, role: Role) {
    forall run :: AnswersFreshly(Exec(s, source, ttl, run), role, s.steps)
  }

  lemma LiveEntryServes(s: State, source: Source, ttl: int, role: Role)
    requires Valid(s, source, ttl) && Finds(s, ttl, role)
    ensures !FreshHence(s, source, ttl, role)
  {
    Asks(s, source, ttl, role);
    assert Genuine(s, source, role, s.entries[role]);
    assert Exec(s, source, ttl, Ask(|s.requests|, role)).served[|s.served|].origin == s.entries[role].origin;
  }

  lemma LateFetchServes(s: State, source: Source, ttl: int, i: nat, role: Role)
    requires Valid(s, source, ttl) && ttl > 0 && i < |s.requests| && FetchingFor(s.requests[i], role)
    ensures !FreshHence(s, source, ttl, role)
  {
    assert RequestGenuine(s, source, s.requests[i]);
    LateStoreServes(s, source, ttl, i, role);
    var t := Exec(s, source, ttl, LateStore(i, |s.requests|, role));
    assert t.served[|t.served| - 1].origin.startStep < s.steps;
  }

  // From any reachable state on, answers are fresh if and only if neither a fetch
  // for the role is in flight nor a live entry for it is held.
  lemma FreshExactlyWhenNothingHeld(s: State, source: Source, ttl: int, role: Role)
    requires Valid(s, source, ttl) && ttl > 0
    ensures FreshHence(s, source, ttl, role) <==> !InFlight(s, role) && !Finds(s, ttl, role)
  {
    if Finds(s, ttl, role) {
      LiveEntryServes(s, source, ttl, role);
    } else if InFlight(s, role) {
      var i :| 0 <= i < |s.requests| && FetchingFor(s.requests[i], role);
      LateFetchServes(s, source, ttl, i, role);
    } else {
      FreshStarts(s, source, ttl, role);
      forall run ensures AnswersFreshly(Exec(s, source, ttl, run), role, s.steps) {
        RunKeepsFresh(s, source, ttl, run, role, s.steps);
      }
    }
  }

  // ---------- The whole fleet ----------

  // Whatever all the replicas then do, every later answer of replica p for the
  // role comes from a fetch that p starts later.
  ghost predicate FreshAt(f: Fleet, source: Source, ttl: int, role: Role, p: nat)
    requires p < |f|
  {
    forall post :: AnswersFreshlyAt(FleetExec(f, source, ttl, post), role, f[p].steps, p)
  }

  ghost predicate AnswersFreshlyAt(f: Fleet, role: Role, k: nat, p: nat) {
    p < |f| && AnswersFreshly(f[p], role, k)
  }

  lemma FreshAtIsLocal(f: Fleet, source: Source, ttl: int, role: Role, p: nat)
    requires p < |f|
    ensures FreshAt(f, source, ttl, role, p) <==> FreshHence(f[p], source, ttl, role)
  {
    if FreshHence(f[p], source, ttl, role) {
      forall post ensures AnswersFreshlyAt(FleetExec(f, source, ttl, post), role, f[p].steps, p) {
        ReplicaRuns(f, source, ttl, post, p);
      }
    }
    if FreshAt(f, source, ttl, role, p) {
      forall run ensures AnswersFreshly(Exec(f[p], source, ttl, run), role, f[p].steps) {
        ReplicaRuns(f, source, ttl, AllAt(run, p), p);
        OnlySeen(run, p);
        assert AnswersFreshlyAt(FleetExec(f, source, ttl, AllAt(run, p)), role, f[p].steps, p);
      }
    }
  }

  lemma InvalidationClears(s: State, source: Source, ttl: int, dropped: Role, role: Role)
    requires Drops(dropped, role)
    ensures var t := Step(s, source, ttl, Invalidate(dropped));
            !Finds(t, ttl, role) && (InFlight(t, role) <==> InFlight(s, role))
  {
  }

  lemma ReplicaIsValid(n: nat, now: Instant, source: Source, ttl: int, run: seq<Deed>, p: nat)
    requires p < n
    ensures |FleetExec(Replicas(n, now), source, ttl, run)| == n
    ensures Valid(FleetExec(Replicas(n, now), source, ttl, run)[p], source, ttl)
  {
    ReplicaRuns(Replicas(n, now), source, ttl, run, p);
    RunKeepsValid(now, source, ttl, Seen(run, p));
  }

  // Main result: in every reachable state of the fleet, after the queue hands an
  // invalidation to replica q, replica p answers freshly if and only if it has no
  // fetch for the role in flight and, unless it is q, holds no live entry for it.
  lemma OneReplicaHears(n: nat, now: Instant, source: Source, ttl: int, pre: seq<Deed>, q: nat, dropped: Role,
                        role: Role, p: nat)
    requires ttl > 0 && q < n && p < n && Drops(dropped, role)
    ensures var f, t := FleetExec(Replicas(n, now), source, ttl, pre),
            FleetExec(Replicas(n, now), source, ttl, pre + [ByReplica(q, Invalidate(dropped))]);
            && |f| == |t| == n
            && (FreshAt(t, source, ttl, role, p) <==> !InFlight(f[p], role) && (p == q || !Finds(f[p], ttl, role)))
  {
    var f0, d := Replicas(n, now), ByReplica(q, Invalidate(dropped));
    var f, t := FleetExec(f0, source, ttl, pre), FleetExec(f0, source, ttl, pre + [d]);
    ReplicaIsValid(n, now, source, ttl, pre, p);
    ReplicaIsValid(n, now, source, ttl, pre + [d], p);
    FoldNext(f0, pre, d, FleetSteps(source, ttl));
    assert t == FleetStep(f, source, ttl, d);
    InvalidationClears(f[p], source, ttl, dropped, role);
    FreshAtIsLocal(t, source, ttl, role, p);
    FreshExactlyWhenNothingHeld(t[p], source, ttl, role);
  }
}
