// The permission cache under concurrency: a request reads the map, looks at the
// clock, fetches and stores in separate steps, and any number of requests and
// invalidations interleave. The source of truth changes as it likes.
module CacheRaces {
  import opened Events
  import opened Folds
  import opened RbacCache

  type Source = (Instant, Role) -> seq<string>

  // Where a list came from: the step and instant its fetch started at, the instant
  // the source was asked, and the step it was stored at.
  datatype Origin = Origin(startStep: nat, startedAt: Instant, sampledAt: Instant, storeStep: nat)

  datatype Stamped = Stamped(entry: Entry, origin: Origin)

  datatype Request =
    | Checking(role: Role, readStep: nat, cached: Option<Stamped>)
    | Fetching(role: Role, readStep: nat, startStep: nat, startedAt: Instant)
    | Fetched(role: Role, readStep: nat, startStep: nat, startedAt: Instant, permissions: seq<string>,
      sampledAt: Instant)
    | Over

  datatype Served = Served(role: Role, permissions: seq<string>, at: Instant, hit: bool, readStep: nat, origin: Origin)

  // steps, served and slowest only record what happened.
  datatype State = State(
    now: Instant,
    entries: map<Role, Stamped>,
    requests: seq<Request>,
    steps: nat,
    served: seq<Served>,
    slowest: int)

  datatype Action =
    | Tick(d: nat)
    | Read(role: Role)
    | Check(i: nat)
    | Sample(i: nat)
    | Fail(i: nat)
    | Keep(i: nat)
    | Invalidate(role: Role)

  function Initial(now: Instant): State {
    State(now, map[], [], 0, [], 0)
  }

  function Move(s: State, i: nat, r: Request): State
    requires i < |s.requests|
  {
    s.(requests := s.requests[i := r])
  }

  function Reading(s: State, role: Role): State {
    s.(requests := s.requests + [Checking(role, s.steps, if role in s.entries then Some(s.entries[role]) else None)])
  }

  function CheckingClock(s: State, ttl: int, i: nat): State
    requires i < |s.requests|
  {
    match s.requests[i]
    case Checking(role, readStep, cached) =>
      if cached.Some? && Live(cached.value.entry, ttl, s.now) then
        var st := cached.value;
        Move(s, i, Over).(served := s.served + [Served(role, st.entry.permissions, s.now, true, readStep, st.origin)])
      else Move(s, i, Fetching(role, readStep, s.steps, s.now))
    case _ => s
  }

  function Sampling(s: State, source: Source, i: nat): State
    requires i < |s.requests|
  {
    match s.requests[i]
    case Fetching(role, readStep, startStep, startedAt) =>
      Move(s, i, Fetched(role, readStep, startStep, startedAt, source(s.now, role), s.now))
    case _ => s
  }

  function Failing(s: State, i: nat): State
    requires i < |s.requests|
  {
    match s.requests[i]
    case Fetching(_, _, _, _) => Move(s, i, Over)
    case Fetched(_, _, _, _, _, _) => Move(s, i, Over)
    case _ => s
  }

  function Max(a: int, b: int): int {
    if a < b then b else a
  }

  function Keeping(s: State, i: nat): State
    requires i < |s.requests|
  {
    match s.requests[i]
    case Fetched(role, readStep, startStep, startedAt, permissions, sampledAt) =>
      var origin := Origin(startStep, startedAt, sampledAt, s.steps);
      Move(s, i, Over).(
        entries := s.entries[role := Stamped(Entry(permissions, s.now), origin)],
        served := s.served + [Served(role, permissions, s.now, false, readStep, origin)],
        slowest := Max(s.slowest, s.now - startedAt))
    case _ => s
  }

  function Dropping(s: State, role: Role): State {
    s.(entries := map r | r in s.entries && !Drops(role, r) :: s.entries[r])
  }

  function Effect(s: State, source: Source, ttl: int, a: Action): State {
    match a
    case Tick(d) => s.(now := s.now + d)
    case Read(role) => Reading(s, role)
    case Check(i) => if i < |s.requests| then CheckingClock(s, ttl, i) else s
    case Sample(i) => if i < |s.requests| then Sampling(s, source, i) else s
    case Fail(i) => if i < |s.requests| then Failing(s, i) else s
    case Keep(i) => if i < |s.requests| then Keeping(s, i) else s
    case Invalidate(role) => Dropping(s, role)
  }

  function Step(s: State, source: Source, ttl: int, a: Action): State {
    Effect(s, source, ttl, a).(steps := s.steps + 1)
  }

  function Steps(source: Source, ttl: int): (State, Action) -> State {
    (s: State, a: Action) => Step(s, source, ttl, a)
  }

  function Exec(s: State, source: Source, ttl: int, run: seq<Action>): State {
    Fold(s, run, Steps(source, ttl))
  }

  // ---------- What holds in every reachable state ----------

  // The list is what the source held when it was asked, within the fetch, and the
  // fetch took no longer to be stored than the slowest so far.
  ghost predicate Genuine(s: State, source: Source, role: Role, st: Stamped) {
    && st.origin.startedAt <= st.origin.sampledAt <= st.entry.cachedAt <= s.now
    && st.entry.permissions == source(st.origin.sampledAt, role)
    && st.entry.cachedAt - st.origin.startedAt <= s.slowest
    && st.origin.startStep < st.origin.storeStep < s.steps
  }

  ghost predicate RequestGenuine(s: State, source: Source, r: Request) {
    match r
    case Checking(role, readStep, cached) =>
      && readStep < s.steps
      && (cached.Some? ==> Genuine(s, source, role, cached.value) && cached.value.origin.storeStep < readStep)
    case Fetching(_, readStep, startStep, startedAt) => readStep < startStep < s.steps && startedAt <= s.now
    case Fetched(role, readStep, startStep, startedAt, permissions, sampledAt) =>
      readStep < startStep < s.steps && startedAt <= sampledAt <= s.now && permissions == source(sampledAt, role)
    case Over => true
  }

  // What a response was worth when it was given.
  ghost predicate AnswerGenuine(s: State, source: Source, ttl: int, r: Served) {
    && r.origin.startedAt <= r.origin.sampledAt <= r.at <= s.now
    && r.permissions == source(r.origin.sampledAt, r.role)
    && (r.hit ==> r.at - ttl - s.slowest < r.origin.sampledAt && r.origin.storeStep < r.readStep)
    && (!r.hit ==> r.readStep < r.origin.startStep)
    && r.readStep < s.steps && r.origin.startStep < r.origin.storeStep
  }

  ghost predicate Valid(s: State, source: Source, ttl: int) {
    && (forall role :: role in s.entries ==> Genuine(s, source, role, s.entries[role]))
    && (forall i :: 0 <= i < |s.requests| ==> RequestGenuine(s, source, s.requests[i]))
    && (forall k :: 0 <= k < |s.served| ==> AnswerGenuine(s, source, ttl, s.served[k]))
  }

  lemma StillGenuine(s: State, s': State, source: Source, ttl: int)
    requires Valid(s, source, ttl) && s.now <= s'.now && s.steps <= s'.steps && s.slowest <= s'.slowest
    ensures forall role :: role in s.entries ==> Genuine(s', source, role, s.entries[role])
    ensures forall i :: 0 <= i < |s.requests| ==> RequestGenuine(s', source, s.requests[i])
    ensures forall k :: 0 <= k < |s.served| ==> AnswerGenuine(s', source, ttl, s.served[k])
  {
  }

  lemma StepKeepsValid(s: State, source: Source, ttl: int, a: Action)
    requires Valid(s, source, ttl)
    ensures Valid(Step(s, source, ttl, a), source, ttl)
  {
    StillGenuine(s, Step(s, source, ttl, a), source, ttl);
  }

  lemma {:induction false} RunKeepsValid(now: Instant, source: Source, ttl: int, run: seq<Action>)
    ensures Valid(Exec(Initial(now), source, ttl, run), source, ttl)
  {
    if run != [] {
      var n := |run| - 1;
      RunKeepsValid(now, source, ttl, run[..n]);
      StepKeepsValid(Exec(Initial(now), source, ttl, run[..n]), source, ttl, run[n]);
    }
  }

  // Bounded staleness: if no fetch took longer than D from its start to its store,
  // every hit at t answers with a list the source held at some instant later than
  // t - ttl - D, and every other answer with one it held during the request.
  lemma StalenessIsBounded(now: Instant, source: Source, ttl: int, run: seq<Action>, slowest: int, k: nat)
    requires var s := Exec(Initial(now), source, ttl, run); k < |s.served| && s.slowest <= slowest
    ensures var r := Exec(Initial(now), source, ttl, run).served[k];
            exists t0 :: && r.permissions == source(t0, r.role)
                         && (if r.hit then r.at - ttl - slowest < t0 else r.origin.startedAt <= t0) && t0 <= r.at
  {
    RunKeepsValid(now, source, ttl, run);
    var r := Exec(Initial(now), source, ttl, run).served[k];
    assert r.permissions == source(r.origin.sampledAt, r.role);
  }

  // ---------- Short runs ----------

  lemma ExecMore(s: State, source: Source, ttl: int, run: seq<Action>, a: Action)
    ensures Exec(s, source, ttl, run + [a]) == Step(Exec(s, source, ttl, run), source, ttl, a)
  {
    assert (run + [a])[..|run|] == run;
  }

  lemma ExecConcat(s: State, source: Source, ttl: int, a: seq<Action>, b: seq<Action>)
    ensures Exec(s, source, ttl, a + b) == Exec(Exec(s, source, ttl, a), source, ttl, b)
  {
    FoldConcat(s, a, b, Steps(source, ttl));
  }

  lemma Two(s: State, source: Source, ttl: int, a: Action, b: Action)
    ensures Exec(s, source, ttl, [a, b]) == Step(Step(s, source, ttl, a), source, ttl, b)
  {
    ExecMore(s, source, ttl, [], a);
    ExecMore(s, source, ttl, [a], b);
    assert [] + [a] == [a] && [a] + [b] == [a, b];
  }

  // A new request, up to its answer from the map or the start of its fetch.
  function Ask(n: nat, role: Role): seq<Action> {
    [Read(role), Check(n)]
  }

  ghost predicate Finds(s: State, ttl: int, role: Role) {
    role in s.entries && Live(s.entries[role].entry, ttl, s.now)
  }

  function AfterHit(s: State, role: Role): State
    requires role in s.entries
  {
    s.(requests := s.requests + [Over], steps := s.steps + 2,
       served := s.served + [Served(role, s.entries[role].entry.permissions, s.now, true, s.steps,
           s.entries[role].origin)])
  }

  function AfterMiss(s: State, role: Role): State {
    s.(requests := s.requests + [Fetching(role, s.steps, s.steps + 1, s.now)], steps := s.steps + 2)
  }

  lemma Asks(s: State, source: Source, ttl: int, role: Role)
    ensures Exec(s, source, ttl, Ask(|s.requests|, role)) ==
            if Finds(s, ttl, role) then AfterHit(s, role) else AfterMiss(s, role)
  {
    var n := |s.requests|;
    Two(s, source, ttl, Read(role), Check(n));
    var t := Step(s, source, ttl, Read(role));
    assert t.requests[n].Checking?;
    assert forall x: Request :: t.requests[n := x] == s.requests + [x];
  }

  // A fetch that ran from now, asked the source after a wait and is stored at once
  // or later.
  function Load(i: nat, wait: nat, more: nat): seq<Action> {
    [Tick(wait), Sample(i)] + [Tick(more), Keep(i)]
  }

  function AfterLoad(s: State, source: Source, i: nat, wait: nat, more: nat): State
    requires i < |s.requests| && s.requests[i].Fetching?
  {
    var r, sampledAt, now := s.requests[i], s.now + wait, s.now + wait + more;
    var list, origin := source(sampledAt, r.role), Origin(r.startStep, r.startedAt, sampledAt, s.steps + 3);
    State(now, s.entries[r.role := Stamped(Entry(list, now), origin)], s.requests[i := Over], s.steps + 4,
          s.served + [Served(r.role, list, now, false, r.readStep, origin)], Max(s.slowest, now - r.startedAt))
  }

  lemma Loads(s: State, source: Source, ttl: int, i: nat, wait: nat, more: nat)
    requires i < |s.requests| && s.requests[i].Fetching?
    ensures Exec(s, source, ttl, Load(i, wait, more)) == AfterLoad(s, source, i, wait, more)
  {
    Two(s, source, ttl, Tick(wait), Sample(i));
    var t := Exec(s, source, ttl, [Tick(wait), Sample(i)]);
    assert t.requests[i].Fetched?;
    Two(t, source, ttl, Tick(more), Keep(i));
    ExecConcat(s, source, ttl, [Tick(wait), Sample(i)], [Tick(more), Keep(i)]);
  }

  // ---------- The bound is tight ----------

  function OldUntil(instant: Instant): Source {
    (t: Instant, role: Role) => if t <= instant then ["old"] else ["new"]
  }

  function SlowFetch(ttl: int, d: nat): seq<Action>
    requires ttl > 0
  {
    Ask(0, "r") + Load(0, 0, d) + [Tick(ttl - 1)] + Ask(1, "r")
  }

  // No smaller bound holds: for every ttl and every D there is a run whose fetches
  // take at most D in which a hit at t answers with a list that the source has not
  // held at any instant later than t - ttl - D + 1.
  lemma StalenessIsTight(ttl: int, d: nat)
    requires ttl > 0
    ensures var s := Exec(Initial(0), OldUntil(0), ttl, SlowFetch(ttl, d));
            && s.slowest == d && |s.served| == 2 && s.served[1].hit
            && forall t0 :: s.served[1].permissions == OldUntil(0)(t0, "r") ==> t0 <= s.served[1].at - ttl - d + 1
  {
    var source, s0 := OldUntil(0), Initial(0);
    Asks(s0, source, ttl, "r");
    var s1 := AfterMiss(s0, "r");
    Loads(s1, source, ttl, 0, 0, d);
    var s2 := AfterLoad(s1, source, 0, 0, d);
    ExecConcat(s0, source, ttl, Ask(0, "r"), Load(0, 0, d));
    var s3 := Step(s2, source, ttl, Tick(ttl - 1));
    assert [Tick(ttl - 1)][..0] == [];
    ExecConcat(s0, source, ttl, Ask(0, "r") + Load(0, 0, d), [Tick(ttl - 1)]);
    Asks(s3, source, ttl, "r");
    ExecConcat(s0, source, ttl, Ask(0, "r") + Load(0, 0, d) + [Tick(ttl - 1)], Ask(1, "r"));
    assert AfterHit(s3, "r").served[1].permissions == ["old"];
    assert ["old"][0] != ["new"][0];
  }

  // ---------- An older fetch can overwrite a newer entry ----------

  function TwoFetches(): seq<Action> {
    Ask(0, "r") + [Sample(0), Tick(1)] + Ask(1, "r") + Load(1, 0, 0) + Ask(2, "r") + [Tick(0), Keep(0)] + Ask(3, "r")
  }

  lemma TwoFetchesStart(ttl: int) returns (s: State)
    requires ttl > 0
    ensures s == Exec(Initial(0), OldUntil(0), ttl, Ask(0, "r") + [Sample(0), Tick(1)] + Ask(1, "r") + Load(1, 0, 0))
    ensures s.now == 1 && |s.served| == 1 && |s.requests| == 2 && s.requests[0] == Fetched("r", 0, 1, 0, ["old"], 0)
    ensures "r" in s.entries && s.entries["r"].entry == Entry(["new"], 1)
  {
    var source, s0 := OldUntil(0), Initial(0);
    Asks(s0, source, ttl, "r");
    var s1 := AfterMiss(s0, "r");
    Two(s1, source, ttl, Sample(0), Tick(1));
    var s2 := Exec(s1, source, ttl, [Sample(0), Tick(1)]);
    ExecConcat(s0, source, ttl, Ask(0, "r"), [Sample(0), Tick(1)]);
    Asks(s2, source, ttl, "r");
    var s3 := AfterMiss(s2, "r");
    ExecConcat(s0, source, ttl, Ask(0, "r") + [Sample(0), Tick(1)], Ask(1, "r"));
    Loads(s3, source, ttl, 1, 0, 0);
    s := AfterLoad(s3, source, 1, 0, 0);
    ExecConcat(s0, source, ttl, Ask(0, "r") + [Sample(0), Tick(1)] + Ask(1, "r"), Load(1, 0, 0));
  }

  lemma TwoFetchesEnd(s: State, source: Source, ttl: int)
    requires ttl > 0 && |s.requests| == 2 && s.requests[0] == Fetched("r", 0, 1, 0, ["old"], 0)
    requires "r" in s.entries && s.entries["r"].entry == Entry(["new"], s.now)
    ensures var t := Exec(s, source, ttl, Ask(2, "r") + [Tick(0), Keep(0)] + Ask(3, "r"));
            && |t.served| == |s.served| + 3
            && t.served[|s.served|].hit && t.served[|s.served|].at == s.now
            && t.served[|s.served|].permissions == ["new"]
            && t.served[|s.served| + 2].hit && t.served[|s.served| + 2].at == s.now
            && t.served[|s.served| + 2].permissions == ["old"]
  {
    Asks(s, source, ttl, "r");
    var s1 := AfterHit(s, "r");
    Two(s1, source, ttl, Tick(0), Keep(0));
    var s2 := Exec(s1, source, ttl, [Tick(0), Keep(0)]);
    ExecConcat(s, source, ttl, Ask(2, "r"), [Tick(0), Keep(0)]);
    Asks(s2, source, ttl, "r");
    ExecConcat(s, source, ttl, Ask(2, "r") + [Tick(0), Keep(0)], Ask(3, "r"));
  }

  // Answers can go back in time: at one instant a hit gives the newer list, and a
  // later hit an older one that the source no longer holds.
  lemma OlderFetchWins(ttl: int)
    requires ttl > 0
    ensures var s := Exec(Initial(0), OldUntil(0), ttl, TwoFetches());
            && |s.served| == 4 && s.served[1].hit && s.served[3].hit && s.served[1].at == s.served[3].at == 1
            && s.served[1].permissions == ["new"] == OldUntil(0)(1, "r") && s.served[3].permissions == ["old"]
  {
    var s := TwoFetchesStart(ttl);
    TwoFetchesEnd(s, OldUntil(0), ttl);
    var first, last := Ask(0, "r") + [Sample(0), Tick(1)] + Ask(1, "r") + Load(1, 0, 0),
      Ask(2, "r") + [Tick(0), Keep(0)] + Ask(3, "r");
    assert TwoFetches() == first + last;
    ExecConcat(Initial(0), OldUntil(0), ttl, first, last);
  }

  // ---------- What an invalidation guarantees ----------

  ghost predicate InFlight(s: State, role: Role) {
    exists i :: 0 <= i < |s.requests| && FetchingFor(s.requests[i], role)
  }

  predicate FetchingFor(r: Request, role: Role) {
    (r.Fetching? || r.Fetched?) && r.role == role
  }

  // Stored after step k, and fetched from a start after it too if so required.
  predicate Since(o: Origin, k: nat, started: bool) {
    o.storeStep > k && (started ==> o.startStep > k)
  }

  // A request that found an entry of the role after step k.
  predicate ReadAfter(r: Request, role: Role, k: nat) {
    r.Checking? && r.role == role && r.readStep > k && r.cached.Some?
  }

  ghost predicate AllSince(s: State, role: Role, k: nat, started: bool) {
    && s.steps > k
    && (role in s.entries ==> Since(s.entries[role].origin, k, started))
    && (forall i :: 0 <= i < |s.requests| && ReadAfter(s.requests[i], role, k) ==>
        Since(s.requests[i].cached.value.origin, k, started))
    && (started ==> forall i :: 0 <= i < |s.requests| && FetchingFor(s.requests[i], role) ==>
        s.requests[i].startStep > k)
    && (forall j :: 0 <= j < |s.served| && s.served[j].role == role && s.served[j].readStep > k ==>
          Since(s.served[j].origin, k, started))
  }

  lemma InvalidationStarts(s: State, source: Source, ttl: int, dropped: Role, role: Role, started: bool)
    requires Valid(s, source, ttl) && Drops(dropped, role) && (started ==> !InFlight(s, role))
    ensures AllSince(Step(s, source, ttl, Invalidate(dropped)), role, s.steps, started)
  {
    forall i | 0 <= i < |s.requests| ensures s.requests[i].Checking? ==> s.requests[i].readStep < s.steps {
      assert RequestGenuine(s, source, s.requests[i]);
    }
    forall j | 0 <= j < |s.served| ensures s.served[j].readStep < s.steps {
      assert AnswerGenuine(s, source, ttl, s.served[j]);
    }
  }

  lemma KeepingKeepsSince(s: State, source: Source, ttl: int, i: nat, role: Role, k: nat, started: bool)
    requires Valid(s, source, ttl) && AllSince(s, role, k, started)
    ensures AllSince(Step(s, source, ttl, Keep(i)), role, k, started)
  {
    if i < |s.requests| { assert RequestGenuine(s, source, s.requests[i]); }
  }

  lemma CheckingKeepsSince(s: State, source: Source, ttl: int, i: nat, role: Role, k: nat, started: bool)
    requires Valid(s, source, ttl) && AllSince(s, role, k, started)
    ensures AllSince(Step(s, source, ttl, Check(i)), role, k, started)
  {
    if i < |s.requests| { assert RequestGenuine(s, source, s.requests[i]); }
  }

  lemma OthersKeepSince(s: State, source: Source, ttl: int, a: Action, role: Role, k: nat, started: bool)
    requires AllSince(s, role, k, started) && !a.Keep? && !a.Check?
    ensures AllSince(Step(s, source, ttl, a), role, k, started)
  {
  }

  lemma StepKeepsSince(s: State, source: Source, ttl: int, a: Action, role: Role, k: nat, started: bool)
    requires Valid(s, source, ttl) && AllSince(s, role, k, started)
    ensures AllSince(Step(s, source, ttl, a), role, k, started)
  {
    match a
    case Keep(i) => KeepingKeepsSince(s, source, ttl, i, role, k, started);
    case Check(i) => CheckingKeepsSince(s, source, ttl, i, role, k, started);
    case _ => OthersKeepSince(s, source, ttl, a, role, k, started);
  }

  lemma {:induction false} StepsCounted(s: State, source: Source, ttl: int, run: seq<Action>)
    ensures Exec(s, source, ttl, run).steps == s.steps + |run|
  {
    if run != [] { StepsCounted(s, source, ttl, run[..|run| - 1]); }
  }

  lemma {:induction false} RunKeepsSince(now: Instant, source: Source, ttl: int, pre: seq<Action>, dropped: Role,
                                         post: seq<Action>,
                                         role: Role, started: bool)
    requires Drops(dropped, role) && (started ==> !InFlight(Exec(Initial(now), source, ttl, pre), role))
    ensures AllSince(Exec(Initial(now), source, ttl, pre + [Invalidate(dropped)] + post), role, |pre|, started)
    decreases |post|
  {
    var run := pre + [Invalidate(dropped)] + post;
    var n := |run| - 1;
    RunKeepsValid(now, source, ttl, run[..n]);
    if post == [] {
      assert run[..n] == pre;
      StepsCounted(Initial(now), source, ttl, pre);
      InvalidationStarts(Exec(Initial(now), source, ttl, pre), source, ttl, dropped, role, started);
    } else {
      assert run[..n] == pre + [Invalidate(dropped)] + post[..|post| - 1];
      RunKeepsSince(now, source, ttl, pre, dropped, post[..|post| - 1], role, started);
      StepKeepsSince(Exec(Initial(now), source, ttl, run[..n]), source, ttl, run[n], role, |pre|, started);
    }
  }

  // A request that reads the map after an invalidation of its role is answered
  // from a fetch stored after it.
  lemma StoredAfterInvalidate(now: Instant, source: Source, ttl: int, pre: seq<Action>, dropped: Role,
                              post: seq<Action>, k: nat)
    requires var s := Exec(Initial(now), source, ttl, pre + [Invalidate(dropped)] + post);
             k < |s.served| && Drops(dropped, s.served[k].role) && s.served[k].readStep > |pre|
    ensures Exec(Initial(now), source, ttl, pre + [Invalidate(dropped)] + post).served[k].origin.storeStep > |pre|
  {
    var s := Exec(Initial(now), source, ttl, pre + [Invalidate(dropped)] + post);
    RunKeepsSince(now, source, ttl, pre, dropped, post, s.served[k].role, false);
  }

  // Every later request of the role is answered from a fetch started after the
  // invalidation.
  ghost predicate FreshFrom(now: Instant, source: Source, ttl: int, pre: seq<Action>, dropped: Role, role: Role) {
    forall post, k {:trigger Exec(Initial(now), source, ttl, pre + [Invalidate(dropped)] + post).served[k]} ::
      var s := Exec(Initial(now), source, ttl, pre + [Invalidate(dropped)] + post);
      0 <= k < |s.served| && s.served[k].role == role && s.served[k].readStep > |pre| ==>
        s.served[k].origin.startStep > |pre|
  }

  function LateStore(i: nat, n: nat, role: Role): seq<Action> {
    [Sample(i), Keep(i)] + Ask(n, role)
  }

  lemma LateStoreServes(s: State, source: Source, ttl: int, i: nat, role: Role)
    requires ttl > 0 && i < |s.requests| && FetchingFor(s.requests[i], role)
    ensures var t := Exec(s, source, ttl, LateStore(i, |s.requests|, role));
            && |t.served| > 0 && t.served[|t.served| - 1].role == role
            && t.served[|t.served| - 1].readStep == s.steps + 2
            && t.served[|t.served| - 1].origin.startStep == s.requests[i].startStep
  {
    Two(s, source, ttl, Sample(i), Keep(i));
    var t := Exec(s, source, ttl, [Sample(i), Keep(i)]);
    assert Step(s, source, ttl, Sample(i)).requests[i].Fetched?;
    Asks(t, source, ttl, role);
    ExecConcat(s, source, ttl, [Sample(i), Keep(i)], Ask(|s.requests|, role));
  }

  // The run that stores a fetch in flight at the invalidation after it.
  lemma LateRun(s: State, source: Source, ttl: int, dropped: Role, i: nat, role: Role)
    requires ttl > 0 && i < |s.requests| && FetchingFor(s.requests[i], role)
    ensures var t := Exec(Step(s, source, ttl, Invalidate(dropped)), source, ttl, LateStore(i, |s.requests|, role));
            && |t.served| > 0 && t.served[|t.served| - 1].role == role
            && t.served[|t.served| - 1].readStep == s.steps + 3
            && t.served[|t.served| - 1].origin.startStep == s.requests[i].startStep
  {
    LateStoreServes(Step(s, source, ttl, Invalidate(dropped)), source, ttl, i, role);
  }

  lemma LateServed(now: Instant, source: Source, ttl: int, pre: seq<Action>, dropped: Role, i: nat, role: Role,
                   post: seq<Action>)
    requires var s := Exec(Initial(now), source, ttl, pre);
             i < |s.requests| && FetchingFor(s.requests[i], role) && post == LateStore(i, |s.requests|, role)
    requires ttl > 0
    ensures var s, u := Exec(Initial(now), source, ttl, pre),
            Exec(Initial(now), source, ttl, pre + [Invalidate(dropped)] + post);
            && |u.served| > 0 && u.served[|u.served| - 1].role == role
            && u.served[|u.served| - 1].readStep == s.steps + 3
            && u.served[|u.served| - 1].origin.startStep == s.requests[i].startStep
  {
    ExecMore(Initial(now), source, ttl, pre, Invalidate(dropped));
    ExecConcat(Initial(now), source, ttl, pre + [Invalidate(dropped)], post);
    LateRun(Exec(Initial(now), source, ttl, pre), source, ttl, dropped, i, role);
  }

  lemma StartedBefore(now: Instant, source: Source, ttl: int, pre: seq<Action>, i: nat, role: Role)
    requires var s := Exec(Initial(now), source, ttl, pre); i < |s.requests| && FetchingFor(s.requests[i], role)
    ensures Exec(Initial(now), source, ttl, pre).requests[i].startStep < |pre|
            == Exec(Initial(now), source, ttl, pre).steps
  {
    RunKeepsValid(now, source, ttl, pre);
    StepsCounted(Initial(now), source, ttl, pre);
    assert RequestGenuine(Exec(Initial(now), source, ttl, pre), source,
           Exec(Initial(now), source, ttl, pre).requests[i]);
  }

  lemma InFlightIsServedLate(now: Instant, source: Source, ttl: int, pre: seq<Action>, dropped: Role, role: Role)
    requires ttl > 0 && InFlight(Exec(Initial(now), source, ttl, pre), role)
    ensures !FreshFrom(now, source, ttl, pre, dropped, role)
  {
    var s := Exec(Initial(now), source, ttl, pre);
    var i :| 0 <= i < |s.requests| && FetchingFor(s.requests[i], role);
    StartedBefore(now, source, ttl, pre, i, role);
    var post := LateStore(i, |s.requests|, role);
    LateServed(now, source, ttl, pre, dropped, i, role, post);
    var u := Exec(Initial(now), source, ttl, pre + [Invalidate(dropped)] + post);
    assert u.served[|u.served| - 1].origin.startStep < |pre|;
  }

  // Main result: later requests see nothing older than the invalidation if and only
  // if no fetch for the role was in flight when it happened.
  lemma FreshExactlyWhenNoneInFlight(now: Instant, source: Source, ttl: int, pre: seq<Action>, dropped: Role,
                                     role: Role)
    requires ttl > 0 && Drops(dropped, role)
    ensures FreshFrom(now, source, ttl, pre, dropped, role) <==> !InFlight(Exec(Initial(now), source, ttl, pre), role)
  {
    if InFlight(Exec(Initial(now), source, ttl, pre), role) {
      InFlightIsServedLate(now, source, ttl, pre, dropped, role);
    } else {
      forall post, k | 0 <= k < |Exec(Initial(now), source, ttl, pre + [Invalidate(dropped)] + post).served|
        ensures var r := Exec(Initial(now), source, ttl, pre + [Invalidate(dropped)] + post).served[k];
                r.role == role && r.readStep > |pre| ==> r.origin.startStep > |pre|
      {
        RunKeepsSince(now, source, ttl, pre, dropped, post, role, true);
      }
    }
  }

  // ---------- What changes an entry ----------

  // Only storing a fetched list for the role, or an invalidation that covers it: a
  // failed fetch and an invalidation of another role leave it as it is.
  lemma EntryChanges(s: State, source: Source, ttl: int, a: Action, role: Role)
    requires var s' := Step(s, source, ttl, a);
             (role in s.entries) != (role in s'.entries) || (role in s.entries && s.entries[role] != s'.entries[role])
    ensures var s' := Step(s, source, ttl, a);
            || (a.Invalidate? && Drops(a.role, role) && role !in s'.entries)
            || (a.Keep? && a.i < |s.requests| && s.requests[a.i].Fetched? && s.requests[a.i].role == role
                && role in s'.entries && s'.entries[role].entry == Entry(s.requests[a.i].permissions, s.now))
  {
  }

  // ---------- The class is the system without interleaving ----------

  function Plain(entries: map<Role, Stamped>): map<Role, Entry> {
    map r | r in entries :: entries[r].entry
  }

  function LoneCall(n: nat, role: Role, wait: nat, more: nat): seq<Action> {
    Ask(n, role) + Load(n, wait, more)
  }

  lemma LoneLoadAfterHit(s: State, source: Source, ttl: int, i: nat, wait: nat, more: nat)
    requires i < |s.requests| && s.requests[i] == Over
    ensures var t := Exec(s, source, ttl, Load(i, wait, more)); t.served == s.served && t.entries == s.entries
  {
    Two(s, source, ttl, Tick(wait), Sample(i));
    var t := Exec(s, source, ttl, [Tick(wait), Sample(i)]);
    Two(t, source, ttl, Tick(more), Keep(i));
    ExecConcat(s, source, ttl, [Tick(wait), Sample(i)], [Tick(more), Keep(i)]);
  }

  ghost predicate OneCall(s: State, t: State, found: Option<seq<string>>, list: seq<string>, role: Role) {
    && |t.served| == |s.served| + 1
    && t.served[|s.served|].permissions == (if found.Some? then found.value else list)
    && Plain(t.entries) == if found.Some? then Plain(s.entries) else Plain(s.entries)[role := Entry(list, t.now)]
  }

  lemma PlainUpdate(entries: map<Role, Stamped>, role: Role, st: Stamped)
    ensures Plain(entries[role := st]) == Plain(entries)[role := st.entry]
  {
  }

  lemma LoneHit(s: State, source: Source, ttl: int, role: Role, wait: nat, more: nat)
    requires Finds(s, ttl, role)
    ensures var t := Exec(s, source, ttl, LoneCall(|s.requests|, role, wait, more));
            OneCall(s, t, FoundIn(Plain(s.entries), ttl, role, s.now), source(s.now + wait, role), role)
  {
    var n := |s.requests|;
    Asks(s, source, ttl, role);
    ExecConcat(s, source, ttl, Ask(n, role), Load(n, wait, more));
    LoneLoadAfterHit(AfterHit(s, role), source, ttl, n, wait, more);
  }

  lemma LoneMiss(s: State, source: Source, ttl: int, role: Role, wait: nat, more: nat)
    requires !Finds(s, ttl, role)
    ensures var t := Exec(s, source, ttl, LoneCall(|s.requests|, role, wait, more));
            OneCall(s, t, FoundIn(Plain(s.entries), ttl, role, s.now), source(s.now + wait, role), role)
            && t.now == s.now + wait + more
  {
    var n := |s.requests|;
    Asks(s, source, ttl, role);
    ExecConcat(s, source, ttl, Ask(n, role), Load(n, wait, more));
    Loads(AfterMiss(s, role), source, ttl, n, wait, more);
    var t := AfterLoad(AfterMiss(s, role), source, n, wait, more);
    PlainUpdate(s.entries, role, t.entries[role]);
  }

  // One call of GetPermissions that no other step interleaves with has the effect
  // its contract in RbacCache states, for the list the source holds when asked.
  lemma LoneCallKeepsContract(s: State, source: Source, ttl: int, role: Role, wait: nat, more: nat)
    ensures var t := Exec(s, source, ttl, LoneCall(|s.requests|, role, wait, more));
            OneCall(s, t, FoundIn(Plain(s.entries), ttl, role, s.now), source(s.now + wait, role), role)
  {
    if Finds(s, ttl, role) {
      LoneHit(s, source, ttl, role, wait, more);
    } else {
      LoneMiss(s, source, ttl, role, wait, more);
    }
  }
}
