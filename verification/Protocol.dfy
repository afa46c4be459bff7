// The consumer protocol as a transition system: any number of workers, on any
// number of replicas, share the event_ids rows, the day collections and the
// broker's queues. One action is one atomic effect: a broker operation, one store
// operation with its fate, or a crash. A disabled action changes nothing, so a run
// is any sequence of actions.
module Protocol {
  import opened Events
  import opened Aggregates

  type EventId = string

  // What dispatch makes of an envelope: no handler for its type, a payload the
  // handler cannot decode, or an event for the service.
  datatype Payload = Unregistered | Undecodable | Carries(event: Event)

  datatype Message = Malformed | Envelope(id: EventId, payload: Payload)

  datatype Worker =
    | Idle
    | Got(msg: Message)
    | Marked(msg: Message)
    | Handling(msg: Message, event: Event, looked: bool, found: Option<OrderContext>,
               at: nat, left: set<nat>, spoilt: bool, landed: seq<Write>)
    | Unmarking(msg: Message)
    | Acking(msg: Message)
    | Nacking(msg: Message, requeue: bool)

  // A finished handler run: the writes that landed, and whether it succeeded.
  datatype Attempt = Attempt(id: EventId, event: Event, found: Option<OrderContext>, landed: seq<Write>, ok: bool)

  // The last eight fields only record what happened; no action reads them.
  datatype State = State(
    queue: multiset<Message>,
    dlq: multiset<Message>,
    hasDlx: bool,
    rows: set<EventId>,
    store: Store,
    workers: seq<Worker>,
    attempts: seq<Attempt>,
    done: set<EventId>,
    skipped: set<EventId>,
    stuck: set<EventId>,
    published: set<Message>,
    dropped: multiset<Message>,
    delivered: nat,
    settled: nat,
    crashed: nat)

  datatype Action =
    | Publish(m: Message)
    | Deliver(w: nat, m: Message)
    | Mark(w: nat, fate: Fate)
    | Dispatch(w: nat)
    | Land(w: nat, i: nat, fate: Fate)
    | Look(w: nat, answered: bool)
    | Unmark(w: nat, fate: Fate)
    | Settle(w: nat)
    | Crash(w: nat)
    | Replay(m: Message)

  function Initial(n: nat, hasDlx: bool): State {
    State(multiset{}, multiset{}, hasDlx, {}, EMPTY, seq(n, _ => Idle), [], {}, {}, {}, {}, multiset{}, 0, 0, 0)
  }

  function Below(n: nat): (r: set<nat>)
    ensures forall i: nat :: i in r <==> i < n
  {
    if n == 0 then {} else Below(n - 1) + {n - 1}
  }

  function Indices(batch: seq<Write>): set<nat> {
    Below(|batch|)
  }

  predicate SameShape(s: State, s': State) {
    |s'.workers| == |s.workers| && s'.hasDlx == s.hasDlx
  }

  function SetWorker(s: State, w: nat, to: Worker): (s': State)
    requires w < |s.workers|
    ensures SameShape(s, s')
  {
    s.(workers := s.workers[w := to])
  }

  function Publishing(s: State, m: Message): (s': State)
    ensures SameShape(s, s')
  {
    s.(queue := s.queue + multiset{m}, published := s.published + {m})
  }

  function Delivering(s: State, w: nat, m: Message): (s': State)
    requires w < |s.workers|
    ensures SameShape(s, s')
  {
    if s.workers[w].Idle? && m in s.queue then
      SetWorker(s, w, Got(m)).(queue := s.queue - multiset{m}, delivered := s.delivered + 1)
    else s
  }

  // Parse the envelope, then insert its event_ids row: a malformed message is
  // dead-lettered, a failed insert requeued, a duplicate acknowledged unseen.
  function Marking(s: State, w: nat, fate: Fate): (s': State)
    requires w < |s.workers|
    ensures SameShape(s, s')
  {
    match s.workers[w]
    case Got(Malformed) => SetWorker(s, w, Nacking(Malformed, false))
    case Got(Envelope(id, payload)) =>
      var m := Envelope(id, payload);
      if id in s.rows then
        SetWorker(s, w, if fate.Done? then Acking(m) else Nacking(m, true))
      else
        (match fate
         case Done => SetWorker(s, w, Marked(m)).(rows := s.rows + {id})
         case Lost => SetWorker(s, w, Nacking(m, true))
         case Torn => SetWorker(s, w, Nacking(m, true)).(rows := s.rows + {id}, stuck := s.stuck + {id}))
    case _ => s
  }

  function Start(m: Message, e: Event): Worker {
    var plan := Plan(e, None);
    Handling(m, e, !NeedsContext(e), None, 0, if plan == [] then {} else Indices(plan[0]), false, [])
  }

  function Dispatching(s: State, w: nat): (s': State)
    requires w < |s.workers|
    ensures SameShape(s, s')
  {
    match s.workers[w]
    case Marked(Envelope(id, Unregistered)) =>
      SetWorker(s, w, Acking(Envelope(id, Unregistered))).(skipped := s.skipped + {id})
    case Marked(Envelope(id, Undecodable)) => SetWorker(s, w, Unmarking(Envelope(id, Undecodable)))
    case Marked(Envelope(id, Carries(e))) => SetWorker(s, w, Start(Envelope(id, Carries(e)), e))
    case _ => s
  }

  // The handler returns: nil, and the message is acknowledged; or an error, and
  // its event_ids row is to be removed.
  function Returning(s: State, w: nat, ok: bool): (s': State)
    requires w < |s.workers| && s.workers[w].Handling? && s.workers[w].msg.Envelope?
    ensures SameShape(s, s')
  {
    var h := s.workers[w];
    var id := h.msg.id;
    SetWorker(s, w, if ok then Acking(h.msg) else Unmarking(h.msg))
    .(attempts := s.attempts + [Attempt(id, h.event, h.found, h.landed, ok)],
      done := if ok then s.done + {id} else s.done)
  }

  // Go on after a call that succeeded: the next call, the context lookup, or the
  // end of the handler.
  function Advancing(s: State, w: nat): (s': State)
    requires w < |s.workers| && s.workers[w].Handling? && s.workers[w].msg.Envelope?
    ensures SameShape(s, s')
  {
    var h := s.workers[w];
    var plan := Plan(h.event, h.found);
    if h.at < |plan| then SetWorker(s, w, h.(left := Indices(plan[h.at])))
    else if !h.looked then s
    else Returning(s, w, true)
  }

  predicate CanLand(h: Worker, i: nat) {
    && h.Handling? && h.msg.Envelope?
    && h.at < |Plan(h.event, h.found)|
    && i in h.left && i < |Plan(h.event, h.found)[h.at]|
  }

  // The write the action is about, what the handler run records of it, and what
  // becomes of the store.
  function WriteAt(h: Worker, i: nat): Write
    requires CanLand(h, i)
  {
    Plan(h.event, h.found)[h.at][i]
  }

  function Tried(h: Worker, i: nat, fate: Fate): (h': Worker)
    requires CanLand(h, i)
    ensures h'.Handling? && h'.msg == h.msg && h'.event == h.event && h'.found == h.found && h'.looked == h.looked
            && h'.at == h.at
  {
    h.(left := h.left - {i},
       spoilt := h.spoilt || !fate.Done?,
       landed := if fate.Lost? then h.landed else h.landed + [WriteAt(h, i)])
  }

  function Stored(st: Store, h: Worker, i: nat, fate: Fate): Store
    requires CanLand(h, i)
  {
    if fate.Lost? then st else Apply(st, WriteAt(h, i))
  }

  // One write of the current call meets its fate. A call fails if one of its
  // writes does, but an unordered bulk call still tries them all.
  function Landing(s: State, w: nat, i: nat, fate: Fate): (s': State)
    requires w < |s.workers|
    ensures SameShape(s, s')
  {
    var h := s.workers[w];
    if !CanLand(h, i) then s
    else
      var h' := Tried(h, i, fate);
      var t := s.(store := Stored(s.store, h, i, fate));
      if h'.left != {} then SetWorker(t, w, h')
      else if h'.spoilt then Returning(SetWorker(t, w, h'), w, false)
      else Advancing(SetWorker(t, w, h'.(at := h.at + 1)), w)
  }

  function Looking(s: State, w: nat, answered: bool): (s': State)
    requires w < |s.workers|
    ensures SameShape(s, s')
  {
    var h := s.workers[w];
    if h.Handling? && h.msg.Envelope? && !h.looked && h.at == |Plan(h.event, h.found)| then
      if !answered then Returning(s, w, false)
      else Advancing(SetWorker(s, w, h.(looked := true, found := Lookup(s.store.contexts, h.event))), w)
    else s
  }

  // Whatever Unmark reports, the message is dead-lettered next.
  function Removing(s: State, w: nat, fate: Fate): (s': State)
    requires w < |s.workers|
    ensures SameShape(s, s')
  {
    match s.workers[w]
    case Unmarking(Envelope(id, payload)) =>
      var t := SetWorker(s, w, Nacking(Envelope(id, payload), false));
      if fate.Lost? then t.(stuck := s.stuck + {id}) else t.(rows := s.rows - {id})
    case _ => s
  }

  function Settling(s: State, w: nat): (s': State)
    requires w < |s.workers|
    ensures SameShape(s, s')
  {
    match s.workers[w]
    case Acking(_) => SetWorker(s, w, Idle).(settled := s.settled + 1)
    case Nacking(m, true) => SetWorker(s, w, Idle).(settled := s.settled + 1, queue := s.queue + multiset{m})
    case Nacking(m, false) =>
      var t := SetWorker(s, w, Idle).(settled := s.settled + 1);
      if s.hasDlx then t.(dlq := s.dlq + multiset{m}) else t.(dropped := s.dropped + multiset{m})
    case _ => s
  }

  predicate Holding(w: Worker) {
    (w.Marked? || w.Handling? || w.Unmarking?) && w.msg.Envelope?
  }

  // The process dies: the broker redelivers the unsettled
  // message, and an event_ids row it held stays behind.
  function Crashing(s: State, w: nat): (s': State)
    requires w < |s.workers|
    ensures SameShape(s, s')
  {
    var h := s.workers[w];
    if h.Idle? then s
    else
      SetWorker(s, w, Idle)
      .(queue := s.queue + multiset{h.msg},
        crashed := s.crashed + 1,
        stuck := if Holding(h) then s.stuck + {h.msg.id} else s.stuck,
        attempts := if Holding(h) && h.Handling?
                    then s.attempts + [Attempt(h.msg.id, h.event, h.found, h.landed, false)] else s.attempts)
  }

  function Replaying(s: State, m: Message): (s': State)
    ensures SameShape(s, s')
  {
    if m in s.dlq then s.(dlq := s.dlq - multiset{m}, queue := s.queue + multiset{m}) else s
  }

  function Step(s: State, a: Action): (s': State)
    ensures SameShape(s, s')
  {
    match a
    case Publish(m) => Publishing(s, m)
    case Replay(m) => Replaying(s, m)
    case Deliver(w, m) => if w < |s.workers| then Delivering(s, w, m) else s
    case Mark(w, fate) => if w < |s.workers| then Marking(s, w, fate) else s
    case Dispatch(w) => if w < |s.workers| then Dispatching(s, w) else s
    case Land(w, i, fate) => if w < |s.workers| then Landing(s, w, i, fate) else s
    case Look(w, answered) => if w < |s.workers| then Looking(s, w, answered) else s
    case Unmark(w, fate) => if w < |s.workers| then Removing(s, w, fate) else s
    case Settle(w) => if w < |s.workers| then Settling(s, w) else s
    case Crash(w) => if w < |s.workers| then Crashing(s, w) else s
  }

  function Exec(s: State, run: seq<Action>): (s': State)
    ensures SameShape(s, s')
  {
    if run == [] then s else Step(Exec(s, run[..|run| - 1]), run[|run| - 1])
  }
}
