/**
 * Bounded callback delivery: tracked records in insertion order, one delivery process per record,
 * eviction of delivered records only, and a drain that reports everything that went wrong.
 * A process settles in two steps, as its promise does: the record's state, then the pending set.
 */
module CallbackDelivery {
  import opened Optional
  import opened GatewayTypes

  datatype DeliveryState = InProgress | Delivered | Exhausted

  datatype Record = Record(fingerprint: Signed, process: nat, state: DeliveryState)

  /** `order` is the insertion order of the record map. */
  datatype State = State(
    accepting: bool, records: map<CallbackId, Record>, order: seq<CallbackId>, pending: set<nat>, failure: bool,
    started: nat)

  datatype Reply = Closed | ConflictingPayload | QueueFull | Tracked(process: nat)

  function FirstDelivered(records: map<CallbackId, Record>, order: seq<CallbackId>): (r: Option<CallbackId>)
    ensures r.Some? ==> r.value in order && r.value in records && records[r.value].state == Delivered
    ensures r.None? ==> forall id <- order :: id in records ==> records[id].state != Delivered
  {
    if order == [] then None
    else if order[0] in records && records[order[0]].state == Delivered then Some(order[0])
    else FirstDelivered(records, order[1..])
  }

  function Without(order: seq<CallbackId>, id: CallbackId): (r: seq<CallbackId>)
    ensures forall x :: x in r <==> x in order && x != id
  {
    if order == [] then []
    else (if order[0] == id then [] else [order[0]]) + Without(order[1..], id)
  }

  function MakeCapacity(s: State, maximum: nat): Option<State> {
    if |s.records| < maximum then Some(s)
    else
      match FirstDelivered(s.records, s.order)
      case None => None
      case Some(id) => Some(s.(records := s.records - {id}, order := Without(s.order, id)))
  }

  function Enqueue(s: State, maximum: nat, id: CallbackId, fingerprint: Signed): (State, Reply) {
    if !s.accepting then (s, Closed)
    else if id in s.records then
      if s.records[id].fingerprint != fingerprint then (s.(failure := true), ConflictingPayload)
      else (s, Tracked(s.records[id].process))
    else
      match MakeCapacity(s, maximum)
      case None => (s.(failure := true), QueueFull)
      case Some(t) =>
        (t.(records := t.records[id := Record(fingerprint, s.started, InProgress)],
            order := t.order + [id],
            pending := t.pending + {s.started},
            started := s.started + 1),
         Tracked(s.started))
  }

  /** The process's `then` or `catch`: it writes the record it was started for, tracked or not. */
  function Settle(s: State, id: CallbackId, process: nat, delivered: bool): State {
    var records :=
      if id in s.records && s.records[id].process == process then
        s.records[id := s.records[id].(state := if delivered then Delivered else Exhausted)]
      else s.records;
    s.(records := records, failure := s.failure || !delivered)
  }

  /** The process's `finally`. */
  function Forget(s: State, process: nat): State {
    s.(pending := s.pending - {process})
  }

  ghost predicate Clean(s: State) {
    (forall id <- s.records :: s.records[id].state != Exhausted) && !s.failure
  }

  class BoundedDelivery {
    const maximum: nat
    var accepting: bool
    var records: map<CallbackId, Record>
    var order: seq<CallbackId>
    var pending: set<nat>
    var failure: bool
    var started: nat

    ghost function View(): State
      reads this
    {
      State(accepting, records, order, pending, failure, started)
    }

    constructor (maximum: nat)
      ensures this.maximum == maximum
      ensures View() == State(false, map[], [], {}, false, 0)
    {
      this.maximum := maximum;
      accepting, records, order, pending, failure, started := false, map[], [], {}, false, 0;
    }

    method Start()
      modifies this
      ensures View() == old(View()).(accepting := true)
    {
      accepting := true;
    }

    method Evict() returns (ok: bool)
      modifies this
      ensures ok <==> MakeCapacity(old(View()), maximum).Some?
      ensures View() == if ok then MakeCapacity(old(View()), maximum).value else old(View())
    {
      if |records| < maximum {
        return true;
      }
      var i := 0;
      while i < |order|
        invariant i <= |order|
        invariant View() == old(View())
        invariant FirstDelivered(records, order) == FirstDelivered(records, order[i..])
      {
        if order[i] in records && records[order[i]].state == Delivered {
          var id := order[i];
          records, order := records - {id}, Without(order, id);
          return true;
        }
        assert order[i..][1..] == order[i + 1..];
        i := i + 1;
      }
      ok := false;
    }

    method EnqueueCallback(id: CallbackId, fingerprint: Signed) returns (reply: Reply)
      modifies this
      ensures (View(), reply) == Enqueue(old(View()), maximum, id, fingerprint)
    {
      if !accepting {
        return Closed;
      }
      if id in records {
        if records[id].fingerprint != fingerprint {
          failure := true;
          return ConflictingPayload;
        }
        return Tracked(records[id].process);
      }
      var ok := Evict();
      if !ok {
        failure := true;
        return QueueFull;
      }
      reply := Tracked(started);
      records := records[id := Record(fingerprint, started, InProgress)];
      order, pending, started := order + [id], pending + {started}, started + 1;
    }

    method SettleDelivery(id: CallbackId, process: nat, delivered: bool)
      modifies this
      ensures View() == Settle(old(View()), id, process, delivered)
    {
      if id in records && records[id].process == process {
        records := records[id := records[id].(state := if delivered then Delivered else Exhausted)];
      }
      failure := failure || !delivered;
    }

    method ForgetDelivery(process: nat)
      modifies this
      ensures View() == Forget(old(View()), process)
    {
      pending := pending - {process};
    }

    /** drain up to its wait: no new callbacks, and the processes it waits for. */
    method BeginDrain() returns (waitingFor: set<nat>)
      modifies this
      ensures View() == old(View()).(accepting := false) && waitingFor == old(pending)
    {
      accepting := false;
      waitingFor := pending;
    }

    /** drain after its wait; `rejected` says that one of the awaited processes failed. */
    method EndDrain(rejected: bool) returns (ok: bool)
      ensures ok <==> !rejected && Clean(View())
    {
      ok := !rejected && !failure && forall id <- records :: records[id].state != Exhausted;
    }
  }
}

/** Any interleaving of enqueues, completions, starts and drains of one delivery queue. */
module DeliveryRuns {
  import opened Optional
  import opened GatewayTypes
  import opened CallbackDelivery

  datatype Event =
    | StartEvent
    | EnqueueEvent(id: CallbackId, fingerprint: Signed)
    | SettleEvent(process: nat, delivered: bool)
    | ForgetEvent(process: nat)
    | DrainEvent

  /** A delivery process as it happened. */
  datatype Process = Process(id: CallbackId, fingerprint: Signed, outcome: DeliveryState)

  /** The queue with everything that was ever accepted or turned away. */
  datatype Journal = Journal(state: State, processes: seq<Process>, conflicts: nat, refusals: nat)

  const EMPTY := Journal(State(false, map[], [], {}, false, 0), [], 0, 0)

  predicate Enabled(j: Journal, e: Event) {
    match e
    case SettleEvent(process, _) => process < |j.processes| && j.processes[process].outcome == InProgress
    case ForgetEvent(process) => process < |j.processes| && j.processes[process].outcome != InProgress
    case _ => true
  }

  function Next(j: Journal, maximum: nat, e: Event): Journal
    requires Enabled(j, e)
  {
    match e
    case StartEvent => j.(state := j.state.(accepting := true))
    case DrainEvent => j.(state := j.state.(accepting := false))
    case ForgetEvent(process) => j.(state := Forget(j.state, process))
    case SettleEvent(process, delivered) =>
      var p := j.processes[process];
      Journal(Settle(j.state, p.id, process, delivered),
              j.processes[process := p.(outcome := if delivered then Delivered else Exhausted)], j.conflicts,
              j.refusals)
    case EnqueueEvent(id, fingerprint) =>
      var (state, reply) := Enqueue(j.state, maximum, id, fingerprint);
      var processes := if state.started > j.state.started then j.processes + [Process(id, fingerprint, InProgress)]
        else j.processes;
      Journal(state, processes,
              j.conflicts + (if reply.ConflictingPayload? then 1 else 0),
              j.refusals + (if reply.QueueFull? then 1 else 0))
  }

  /** Any stretch of a run: `journals` are the states, `events` the events between them. */
  ghost predicate Stretch(journals: seq<Journal>, events: seq<Event>, maximum: nat) {
    && |journals| == |events| + 1
    && forall i | 0 <= i < |events| ::
       Enabled(journals[i], events[i]) && journals[i + 1] == Next(journals[i], maximum, events[i])
  }

  /** A run from an empty queue. */
  ghost predicate Run(journals: seq<Journal>, events: seq<Event>, maximum: nat) {
    Stretch(journals, events, maximum) && journals[0] == EMPTY
  }

  ghost predicate AnyExhausted(processes: seq<Process>) {
    exists k :: 0 <= k < |processes| && processes[k].outcome == Exhausted
  }

  /** Records and processes describe each other; only delivered processes may be untracked. */
  ghost predicate Tracks(s: State, processes: seq<Process>) {
    && s.started == |processes|
    && (forall id :: id in s.order <==> id in s.records)
    && (forall id <- s.records ::
          var r := s.records[id];
          r.process < |processes| && processes[r.process] == Process(id, r.fingerprint, r.state))
    && (forall p | 0 <= p < |processes| && processes[p].outcome != Delivered ::
          processes[p].id in s.records && s.records[processes[p].id].process == p)
    && (forall p | 0 <= p < |processes| && processes[p].outcome == InProgress :: p in s.pending)
    && (forall p <- s.pending :: p < |processes|)
  }

  ghost predicate Consistent(j: Journal, maximum: nat) {
    && Tracks(j.state, j.processes)
    && |j.state.records| <= maximum
    && (j.state.failure <==> j.conflicts + j.refusals > 0 || AnyExhausted(j.processes))
  }

  lemma SameKeysSameSize(a: map<CallbackId, Record>, b: map<CallbackId, Record>)
    requires a.Keys == b.Keys
    ensures |a| == |b|
  {
    assert |a| == |a.Keys| && |b| == |b.Keys|;
  }

  lemma SettleTracks(j: Journal, maximum: nat, process: nat, delivered: bool)
    requires Tracks(j.state, j.processes) && Enabled(j, SettleEvent(process, delivered))
    ensures var next := Next(j, maximum, SettleEvent(process, delivered));
            Tracks(next.state, next.processes) && |next.state.records| == |j.state.records|
  {
    SameKeysSameSize(j.state.records, Next(j, maximum, SettleEvent(process, delivered)).state.records);
  }

  lemma SettleExhausts(processes: seq<Process>, process: nat, outcome: DeliveryState)
    requires process < |processes| && processes[process].outcome == InProgress
    ensures AnyExhausted(processes[process := processes[process].(outcome := outcome)]) <==>
              AnyExhausted(processes) || outcome == Exhausted
  {
    var settled := processes[process := processes[process].(outcome := outcome)];
    assert settled[process].outcome == outcome;
    assert forall k | 0 <= k < |processes| && k != process :: settled[k] == processes[k];
  }

  lemma SettleKeeps(j: Journal, maximum: nat, process: nat, delivered: bool)
    requires Consistent(j, maximum) && Enabled(j, SettleEvent(process, delivered))
    ensures Consistent(Next(j, maximum, SettleEvent(process, delivered)), maximum)
  {
    SettleTracks(j, maximum, process, delivered);
    SettleExhausts(j.processes, process, if delivered then Delivered else Exhausted);
  }

  lemma EvictKeeps(s: State, maximum: nat, processes: seq<Process>)
    requires Tracks(s, processes) && |s.records| <= maximum && MakeCapacity(s, maximum).Some?
    ensures Tracks(MakeCapacity(s, maximum).value, processes)
    ensures |MakeCapacity(s, maximum).value.records| < maximum
  {
    var room := MakeCapacity(s, maximum).value;
    if |s.records| == maximum {
      var victim := FirstDelivered(s.records, s.order).value;
      assert s.records.Keys == room.records.Keys + {victim};
      assert |s.records| == |s.records.Keys| && |room.records| == |room.records.Keys|;
    }
  }

  lemma StartProcessKeeps(s: State, processes: seq<Process>, id: CallbackId, fingerprint: Signed, t: State)
    requires Tracks(s, processes) && id !in s.records
    requires t == s.(records := s.records[id := Record(fingerprint, s.started, InProgress)],
                     order := s.order + [id], pending := s.pending + {s.started}, started := s.started + 1)
    ensures Tracks(t, processes + [Process(id, fingerprint, InProgress)])
  {}

  lemma OneRecordMore(records: map<CallbackId, Record>, id: CallbackId, r: Record)
    requires id !in records
    ensures |records[id := r]| == |records| + 1
  {
    assert records[id := r].Keys == records.Keys + {id};
    assert |records[id := r]| == |records[id := r].Keys| && |records| == |records.Keys|;
  }

  lemma StartedNotExhausted(processes: seq<Process>, p: Process)
    requires p.outcome == InProgress
    ensures AnyExhausted(processes + [p]) <==> AnyExhausted(processes)
  {
    assert forall k | 0 <= k < |processes| :: (processes + [p])[k] == processes[k];
  }

  lemma EnqueueNewKeeps(j: Journal, maximum: nat, id: CallbackId, fingerprint: Signed)
    requires Consistent(j, maximum) && j.state.accepting && id !in j.state.records
             && MakeCapacity(j.state, maximum).Some?
    ensures Consistent(Next(j, maximum, EnqueueEvent(id, fingerprint)), maximum)
  {
    var next := Next(j, maximum, EnqueueEvent(id, fingerprint));
    var room := MakeCapacity(j.state, maximum).value;
    assert room.started == j.state.started && id !in room.records && room.failure == j.state.failure;
    assert next.processes == j.processes + [Process(id, fingerprint, InProgress)];
    EvictKeeps(j.state, maximum, j.processes);
    StartProcessKeeps(room, j.processes, id, fingerprint, next.state);
    OneRecordMore(room.records, id, Record(fingerprint, room.started, InProgress));
    StartedNotExhausted(j.processes, Process(id, fingerprint, InProgress));
  }

  lemma NextKeeps(j: Journal, maximum: nat, e: Event)
    requires Consistent(j, maximum) && Enabled(j, e)
    ensures Consistent(Next(j, maximum, e), maximum)
  {
    match e
    case SettleEvent(process, delivered) => SettleKeeps(j, maximum, process, delivered);
    case EnqueueEvent(id, fingerprint) =>
      if j.state.accepting && id !in j.state.records && MakeCapacity(j.state, maximum).Some? {
        EnqueueNewKeeps(j, maximum, id, fingerprint);
      }
    case _ =>
  }

  lemma {:induction false} RunConsistent(journals: seq<Journal>, events: seq<Event>, maximum: nat, i: nat)
    requires Stretch(journals, events, maximum) && Consistent(journals[0], maximum) && i < |journals|
    ensures Consistent(journals[i], maximum)
  {
    if i > 0 {
      RunConsistent(journals, events, maximum, i - 1);
      NextKeeps(journals[i - 1], maximum, events[i - 1]);
    }
  }

  /** The bound holds, records in progress or exhausted stay tracked, and an id has one live process. */
  lemma TrackingIsBounded(journals: seq<Journal>, events: seq<Event>, maximum: nat, i: nat)
    requires Run(journals, events, maximum) && i < |journals|
    ensures var j := journals[i];
            && |j.state.records| <= maximum
            && (forall p | 0 <= p < |j.processes| && j.processes[p].outcome != Delivered ::
                  j.processes[p].id in j.state.records
                    && j.state.records[j.processes[p].id].state == j.processes[p].outcome)
            && OneLiveProcess(j.processes)
  {
    RunConsistent(journals, events, maximum, i);
    EarlierProcessDelivered(journals, events, maximum, i);
  }

  ghost predicate OneLiveProcess(processes: seq<Process>) {
    forall p, q | 0 <= p < q < |processes| && processes[p].id == processes[q].id :: processes[p].outcome == Delivered
  }

  lemma OneLiveStep(j: Journal, maximum: nat, e: Event)
    requires Consistent(j, maximum) && Enabled(j, e) && OneLiveProcess(j.processes)
    ensures OneLiveProcess(Next(j, maximum, e).processes)
  {}

  /** A second process of an id starts only after the record of the first was evicted, so delivered. */
  lemma {:induction false} EarlierProcessDelivered(journals: seq<Journal>, events: seq<Event>, maximum: nat, i: nat)
    requires Run(journals, events, maximum) && i < |journals|
    ensures OneLiveProcess(journals[i].processes)
  {
    if i > 0 {
      EarlierProcessDelivered(journals, events, maximum, i - 1);
      RunConsistent(journals, events, maximum, i - 1);
      OneLiveStep(journals[i - 1], maximum, events[i - 1]);
    }
  }

  lemma {:induction false} OutcomesStick(journals: seq<Journal>, events: seq<Event>, maximum: nat, i: nat, k: nat)
    requires Stretch(journals, events, maximum) && i <= k < |journals|
    ensures |journals[i].processes| <= |journals[k].processes|
    ensures forall p | 0 <= p < |journals[i].processes| && journals[i].processes[p].outcome != InProgress ::
              journals[k].processes[p] == journals[i].processes[p]
    ensures !journals[i].state.accepting && (forall e | i <= e < k :: events[e] != StartEvent) ==>
              !journals[k].state.accepting && |journals[k].processes| == |journals[i].processes|
  {
    if i < k {
      OutcomesStick(journals, events, maximum, i, k - 1);
    }
  }

  /**
   * A drain that began at step `i`, found every process it waited for settled at step `k` and returned
   * without error: nothing ever failed, conflicted or was refused, everything accepted before the drain
   * was delivered, and unless start was called meanwhile that is everything ever accepted.
   */
  lemma CleanDrainMeansDelivered(journals: seq<Journal>, events: seq<Event>, maximum: nat, i: nat, k: nat)
    requires Run(journals, events, maximum) && i < k < |journals| && events[i] == DrainEvent
    requires forall p <- journals[i].state.pending | p < |journals[k].processes| ::
             journals[k].processes[p].outcome != InProgress
    requires Clean(journals[k].state)
    ensures journals[k].conflicts == 0 && journals[k].refusals == 0
    ensures forall p <- journals[k].processes :: p.outcome != Exhausted
    ensures forall p | 0 <= p < |journals[i].processes| ::
            p < |journals[k].processes| && journals[k].processes[p].outcome == Delivered
    ensures (forall e | i < e < k :: events[e] != StartEvent) ==>
            forall p <- journals[k].processes :: p.outcome == Delivered
  {
    RunConsistent(journals, events, maximum, i);
    RunConsistent(journals, events, maximum, k);
    OutcomesStick(journals, events, maximum, i, k);
    OutcomesStick(journals, events, maximum, i + 1, k);
    forall p | 0 <= p < |journals[i].processes| ensures journals[k].processes[p].outcome == Delivered {
      assert journals[k].processes[p] in journals[k].processes;
      if journals[i].processes[p].outcome == InProgress {
        assert p in journals[i].state.pending;
      }
    }
  }

  /** Without that condition the claim fails: a callback accepted during the drain can be left behind. */
  lemma RestartDuringDrainLeavesCallback(id: CallbackId, signed: Signed)
    ensures exists journals: seq<Journal>, events: seq<Event> ::
              && Run(journals, events, 1) && |events| == 3 && events[0] == DrainEvent
              && journals[0].state.pending == {} && Clean(journals[3].state)
              && journals[3].processes == [Process(id, signed, InProgress)]
  {
    var events := [DrainEvent, StartEvent, EnqueueEvent(id, signed)];
    var a := Next(EMPTY, 1, DrainEvent);
    var b := Next(a, 1, StartEvent);
    var c := Next(b, 1, EnqueueEvent(id, signed));
    assert Run([EMPTY, a, b, c], events, 1);
    assert c.processes == [Process(id, signed, InProgress)];
  }

  // ---------------------------------------------------------------- exactly when a clean drain leaves nothing behind

  /** A drain that began in state `j` returns without error after the stretch. */
  ghost predicate DrainReturns(j: Journal, journals: seq<Journal>, events: seq<Event>, maximum: nat) {
    && Stretch(journals, events, maximum) && journals[0] == Next(j, maximum, DrainEvent)
    && var end := journals[|events|];
    && (forall p <- j.state.pending | p < |end.processes| :: end.processes[p].outcome != InProgress)
    && Clean(end.state)
  }

  /** However the queue is used while the drain waits, a drain that returns without error left nothing undelivered. */
  ghost predicate LeavesNothing(j: Journal, maximum: nat, restarted: bool) {
    forall journals: seq<Journal>, events: seq<Event> |
      DrainReturns(j, journals, events, maximum) && (StartEvent in events <==> restarted) ::
      forall p <- journals[|events|].processes :: p.outcome == Delivered
  }

  lemma UninterruptedDrain(j: Journal, journals: seq<Journal>, events: seq<Event>, maximum: nat)
    requires Consistent(j, maximum) && DrainReturns(j, journals, events, maximum) && StartEvent !in events
    ensures forall p <- journals[|events|].processes :: p.outcome == Delivered
  {
    NextKeeps(j, maximum, DrainEvent);
    RunConsistent(journals, events, maximum, |events|);
    OutcomesStick(journals, events, maximum, 0, |events|);
    var end := journals[|events|];
    forall p | 0 <= p < |end.processes| ensures end.processes[p].outcome == Delivered {
      if j.processes[p].outcome == InProgress {
        assert p in j.state.pending;
      }
    }
  }

  lemma FailureSticks(j: Journal, maximum: nat, e: Event)
    requires Enabled(j, e) && j.state.failure
    ensures Next(j, maximum, e).state.failure
  {}

  lemma {:induction false} FailedDrainNeverReturns(journals: seq<Journal>, events: seq<Event>, maximum: nat, i: nat)
    requires Stretch(journals, events, maximum) && i < |journals| && journals[0].state.failure
    ensures journals[i].state.failure
  {
    if i > 0 {
      FailedDrainNeverReturns(journals, events, maximum, i - 1);
      FailureSticks(journals[i - 1], maximum, events[i - 1]);
    }
  }

  lemma GoOn(journals: seq<Journal>, events: seq<Event>, maximum: nat, e: Event)
    returns (more: seq<Journal>, after: seq<Event>)
    requires Stretch(journals, events, maximum) && Enabled(journals[|events|], e)
    ensures Stretch(more, after, maximum) && after == events + [e]
    ensures more[0] == journals[0] && more[|after|] == Next(journals[|events|], maximum, e)
  {
    more, after := journals + [Next(journals[|events|], maximum, e)], events + [e];
    forall i | 0 <= i < |after| ensures Enabled(more[i], after[i]) && more[i + 1] == Next(more[i], maximum, after[i]) {
      if i < |events| {
        assert after[i] == events[i];
      }
    }
  }

  /** All processes from `k` on are delivered, one after the other. */
  lemma {:induction false} DeliverTheRest(journals: seq<Journal>, events: seq<Event>, maximum: nat, k: nat)
    returns (more: seq<Journal>, after: seq<Event>)
    requires Stretch(journals, events, maximum) && k <= |journals[|events|].processes|
             && !journals[|events|].state.failure
    requires forall p | 0 <= p < k :: journals[|events|].processes[p].outcome == Delivered
    requires forall p <- journals[|events|].processes :: p.outcome != Exhausted
    ensures Stretch(more, after, maximum) && more[0] == journals[0] && !more[|after|].state.failure
    ensures forall p <- more[|after|].processes :: p.outcome == Delivered
    decreases |journals[|events|].processes| - k
  {
    var j := journals[|events|];
    if k == |j.processes| {
      return journals, events;
    }
    assert j.processes[k] in j.processes;
    if j.processes[k].outcome == InProgress {
      var next, events' := GoOn(journals, events, maximum, SettleEvent(k, true));
      more, after := DeliverTheRest(next, events', maximum, k + 1);
    } else {
      more, after := DeliverTheRest(journals, events, maximum, k + 1);
    }
  }

  lemma {:induction false} UnusedCommand(ids: set<CallbackId>) returns (bound: nat)
    ensures forall id <- ids :: id.command < bound
  {
    if ids == {} {
      return 0;
    }
    var id :| id in ids;
    bound := UnusedCommand(ids - {id});
    assert ids == (ids - {id}) + {id};
    bound := if id.command < bound then bound else id.command + 1;
  }

  /** A queue whose callbacks are all delivered takes a new one. */
  lemma IdleQueueHasRoom(s: State, processes: seq<Process>, maximum: nat)
    requires Tracks(s, processes) && maximum >= 1
    requires forall p <- processes :: p.outcome == Delivered
    ensures MakeCapacity(s, maximum).Some?
  {
    if |s.records| >= maximum {
      assert |s.records.Keys| == |s.records|;
      var id :| id in s.records.Keys;
      assert processes[s.records[id].process] in processes;
      assert id in s.order && s.records[id].state == Delivered;
    }
  }

  lemma LastIsInProgress(
    j: Journal, idle: Journal, journals: seq<Journal>, events: seq<Event>, maximum: nat, id: CallbackId, signed: Signed)
    requires Consistent(j, maximum) && Consistent(idle, maximum) && !idle.state.failure && idle.state.accepting
    requires forall p <- idle.processes :: p.outcome == Delivered
    requires id !in idle.state.records && MakeCapacity(idle.state, maximum).Some?
    requires Stretch(journals, events, maximum) && journals[0] == Next(j, maximum, DrainEvent) && StartEvent in events
    requires journals[|events|] == Next(idle, maximum, EnqueueEvent(id, signed))
    requires forall p <- j.state.pending :: p < |idle.processes|
    ensures !LeavesNothing(j, maximum, true)
  {
    var end := journals[|events|];
    assert end.processes == idle.processes + [Process(id, signed, InProgress)];
    assert end.processes[|idle.processes|] in end.processes;
    assert DrainReturns(j, journals, events, maximum);
  }

  /** After a restart, a callback with an id of its own is accepted and left in progress. */
  lemma RestartLeavesOne(j: Journal, maximum: nat)
    requires Consistent(j, maximum) && maximum >= 1 && !j.state.failure
    ensures !LeavesNothing(j, maximum, true)
  {
    var drained := Next(j, maximum, DrainEvent);
    NextKeeps(j, maximum, DrainEvent);
    forall p <- drained.processes ensures p.outcome != Exhausted {
      var k :| 0 <= k < |drained.processes| && drained.processes[k] == p;
      assert p.outcome == Exhausted ==> AnyExhausted(drained.processes);
    }
    var journals, events := DeliverTheRest([drained], [], maximum, 0);
    journals, events := GoOn(journals, events, maximum, StartEvent);
    RunConsistent(journals, events, maximum, |events|);
    var idle := journals[|events|];
    OutcomesStick(journals, events, maximum, 0, |events|);
    var command := UnusedCommand(idle.state.records.Keys);
    var id := CallbackId(command, CallbackCompleted);
    var signed := Signed(Callback(id, Nonce(command, CallbackCompleted), 0, command, 0, CallbackCompleted, 0, 0), 0);
    IdleQueueHasRoom(idle.state, idle.processes, maximum);
    var more, after := GoOn(journals, events, maximum, EnqueueEvent(id, signed));
    RunConsistent(more, after, maximum, |after|);
    LastIsInProgress(j, idle, more, after, maximum, id, signed);
  }

  /**
   * From every state a run reaches: a drain that returns without error leaves nothing undelivered if
   * and only if start is not called before it returns, or a failure recorded earlier keeps it from
   * returning at all.
   */
  lemma CleanDrainExactly(journals: seq<Journal>, events: seq<Event>, maximum: nat, i: nat, restarted: bool)
    requires Run(journals, events, maximum) && i < |journals| && maximum >= 1
    ensures LeavesNothing(journals[i], maximum, restarted) <==> !restarted || journals[i].state.failure
  {
    var j := journals[i];
    RunConsistent(journals, events, maximum, i);
    if restarted && !j.state.failure {
      RestartLeavesOne(j, maximum);
    } else {
      forall more: seq<Journal>, after: seq<Event> |
        DrainReturns(j, more, after, maximum) && (StartEvent in after <==> restarted)
        ensures forall p <- more[|after|].processes :: p.outcome == Delivered
      {
        if j.state.failure {
          FailedDrainNeverReturns(more, after, maximum, |after|);
        } else {
          UninterruptedDrain(j, more, after, maximum);
        }
      }
    }
  }

  // ---------------------------------------------------------------- consistent senders

  ghost predicate WasEnqueued(events: seq<Event>, n: nat, p: Process)
    requires n <= |events|
  {
    exists a :: 0 <= a < n && events[a] == EnqueueEvent(p.id, p.fingerprint)
  }

  ghost predicate SendersAgree(events: seq<Event>) {
    forall a, b | 0 <= a < |events| && 0 <= b < |events| && events[a].EnqueueEvent? && events[b].EnqueueEvent? ::
      events[a].id == events[b].id ==> events[a].fingerprint == events[b].fingerprint
  }

  lemma ProcessesStayKnown(j: Journal, maximum: nat, events: seq<Event>, n: nat)
    requires n < |events| && Enabled(j, events[n])
    requires forall k | 0 <= k < |j.processes| :: WasEnqueued(events, n, j.processes[k])
    ensures var next := Next(j, maximum, events[n]);
            forall k | 0 <= k < |next.processes| :: WasEnqueued(events, n + 1, next.processes[k])
  {
    var next := Next(j, maximum, events[n]);
    forall k | 0 <= k < |next.processes| ensures WasEnqueued(events, n + 1, next.processes[k]) {
      if k < |j.processes| {
        assert WasEnqueued(events, n, j.processes[k]);
      } else {
        assert events[n] == EnqueueEvent(next.processes[k].id, next.processes[k].fingerprint);
      }
    }
  }

  lemma AgreeingStep(j: Journal, maximum: nat, events: seq<Event>, n: nat)
    requires n < |events| && Enabled(j, events[n]) && Consistent(j, maximum) && SendersAgree(events)
    requires forall k | 0 <= k < |j.processes| :: WasEnqueued(events, n, j.processes[k])
    ensures Next(j, maximum, events[n]).conflicts == j.conflicts
  {
    var e := events[n];
    if e.EnqueueEvent? && e.id in j.state.records {
      var r := j.state.records[e.id];
      assert WasEnqueued(events, n, j.processes[r.process]);
    }
  }

  /** If equal ids always carry equal fingerprints, no conflict is ever reported. */
  lemma {:induction false} ConsistentSendersNeverConflict(journals: seq<Journal>, events: seq<Event>, maximum: nat,
      i: nat)
    requires Run(journals, events, maximum) && i < |journals| && SendersAgree(events)
    ensures journals[i].conflicts == 0
    ensures forall k | 0 <= k < |journals[i].processes| :: WasEnqueued(events, i, journals[i].processes[k])
  {
    if i > 0 {
      ConsistentSendersNeverConflict(journals, events, maximum, i - 1);
      RunConsistent(journals, events, maximum, i - 1);
      ProcessesStayKnown(journals[i - 1], maximum, events, i - 1);
      AgreeingStep(journals[i - 1], maximum, events, i - 1);
    }
  }
}
