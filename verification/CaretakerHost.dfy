/**
 * The Caretaker host as a crash-safe protocol. Any number of activations (workers) and dispatcher
 * calls (threads) interleave; each step is one durable write, one fenced read or one reply.
 * Any worker or thread can vanish between two steps, which also stands for every thrown error.
 */
module CaretakerHost {
  import opened Missions
  import opened Optional
  import opened RunLedger
  import opened OperationGate
  import opened InvocationLedger

  const MAX_HOST_STEPS: nat := MAX_TOOL_CALLS * 3 + 16

  /** `at` is the run version of the worker's snapshot. */
  datatype Stage =
    | Top(at: nat)
    | ReserveCall(at: nat, call: Call)
    | FindCall(at: nat, call: Call)
    | Ready(at: nat, call: Call)
    | Awaiting(at: nat, call: Call)
    | Observed(at: nat, call: Call, outcome: Outcome)
    | Waiting(at: nat, call: Call)
    | Loaded(at: nat, view: View)
    | Advancing(at: nat)
    | Attempted(at: nat, view: View)
    | Done(exhausted: bool)

  /** What one activation did: `steps` counts finished loop iterations. */
  datatype Tally = Tally(steps: nat, reserves: nat, clears: nat, advances: nat, conflicts: nat)

  /** `reconcile` is the in-memory flag set by an unresolved consequential result. */
  datatype Worker = Worker(epoch: nat, tally: Tally, reconcile: bool, stage: Stage)

  datatype ThreadStage =
    | Calling
    | Handling(generation: nat)
    | Resolving(generation: nat)
    | Completing(generation: nat, outcome: Outcome)
    | Appending(outcome: Outcome)

  datatype Thread = Thread(call: Call, stage: ThreadStage)

  /** `log` remembers each reservation with the projection it was decided on. */
  datatype LogEntry = LogEntry(version: nat, call: Call, view: View)

  datatype World = World(
    tenant: nat,
    history: History,
    lease: nat,
    mission: MissionState,
    facts: Facts,
    now: nat,
    ledger: Ledger,
    receipts: map<CallId, Receipt>,
    workers: map<nat, Worker>,
    threads: map<nat, Thread>,
    handled: seq<Call>,
    log: seq<LogEntry>)

  predicate Init(s: World) {
    && |s.history| == 1
    && s.history[0].kind == Activated && s.history[0].status == RunActive && s.history[0].pending == None
    && s.history[0].counters.InRange()
    && s.ledger == map[] && s.receipts == map[] && s.workers == map[] && s.threads == map[]
    && s.handled == [] && s.log == []
  }

  datatype Step =
    | AcquireLease
    | Activate(w: nat)
    | Vanish(w: nat)
    | DropThread(t: nat)
    | Tick(milliseconds: nat)
    | MissionStep(event: MissionEvent, facts: Facts)
    | FactsStep(facts: Facts)
    | ForeignReceipt(id: CallId, receipt: Receipt)
    | Leave(w: nat)
    | ClassifyPending(w: nat)
    | SaveToolCall(w: nat)
    | FindToolCall(w: nat)
    | Invoke(w: nat, t: nat)
    | Collect(w: nat)
    | GiveUp(w: nat)
    | SaveWait(w: nat, runtime: nat)
    | SaveResult(w: nat, runtime: nat)
    | Load(w: nat)
    | Advance(w: nat)
    | SaveAdvance(w: nat, runtime: nat)
    | SaveQuiet(w: nat, kind: Kind, runtime: nat)
    | Reserve(w: nat, granted: set<Tool>, tool: Tool, input: nat, runtime: nat)
    | ClaimStep(t: nat)
    | HandlerStep(t: nat, outcome: Outcome)
    | ResolveStep(t: nat, evidence: nat)
    | CompleteStep(t: nat)
    | AppendStep(t: nat)

  function Version(s: World): nat {
    |s.history| - 1
  }

  function SetStage(s: World, w: nat, stage: Stage): World
    requires w in s.workers
  {
    s.(workers := s.workers[w := s.workers[w].(stage := stage)])
  }

  /** A version conflict reloads the snapshot and continues the loop; the flag keeps its value. */
  function Reloaded(s: World, w: nat): World
    requires w in s.workers
  {
    var worker := s.workers[w];
    var tally := worker.tally.(steps := worker.tally.steps + 1, conflicts := worker.tally.conflicts + 1);
    s.(workers := s.workers[w := Worker(worker.epoch, tally, worker.reconcile, Top(Version(s)))])
  }

  /** All reads and writes of the run need the current mission lease. */
  predicate Fenced(s: World, w: nat) {
    w in s.workers && s.workers[w].epoch == s.lease
  }

  function SaveCheckpoint(s: World, w: nat, at: nat, kind: Kind, counters: Counters, pending: Option<Call>): SaveOutcome
    requires w in s.workers
  {
    Save(s.history, s.mission, s.workers[w].epoch, at, kind, counters, pending)
  }

  function CountersAt(s: World, at: nat): Counters
    requires at < |s.history|
  {
    s.history[at].counters
  }

  predicate SnapshotHeld(s: World, stage: Stage) {
    stage.Done? || stage.at < |s.history|
  }

  /** addRuntime keeps a measured runtime between the snapshot's and the ceiling. */
  predicate Measured(counters: Counters, runtime: nat) {
    counters.runtime <= runtime <= MAX_ACTIVE_RUNTIME_MILLISECONDS
  }

  // ---------------------------------------------------------------- pending-call recovery

  /** pendingReservationKind: a lease replacement defers to the newest other checkpoint of the call. */
  function ReservationOf(h: seq<Checkpoint>, id: CallId): Option<Kind> {
    if h == [] then None
    else
      var c := h[|h| - 1];
      if c.kind != LeaseReplaced && c.pending.Some? && c.pending.value.id == id then Some(c.kind)
      else ReservationOf(h[..|h| - 1], id)
  }

  predicate HasToolCall(h: seq<Checkpoint>, id: CallId) {
    exists c <- h :: c.kind == ToolCall && c.pending.Some? && c.pending.value.id == id
  }

  function DoClassify(s: World, w: nat): Option<World>
    requires w in s.workers && SnapshotHeld(s, s.workers[w].stage)
  {
    var stage := s.workers[w].stage;
    if !stage.Top? || s.workers[w].tally.steps >= MAX_HOST_STEPS then None
    else
      var snapshot := s.history[stage.at];
      if snapshot.status != RunActive || snapshot.pending.None? then None
      else if snapshot.kind == LeaseReplaced && !Fenced(s, w) then None
      else
        var call := snapshot.pending.value;
        var kind := if snapshot.kind != LeaseReplaced then Some(snapshot.kind) else ReservationOf(s.history, call.id);
        if kind.None? then None
        else
          Some(SetStage(s, w, if kind.value.Semantic() then ReserveCall(stage.at, call) else FindCall(stage.at, call)))
  }

  function DoSaveToolCall(s: World, w: nat): Option<World>
    requires w in s.workers && SnapshotHeld(s, s.workers[w].stage)
  {
    var stage := s.workers[w].stage;
    if !Fenced(s, w) || !stage.ReserveCall? then None
    else
      var counters := CountersAt(s, stage.at);
      match SaveCheckpoint(s, w, stage.at, ToolCall, counters.(toolCalls := counters.toolCalls + 1), Some(stage.call))
      case Applied(h) => Some(SetStage(s, w, FindCall(stage.at + 1, stage.call)).(history := h))
      case Conflict => Some(Reloaded(s, w))
      case Refused => None
  }

  /** pendingToolCallCheckpoint: the snapshot's own checkpoint, or a fenced read of the history. */
  function DoFindToolCall(s: World, w: nat): Option<World>
    requires w in s.workers && SnapshotHeld(s, s.workers[w].stage)
  {
    var stage := s.workers[w].stage;
    if !stage.FindCall? then None
    else
      var snapshot := s.history[stage.at];
      var own := snapshot.kind == ToolCall && snapshot.pending.Some? && snapshot.pending.value.id == stage.call.id;
      if own || (Fenced(s, w) && HasToolCall(s.history, stage.call.id))
      then Some(SetStage(s, w, Ready(stage.at, stage.call))) else None
  }

  /** The tool port starts a dispatcher call; the call may outlive the worker that waits for it. */
  function DoInvoke(s: World, w: nat, t: nat): Option<World>
    requires w in s.workers
  {
    var stage := s.workers[w].stage;
    if !stage.Ready? || t in s.threads then None
    else Some(SetStage(s, w, Awaiting(stage.at, stage.call)).(threads := s.threads[t := Thread(stage.call, Calling)]))
  }

  /** The reply is kept only if the stored receipt binds it; transient results wait. */
  function DoCollect(s: World, w: nat): Option<World>
    requires w in s.workers
  {
    var stage := s.workers[w].stage;
    if !stage.Awaiting? then None
    else
      var id := stage.call.id;
      if id !in s.ledger || s.ledger[id].outcome.None? || id !in s.receipts then None
      else
        var outcome := s.ledger[id].outcome.value;
        if outcome.status == Pending && outcome.transient then None
        else if !ResultBinding(s.receipts[id], stage.call, outcome, s.tenant) then None
        else Some(SetStage(s, w, Observed(stage.at, stage.call, outcome)))
  }

  function DoGiveUp(s: World, w: nat): Option<World>
    requires w in s.workers
  {
    match s.workers[w].stage
    case Ready(at, call) => Some(SetStage(s, w, Waiting(at, call)))
    case Awaiting(at, call) => Some(SetStage(s, w, Waiting(at, call)))
    case Observed(at, call, _) => Some(SetStage(s, w, Waiting(at, call)))
    case _ => None
  }

  /** checkpointToolWait: no runtime left to charge means no checkpoint; otherwise tool_wait. */
  function DoSaveWait(s: World, w: nat, runtime: nat): Option<World>
    requires w in s.workers && SnapshotHeld(s, s.workers[w].stage)
  {
    var stage := s.workers[w].stage;
    if !stage.Waiting? then None
    else
      var counters := CountersAt(s, stage.at);
      if counters.runtime == MAX_ACTIVE_RUNTIME_MILLISECONDS then Some(SetStage(s, w, Done(false)))
      else if !Measured(counters, runtime) || runtime == counters.runtime || !Fenced(s, w) then None
      else
        match SaveCheckpoint(s, w, stage.at, ToolWait, counters.(runtime := runtime), Some(stage.call))
        case Applied(h) => Some(SetStage(s, w, Done(false)).(history := h))
        case Conflict => Some(Reloaded(s, w))
        case Refused => Some(SetStage(s, w, Done(false)))
  }

  function DoSaveResult(s: World, w: nat, runtime: nat): Option<World>
    requires w in s.workers && SnapshotHeld(s, s.workers[w].stage)
  {
    var worker := s.workers[w];
    var stage := worker.stage;
    if !Fenced(s, w) || !stage.Observed? || !Measured(CountersAt(s, stage.at), runtime) then None
    else
      match SaveCheckpoint(s, w, stage.at, StatePersisted, CountersAt(s, stage.at).(runtime := runtime), None)
      case Applied(h) =>
        var tally := worker.tally.(steps := worker.tally.steps + 1, clears := worker.tally.clears + 1);
        var reconcile := CallOutcome(stage.call.tool, stage.outcome.status).RequiresReconciliation();
        Some(s.(history := h,
                workers := s.workers[w := Worker(worker.epoch, tally, reconcile, Top(stage.at + 1))]))
      case Conflict => Some(Reloaded(s, w))
      case Refused => None
  }

  // ---------------------------------------------------------------- projection and decision

  /** Every reserved call has its receipt, and the receipt binds the reservation. */
  predicate AllBound(h: History, receipts: map<CallId, Receipt>, tenant: nat) {
    forall i | 0 <= i < |h| && h[i].pending.Some? ::
      h[i].pending.value.id in receipts && ProjectedBinding(receipts[h[i].pending.value.id], h[i].pending.value, tenant)
  }

  function NewestOutcome(h: History, receipts: map<CallId, Receipt>): Option<CallOutcome> {
    match LastReserved(h)
    case None => None
    case Some(call) =>
      if call.id in receipts then Some(CallOutcome(receipts[call.id].tool, receipts[call.id].outcome.status)) else None
  }

  function DoLoad(s: World, w: nat): Option<World>
    requires w in s.workers && SnapshotHeld(s, s.workers[w].stage)
  {
    var worker := s.workers[w];
    var stage := worker.stage;
    if !Fenced(s, w) || !stage.Top? || worker.tally.steps >= MAX_HOST_STEPS then None
    else
      var snapshot := s.history[stage.at];
      var row := Last(s.history);
      if snapshot.status != RunActive || snapshot.pending.Some?
         || snapshot.counters.runtime >= MAX_ACTIVE_RUNTIME_MILLISECONDS then None
      else if row.epoch != worker.epoch || row.phase != s.mission.phase then None
      else if !AllBound(s.history, s.receipts, s.tenant) then None
      else
        match ProjectOperation(s.mission, s.facts)
        case None => None
        case Some(operation) =>
          var view := View(Version(s), s.mission, s.facts, NewestOutcome(s.history, s.receipts), operation);
          if !LoadAccepted(worker.reconcile, view) then None
          else Some(s.(workers := s.workers[w := worker.(reconcile := false, stage := Loaded(stage.at, view))]))
  }

  /** context_sufficient moves a running/understand mission to running/plan before the checkpoint. */
  function DoAdvance(s: World, w: nat): Option<World>
    requires w in s.workers
  {
    var stage := s.workers[w].stage;
    if !stage.Loaded? || stage.view.mission != MissionState(Running, Understand)
       || s.mission != stage.view.mission then
      None
    else
      match Resolve(s.mission, ContextSufficient)
      case None => None
      case Some(next) => Some(SetStage(s, w, Advancing(stage.at)).(mission := next))
  }

  function DoSaveAdvance(s: World, w: nat, runtime: nat): Option<World>
    requires w in s.workers && SnapshotHeld(s, s.workers[w].stage)
  {
    var worker := s.workers[w];
    var stage := worker.stage;
    if !Fenced(s, w) || !stage.Advancing? || !Measured(CountersAt(s, stage.at), runtime) then None
    else
      match SaveCheckpoint(s, w, stage.at, StatePersisted, CountersAt(s, stage.at).(runtime := runtime), None)
      case Applied(h) =>
        var tally := worker.tally.(steps := worker.tally.steps + 1, advances := worker.tally.advances + 1);
        Some(s.(history := h, workers := s.workers[w := Worker(worker.epoch, tally, false, Top(stage.at + 1))]))
      case Conflict => Some(Reloaded(s, w))
      case Refused => None
  }

  /** The checkpoints a stage may write while no call is pending. */
  function QuietKinds(stage: Stage): set<Kind> {
    match stage
    case Top(_) => {BudgetExhausted, HostFailed, StatePersisted}
    case Loaded(_, view) =>
      (match view.mission.status
       case MissionSucceeded => {Completed}
       case MissionCancelled => {Cancelled}
       case MissionFailed => {Failed}
       case _ =>
         if view.mission == MissionState(WaitingForUser, Plan) then {ClarificationPause}
         else if view.mission == MissionState(WaitingForUser, Approve) then {ApprovalPause}
         else if view.mission == MissionState(WaitingForSystem, Observe) then {ExternalWait}
         else {BudgetExhausted, DecisionAttempt})
    case Attempted(_, _) =>
      {BudgetExhausted, HostFailed, StatePersisted, ClarificationPause, ApprovalPause, ExternalWait,
       HumanReviewPause, SafeRefusal, Completed}
    case _ => {}
  }

  function QuietCounters(c: Counters, kind: Kind, runtime: nat): Counters {
    c.(clarifications := c.clarifications + (if kind == ClarificationPause then 1 else 0), runtime := runtime)
  }

  function DoSaveQuiet(s: World, w: nat, kind: Kind, runtime: nat): Option<World>
    requires w in s.workers && SnapshotHeld(s, s.workers[w].stage)
  {
    var stage := s.workers[w].stage;
    if !Fenced(s, w) || kind !in QuietKinds(stage) then None
    else
      var snapshot := s.history[stage.at];
      if snapshot.status != RunActive || snapshot.pending.Some? || !Measured(snapshot.counters, runtime)
         || (stage.Top? && s.workers[w].tally.steps >= MAX_HOST_STEPS)
         || (stage.Loaded? && kind == DecisionAttempt && runtime == MAX_ACTIVE_RUNTIME_MILLISECONDS)
         || (stage.Loaded? && kind == BudgetExhausted && runtime < MAX_ACTIVE_RUNTIME_MILLISECONDS) then None
      else
        match SaveCheckpoint(s, w, stage.at, kind, QuietCounters(snapshot.counters, kind, runtime), None)
        case Applied(h) =>
          var next :=
            if kind == DecisionAttempt && stage.Loaded? then Attempted(stage.at + 1, stage.view) else Done(false);
          Some(SetStage(s, w, next).(history := h))
        case Conflict => Some(Reloaded(s, w))
        case Refused => None
  }

  function ReservedCounters(c: Counters, tool: Tool, runtime: nat): Counters {
    if tool == PlansPropose then c.(planRevisions := c.planRevisions + 1, runtime := runtime)
    else if tool == OperationsGet then c.(polls := c.polls + 1, runtime := runtime)
    else c.(toolCalls := c.toolCalls + 1, runtime := runtime)
  }

  function DoReserve(s: World, w: nat, granted: set<Tool>, tool: Tool, input: nat, runtime: nat): Option<World>
    requires w in s.workers && SnapshotHeld(s, s.workers[w].stage)
  {
    var worker := s.workers[w];
    var stage := worker.stage;
    if !Fenced(s, w) || !stage.Attempted? then None
    else
      var counters := CountersAt(s, stage.at);
      if !Measured(counters, runtime) || runtime == MAX_ACTIVE_RUNTIME_MILLISECONDS then None
      else if tool !in AllowedTools(granted, stage.view, counters) then None
      else
        var call := Call(CallId(stage.at, tool, input), tool, input);
        match SaveCheckpoint(s, w, stage.at, ReservationKind(tool), ReservedCounters(counters, tool, runtime),
                             Some(call))
        case Applied(h) =>
          var tally := worker.tally.(steps := worker.tally.steps + 1, reserves := worker.tally.reserves + 1);
          Some(s.(history := h,
                  workers := s.workers[w := Worker(worker.epoch, tally, false, Top(stage.at + 1))],
                  log := s.log + [LogEntry(stage.at + 1, call, stage.view)]))
        case Conflict => Some(Reloaded(s, w))
        case Refused => None
  }

  // ---------------------------------------------------------------- dispatcher threads

  function SetThread(s: World, t: nat, stage: ThreadStage): World
    requires t in s.threads
  {
    s.(threads := s.threads[t := s.threads[t].(stage := stage)])
  }

  function DoClaim(s: World, t: nat): Option<World>
    requires t in s.threads
  {
    if !s.threads[t].stage.Calling? then None
    else
      var (ledger, result) := Claim(s.ledger, s.now, s.threads[t].call);
      match result
      case Granted(RunHandler, generation) => Some(SetThread(s, t, Handling(generation)).(ledger := ledger))
      case Granted(ResolveUnknown, generation) => Some(SetThread(s, t, Resolving(generation)).(ledger := ledger))
      case AlreadyCompleted(outcome) => Some(SetThread(s, t, Appending(outcome)))
      case _ => None
  }

  /** The handler runs: this is the call's effect on the application. */
  function DoHandler(s: World, t: nat, outcome: Outcome): Option<World>
    requires t in s.threads
  {
    match s.threads[t].stage
    case Handling(generation) =>
      Some(SetThread(s, t, Completing(generation, outcome)).(handled := s.handled + [s.threads[t].call]))
    case _ => None
  }

  /** An abandoned write is recorded as still unknown, with its reconciliation evidence. */
  function DoResolve(s: World, t: nat, evidence: nat): Option<World>
    requires t in s.threads
  {
    match s.threads[t].stage
    case Resolving(generation) => Some(SetThread(s, t, Completing(generation, Outcome(Unknown, false, {evidence}))))
    case _ => None
  }

  function DoComplete(s: World, t: nat): Option<World>
    requires t in s.threads
  {
    match s.threads[t].stage
    case Completing(generation, outcome) =>
      var (ledger, result) := Complete(s.ledger, s.threads[t].call, generation, outcome);
      if result == Recorded then Some(SetThread(s, t, Appending(outcome)).(ledger := ledger)) else None
    case _ => None
  }

  /** The receipt repository keeps the first receipt of a call and rejects a different one. */
  function DoAppend(s: World, t: nat): Option<World>
    requires t in s.threads
  {
    match s.threads[t].stage
    case Appending(outcome) =>
      var call := s.threads[t].call;
      var receipt := ReceiptFor(call, outcome, s.tenant);
      if call.id in s.receipts && s.receipts[call.id] != receipt then None
      else Some(s.(threads := s.threads - {t}, receipts := s.receipts[call.id := receipt]))
    case _ => None
  }

  // ---------------------------------------------------------------- runs

  function DoActivate(s: World, w: nat): Option<World> {
    if w in s.workers then None
    else
      var unused := Tally(0, 0, 0, 0, 0);
      match Start(s.history, s.mission, s.lease)
      case Resumed(h) => Some(s.(history := h, workers := s.workers[w := Worker(s.lease, unused, false, Top(|h| - 1))]))
      case Replayed => Some(s.(workers := s.workers[w := Worker(s.lease, unused, false, Top(Version(s)))]))
      case StartRefused => None
  }

  /** Leaving the loop: the run is no longer active, or the activation has used all its steps. */
  function DoLeave(s: World, w: nat): Option<World>
    requires w in s.workers && SnapshotHeld(s, s.workers[w].stage)
  {
    var worker := s.workers[w];
    if !worker.stage.Top? then None
    else if s.history[worker.stage.at].status != RunActive then Some(SetStage(s, w, Done(false)))
    else if worker.tally.steps >= MAX_HOST_STEPS then Some(SetStage(s, w, Done(true)))
    else None
  }

  /** One step of the protocol; None when the step is not enabled. */
  ghost function Do(s: World, step: Step): Option<World>
    requires forall w <- s.workers :: SnapshotHeld(s, s.workers[w].stage)
  {
    match step
    case AcquireLease => Some(s.(lease := s.lease + 1))
    case Activate(w) => DoActivate(s, w)
    case Vanish(w) => Some(s.(workers := s.workers - {w}))
    case DropThread(t) => Some(s.(threads := s.threads - {t}))
    case Tick(milliseconds) => Some(s.(now := s.now + milliseconds))
    case MissionStep(event, facts) =>
      (match Resolve(s.mission, event)
       case None => None
       case Some(m) =>
         if EventWrites(s.mission, event, s.facts, facts) then Some(s.(mission := m, facts := facts)) else None)
    case FactsStep(facts) => if KeepsRows(s.facts, facts) then Some(s.(facts := facts)) else None
    case ForeignReceipt(id, receipt) =>
      if id in s.receipts then None else Some(s.(receipts := s.receipts[id := receipt]))
    case ClaimStep(t) => if t in s.threads then DoClaim(s, t) else None
    case HandlerStep(t, outcome) => if t in s.threads then DoHandler(s, t, outcome) else None
    case ResolveStep(t, evidence) => if t in s.threads then DoResolve(s, t, evidence) else None
    case CompleteStep(t) => if t in s.threads then DoComplete(s, t) else None
    case AppendStep(t) => if t in s.threads then DoAppend(s, t) else None
    case _ => DoWorker(s, step)
  }

  function DoWorker(s: World, step: Step): Option<World>
    requires forall w <- s.workers :: SnapshotHeld(s, s.workers[w].stage)
  {
    match step
    case Leave(w) => if w in s.workers then DoLeave(s, w) else None
    case ClassifyPending(w) => if w in s.workers then DoClassify(s, w) else None
    case SaveToolCall(w) => if w in s.workers then DoSaveToolCall(s, w) else None
    case FindToolCall(w) => if w in s.workers then DoFindToolCall(s, w) else None
    case Invoke(w, t) => if w in s.workers then DoInvoke(s, w, t) else None
    case Collect(w) => if w in s.workers then DoCollect(s, w) else None
    case GiveUp(w) => if w in s.workers then DoGiveUp(s, w) else None
    case SaveWait(w, runtime) => if w in s.workers then DoSaveWait(s, w, runtime) else None
    case SaveResult(w, runtime) => if w in s.workers then DoSaveResult(s, w, runtime) else None
    case Load(w) => if w in s.workers then DoLoad(s, w) else None
    case Advance(w) => if w in s.workers then DoAdvance(s, w) else None
    case SaveAdvance(w, runtime) => if w in s.workers then DoSaveAdvance(s, w, runtime) else None
    case SaveQuiet(w, kind, runtime) => if w in s.workers then DoSaveQuiet(s, w, kind, runtime) else None
    case Reserve(w, granted, tool, input, runtime) =>
      if w in s.workers then DoReserve(s, w, granted, tool, input, runtime) else None
    case _ => None
  }
}
