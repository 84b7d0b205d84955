/**
 * The durable Caretaker run: an append-only checkpoint history written by compare-and-swap on the
 * run version. A checkpoint's sequence is its index, and the run row always equals the last
 * checkpoint, so the row is not a second piece of state here.
 */
module RunLedger {
  import opened Missions
  import opened Optional

  const MAX_TOOL_CALLS: nat := 24
  const MAX_PLAN_REVISIONS: nat := 3
  const MAX_CLARIFICATION_PAUSES: nat := 2
  const MAX_RECONCILIATION_POLLS: nat := 3
  const MAX_ACTIVE_RUNTIME_MILLISECONDS: nat := 300_000

  datatype Tool =
    | PalacesGet | CrewsList | CapabilitiesList | RoutinesList | RoutinesGet | ExecutionsList
    | KnowledgeSearch | PlansPropose | PlansValidate | PlansSimulate | PlansRequestApproval
    | PlansActivate | OperationsGet | VerificationGetEvidence | MissionsCancel
  {
    predicate Consequential() {
      this == PlansActivate
    }

    predicate ReadOnly() {
      this in {PalacesGet, CrewsList, CapabilitiesList, RoutinesList, RoutinesGet, ExecutionsList,
               KnowledgeSearch, OperationsGet, VerificationGetEvidence}
    }

    function AllowedPhases(): set<Phase> {
      match this
      case PalacesGet | CrewsList | CapabilitiesList => {Understand, Plan, Validate}
      case RoutinesList | RoutinesGet | KnowledgeSearch => {Understand, Plan, Validate, Reconcile, Verify}
      case ExecutionsList => {Understand, Observe, Verify}
      case PlansPropose => {Plan}
      case PlansValidate | PlansSimulate | PlansRequestApproval => {Validate}
      case PlansActivate => {Execute}
      case OperationsGet => {Execute, Reconcile}
      case VerificationGetEvidence => {Observe, Verify}
      case MissionsCancel => {Understand, Plan, Validate, Approve, Execute, Reconcile, Observe, Verify}
    }
  }

  /** A call id is a hash of these values (mission and run are fixed here); the hash is injective. */
  datatype CallId = CallId(runVersion: nat, tool: Tool, input: nat)

  /** A pending tool call; `input` stands for the canonical input and for its injective hash. */
  datatype Call = Call(id: CallId, tool: Tool, input: nat)

  datatype Counters = Counters(
    toolCalls: nat, planRevisions: nat, clarifications: nat, polls: nat, runtime: nat)
  {
    /** The counter schema: a value outside it makes the writer throw before anything is stored. */
    predicate InRange() {
      && toolCalls <= MAX_TOOL_CALLS
      && planRevisions <= MAX_PLAN_REVISIONS
      && clarifications <= MAX_CLARIFICATION_PAUSES
      && polls <= MAX_RECONCILIATION_POLLS
      && runtime <= MAX_ACTIVE_RUNTIME_MILLISECONDS
    }
  }

  datatype Kind =
    | Activated | StatePersisted | DecisionAttempt | ToolCall | ToolWait | PlanRevision
    | ClarificationPause | ApprovalPause | HumanReviewPause | ReconciliationPoll | ExternalWait
    | BudgetExhausted | Completed | Failed | SafeRefusal | HostFailed | Cancelled | LeaseReplaced
  {
    /** A semantic reservation still owes its tool_call checkpoint. */
    predicate Semantic() {
      this == PlanRevision || this == ReconciliationPoll
    }

    predicate Reserves() {
      this == ToolCall || Semantic()
    }
  }

  datatype RunStatus = RunActive | RunPaused | RunCompleted | RunFailed | RunCancelled

  function StatusFor(kind: Kind): RunStatus {
    match kind
    case ClarificationPause | ApprovalPause | HumanReviewPause | BudgetExhausted => RunPaused
    case Completed => RunCompleted
    case Failed | SafeRefusal | HostFailed => RunFailed
    case Cancelled => RunCancelled
    case _ => RunActive
  }

  datatype Checkpoint = Checkpoint(
    kind: Kind, status: RunStatus, epoch: nat, phase: Phase, counters: Counters, pending: Option<Call>)

  type History = h: seq<Checkpoint> | |h| > 0 witness [
    Checkpoint(Activated, RunActive, 0, Understand, Counters(0, 0, 0, 0, 0), None)]

  function Last(h: History): Checkpoint {
    h[|h| - 1]
  }

  /** The kind of the newest checkpoint that is not a lease replacement. */
  function LastAction(h: History): Kind {
    if Last(h).kind == LeaseReplaced && |h| > 1 then LastAction(h[..|h| - 1]) else Last(h).kind
  }

  predicate MissionAllows(m: MissionState, kind: Kind, clearsPending: bool) {
    match kind
    case Completed => m == MissionState(MissionSucceeded, Verify)
    case Failed => m.status == MissionFailed
    case Cancelled => m.status == MissionCancelled
    case ClarificationPause => m == MissionState(WaitingForUser, Plan)
    case ApprovalPause => m == MissionState(WaitingForUser, Approve)
    case ExternalWait => m == MissionState(WaitingForSystem, Observe) || m == MissionState(Running, Reconcile)
    case DecisionAttempt | HumanReviewPause | SafeRefusal | HostFailed | BudgetExhausted => !m.Terminal()
    case _ => (kind == StatePersisted && clearsPending && !m.Terminal()) || m.status == Running
  }

  predicate CounterTransition(prev: Counters, next: Counters, kind: Kind) {
    && next.toolCalls == prev.toolCalls + (if kind == ToolCall then 1 else 0)
    && next.planRevisions == prev.planRevisions + (if kind == PlanRevision then 1 else 0)
    && next.clarifications == prev.clarifications + (if kind == ClarificationPause then 1 else 0)
    && next.polls == prev.polls + (if kind == ReconciliationPoll then 1 else 0)
    && prev.runtime <= next.runtime
    && (kind == ToolWait ==> prev.runtime < next.runtime)
  }

  predicate PendingTransition(prev: Option<Call>, next: Option<Call>, prevAction: Kind, kind: Kind) {
    && (if prev.None? && next.Some? then
          || kind == ToolCall
          || (kind == PlanRevision && next.value.tool == PlansPropose)
          || (kind == ReconciliationPoll && next.value.tool == OperationsGet)
        else if prev.None? then !kind.Reserves()
        else if kind == LeaseReplaced then next == prev
        else if prevAction.Semantic() then kind == ToolCall && next == prev
        else if prevAction == ToolCall || prevAction == ToolWait then
          if kind == ToolWait then next == prev else kind == StatePersisted && next.None?
        else false)
    && (StatusFor(kind) != RunActive ==> next.None?)
  }

  datatype SaveOutcome = Applied(history: History) | Conflict | Refused

  /** The store's checkpoint write for a holder of lease epoch `epoch`. */
  function Save(h: History, mission: MissionState, epoch: nat, expected: nat,
                kind: Kind, counters: Counters, pending: Option<Call>): SaveOutcome
  {
    var row := Last(h);
    if kind == Activated || kind == LeaseReplaced || !counters.InRange() then Refused
    else if |h| - 1 != expected then Conflict
    else if row.status != RunActive || row.epoch != epoch then Refused
    else if !MissionAllows(mission, kind, row.pending.Some? && pending.None?) then Refused
    else if !CounterTransition(row.counters, counters, kind) then Refused
    else if !PendingTransition(row.pending, pending, LastAction(h), kind) then Refused
    else if kind == ToolWait && (LastAction(h) !in {ToolCall, ToolWait} || row.phase != mission.phase) then Refused
    else Applied(h + [Checkpoint(kind, StatusFor(kind), epoch, mission.phase, counters, pending)])
  }

  datatype StartOutcome = Resumed(history: History) | Replayed | StartRefused

  predicate Synchronizes(m: MissionState) {
    m in {MissionState(WaitingForSystem, Observe), MissionState(WaitingForUser, Plan),
          MissionState(WaitingForUser, Approve)}
  }

  /** Entering an existing run with a fresh lease. A paused run of a live mission starts another run. */
  function Start(h: History, mission: MissionState, epoch: nat): StartOutcome {
    var row := Last(h);
    if row.status in {RunCompleted, RunFailed, RunCancelled} then Replayed
    else if row.status == RunPaused then
      if !mission.Terminal() || epoch < row.epoch || row.pending.Some? then StartRefused
      else Resumed(h + [Checkpoint(LeaseReplaced, RunActive, epoch, mission.phase, row.counters, None)])
    else if epoch == row.epoch then Replayed
    else if epoch < row.epoch then StartRefused
    else if mission.status != Running && !mission.Terminal() && !Synchronizes(mission) then StartRefused
    else if row.phase != mission.phase && !mission.Terminal() && !Synchronizes(mission) then StartRefused
    else Resumed(h + [Checkpoint(LeaseReplaced, RunActive, epoch, mission.phase, row.counters, row.pending)])
  }

  // ---------------------------------------------------------------- histories the host can write

  function ReservationKind(tool: Tool): Kind {
    match tool
    case PlansPropose => PlanRevision
    case OperationsGet => ReconciliationPoll
    case _ => ToolCall
  }

  /** What one more checkpoint may be, given the history before it. */
  ghost predicate Extends(h: History, next: Checkpoint) {
    var row := Last(h);
    && next.counters.InRange()
    && next.counters.toolCalls == row.counters.toolCalls + (if next.kind == ToolCall then 1 else 0)
    && next.kind != Activated
    && match row.pending
       case None =>
         (match next.pending
          case None => !next.kind.Reserves()
          case Some(c) =>
            && c.id == CallId(|h| - 1, c.tool, c.input)
            && next.kind == ReservationKind(c.tool)
            && row.counters.toolCalls < MAX_TOOL_CALLS)
       case Some(c) =>
         if next.kind == LeaseReplaced then next.pending == Some(c)
         else if LastAction(h).Semantic() then next.kind == ToolCall && next.pending == Some(c)
         else || (next.kind == ToolWait && next.pending == Some(c))
              || (next.kind == StatePersisted && next.pending == None)
  }

  ghost predicate Legal(h: History) {
    if |h| == 1 then
      h[0].kind == Activated && h[0].status == RunActive && h[0].pending == None && h[0].counters.InRange()
    else
      Legal(h[..|h| - 1]) && Extends(h[..|h| - 1], Last(h))
  }

  lemma LegalAppend(h: History, next: Checkpoint)
    requires Legal(h) && Extends(h, next)
    ensures Legal(h + [next])
  {
    assert (h + [next])[..|h + [next]| - 1] == h;
  }

  lemma {:induction false} LegalPrefix(h: History, k: nat)
    requires Legal(h) && 0 < k <= |h|
    ensures Legal(h[..k])
  {
    if k < |h| {
      LegalPrefix(h[..|h| - 1], k);
      assert h[..|h| - 1][..k] == h[..k];
    } else {
      assert h[..k] == h;
    }
  }

  /** The ids that hold a tool_call checkpoint. */
  ghost function Dispatched(h: History): set<CallId> {
    (if |h| == 1 then {} else Dispatched(h[..|h| - 1]))
    + (if Last(h).kind == ToolCall && Last(h).pending.Some? then {Last(h).pending.value.id} else {})
  }

  lemma {:induction false} DispatchedMember(h: History, i: nat)
    requires i < |h| && h[i].kind == ToolCall && h[i].pending.Some?
    ensures h[i].pending.value.id in Dispatched(h)
  {
    if i < |h| - 1 {
      DispatchedMember(h[..|h| - 1], i);
    }
  }

  lemma {:induction false} DispatchedMonotone(h: History, g: History)
    requires h <= g
    ensures Dispatched(h) <= Dispatched(g)
    decreases |g|
  {
    if |h| < |g| {
      DispatchedMonotone(h, g[..|g| - 1]);
    } else {
      assert h == g;
    }
  }

  /**
   * A call is pending over one unbroken stretch of the history, and its id names where the stretch
   * starts: the version the reservation was computed from, which held no pending call.
   */
  lemma {:induction false} PendingStretch(h: History, i: nat)
    requires Legal(h) && i < |h| && h[i].pending.Some?
    ensures var v := h[i].pending.value.id.runVersion;
            && v < i && h[v].pending == None
            && (forall j :: v < j <= i ==> h[j].pending == h[i].pending)
            && h[v + 1].kind == ReservationKind(h[i].pending.value.tool)
            && h[i].pending.value.id == CallId(v, h[i].pending.value.tool, h[i].pending.value.input)
  {
    var prefix := h[..|h| - 1];
    if i < |h| - 1 {
      PendingStretch(prefix, i);
    } else if 1 < |h| && Last(prefix).pending.Some? {
      PendingStretch(prefix, i - 1);
    }
  }

  /** Reservations never share a call id, and an id is never rebound to another tool or input. */
  lemma {:induction false} ReservationsDistinct(h: History, i: nat, j: nat)
    requires Legal(h) && 0 < i < j < |h|
    requires h[i].pending.Some? && h[j].pending.Some?
    ensures h[i].pending.value.id == h[j].pending.value.id ==>
              && h[i].pending == h[j].pending
              && (forall k :: i <= k <= j ==> h[k].pending == h[i].pending)
    ensures h[i - 1].pending.None? && h[j - 1].pending.None? ==>
              h[i].pending.value.id != h[j].pending.value.id
  {
    PendingStretch(h, i);
    PendingStretch(h, j);
  }

  /** A pending call is either owed its tool_call checkpoint, with room in the budget, or dispatched. */
  lemma {:induction false} PendingAction(h: History)
    requires Legal(h) && Last(h).pending.Some?
    ensures LastAction(h) in {PlanRevision, ReconciliationPoll, ToolCall, ToolWait}
    ensures LastAction(h).Semantic() ==> Last(h).counters.toolCalls < MAX_TOOL_CALLS
  {
    var prefix := h[..|h| - 1];
    if Last(prefix).pending.Some? {
      PendingAction(prefix);
    }
  }

  /** A pending call's id holds a tool_call checkpoint exactly when it is no longer semantic. */
  lemma {:induction false} PendingDispatched(h: History)
    requires Legal(h)
    ensures forall id <- Dispatched(h) :: id.runVersion < |h| - 1
    ensures Last(h).pending.Some? ==>
              (Last(h).pending.value.id in Dispatched(h) <==> !LastAction(h).Semantic())
  {
    if |h| > 1 {
      var prefix := h[..|h| - 1];
      PendingDispatched(prefix);
      if Last(prefix).pending.Some? {
        PendingAction(prefix);
        PendingStretch(prefix, |prefix| - 1);
      }
    }
  }

  /** A tool_call checkpoint is only ever written for an id that holds none. */
  lemma ToolCallIsFresh(h: History, next: Checkpoint)
    requires Legal(h) && Extends(h, next) && next.kind == ToolCall
    ensures next.pending.Some? && next.pending.value.id !in Dispatched(h)
  {
    PendingDispatched(h);
    if Last(h).pending.Some? {
      PendingAction(h);
    }
  }

  /** The tool-call counter is the inherited count plus the number of ids holding a tool_call. */
  lemma {:induction false} ToolCallsCounted(h: History)
    requires Legal(h)
    ensures |Dispatched(h)| + h[0].counters.toolCalls == Last(h).counters.toolCalls
  {
    if |h| > 1 {
      var prefix, next := h[..|h| - 1], Last(h);
      ToolCallsCounted(prefix);
      if next.kind == ToolCall {
        ToolCallIsFresh(prefix, next);
        var id := next.pending.value.id;
        assert Dispatched(h) == Dispatched(prefix) + {id};
      } else {
        assert Dispatched(h) == Dispatched(prefix);
      }
    }
  }

  /** Each id holds at most one tool_call checkpoint. */
  lemma {:induction false} OneToolCallPerId(h: History, i: nat, j: nat)
    requires Legal(h) && i < j < |h|
    requires h[i].kind == ToolCall && h[j].kind == ToolCall
    ensures h[i].pending.Some? && h[j].pending.Some? && h[i].pending.value.id != h[j].pending.value.id
  {
    ToolCallHoldsCall(h, i);
    ToolCallHoldsCall(h, j);
    var before := h[..j];
    LegalPrefix(h, j);
    LegalPrefix(h, j + 1);
    DispatchedMember(before, i);
    assert h[..j + 1][..j] == before;
    ToolCallIsFresh(before, h[j]);
  }

  lemma ToolCallHoldsCall(h: History, i: nat)
    requires Legal(h) && i < |h| && h[i].kind == ToolCall
    ensures i > 0 && h[i].pending.Some?
  {
    LegalPrefix(h, i + 1);
    assert Last(h[..i + 1]) == h[i];
  }

  /** Every call that is no longer pending went through its tool_call checkpoint. */
  lemma {:induction false} PastCallsDispatched(h: History, i: nat)
    requires Legal(h) && i < |h| && h[i].pending.Some?
    ensures h[i].pending.value.id in Dispatched(h) || (Last(h).pending == h[i].pending && LastAction(h).Semantic())
  {
    if i < |h| - 1 {
      PastCallsDispatched(h[..|h| - 1], i);
    } else {
      PendingDispatched(h);
    }
  }

  // ---------------------------------------------------------------- counting stretches

  ghost function Reservations(h: History): nat {
    if |h| == 1 then 0
    else Reservations(h[..|h| - 1]) + (if h[|h| - 2].pending.None? && Last(h).pending.Some? then 1 else 0)
  }

  ghost function Clearings(h: History): nat {
    if |h| == 1 then 0
    else Clearings(h[..|h| - 1]) + (if h[|h| - 2].pending.Some? && Last(h).pending.None? then 1 else 0)
  }

  lemma {:induction false} StretchesBounded(h: History)
    requires Legal(h)
    ensures Reservations(h) == Clearings(h) + (if Last(h).pending.Some? then 1 else 0)
    ensures Clearings(h) + h[0].counters.toolCalls
            + (if Last(h).pending.Some? && !LastAction(h).Semantic() then 1 else 0)
            == Last(h).counters.toolCalls
    ensures Reservations(h) <= MAX_TOOL_CALLS && Clearings(h) <= MAX_TOOL_CALLS
  {
    if |h| > 1 {
      var prefix := h[..|h| - 1];
      StretchesBounded(prefix);
      if Last(prefix).pending.Some? {
        PendingAction(prefix);
      }
      if Last(h).pending.Some? {
        PendingAction(h);
      }
    }
  }

  /** The call most recently reserved, pending or not. */
  function LastReserved(h: History): Option<Call> {
    if Last(h).pending.Some? then Last(h).pending
    else if |h| == 1 then None
    else LastReserved(h[..|h| - 1])
  }

  lemma {:induction false} LastReservedOccurs(h: History)
    ensures LastReserved(h).Some? ==> exists i :: 0 <= i < |h| && h[i].pending == LastReserved(h)
  {
    if Last(h).pending.None? && |h| > 1 {
      LastReservedOccurs(h[..|h| - 1]);
    }
  }
}
