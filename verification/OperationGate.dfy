/**
 * What the host may do next after a consequential call: the operation projected from the durable
 * plan, operations, attempts and reconciliation polls, and the tool gate computed from it.
 */
module OperationGate {
  import opened Missions
  import opened Optional
  import opened RunLedger

  datatype ToolStatus = Succeeded | Pending | Denied | Conflicted | Unknown | Failing

  datatype AttemptStatus = AttemptPending | AttemptSucceeded | AttemptUnknown | AttemptFailed

  datatype Attempt = Attempt(
    sequence: nat, viaGateway: bool, status: AttemptStatus, startedAt: int, completedAt: Option<int>)

  datatype Resolution = ResolvedCommitted | DefinitelyAbsent | StillUnknown | ResolvedFailed

  datatype Poll = Poll(sequence: nat, resolution: Resolution, occurredAt: int)

  datatype OperationStatus = OperationPending | OperationClaimed | OperationCommitted | OperationFailed
    | OperationCancelled

  datatype Operation = Operation(
    id: nat, planId: nat, actionId: nat, approvalId: nat, status: OperationStatus,
    attempts: seq<Attempt>, polls: seq<Poll>)
  {
    /** No service writes the status of such an operation again. */
    predicate Final() {
      status in {OperationCommitted, OperationFailed, OperationCancelled}
    }
  }

  /** Plan ids are numbered by revision, so a mission's latest plan never moves to a smaller one. */
  datatype CurrentPlan = CurrentPlan(id: nat, actions: seq<nat>)

  /** The rows the projection reads; operations in insertion order, attempts and polls by sequence. */
  datatype Facts = Facts(plan: Option<CurrentPlan>, approval: Option<nat>, operations: seq<Operation>)

  datatype ViewStatus = Absent | InFlight | OutcomeUnknown | Committed | FailedOutcome

  datatype OperationView = OperationView(status: ViewStatus, reconciliationRequired: bool)

  function UnknownInApplication(attempts: seq<Attempt>): seq<Attempt> {
    if attempts == [] then []
    else (if !attempts[0].viaGateway && attempts[0].status == AttemptUnknown then [attempts[0]] else [])
         + UnknownInApplication(attempts[1..])
  }

  function ForPlan(operations: seq<Operation>, planId: nat): (r: seq<Operation>)
    ensures forall o :: o in r <==> o in operations && o.planId == planId
  {
    if operations == [] then []
    else (if operations[0].planId == planId then [operations[0]] else []) + ForPlan(operations[1..], planId)
  }

  predicate Gapless(o: Operation) {
    && (forall i | 0 <= i < |o.attempts| :: o.attempts[i].sequence == i + 1)
    && (forall i | 0 <= i < |o.polls| :: o.polls[i].sequence == i + 1)
  }

  function ObservedAt(a: Attempt): int {
    if a.completedAt.Some? then a.completedAt.value else a.startedAt
  }

  /** The projection of one operation; None is an integrity error, on which the host fails closed. */
  function ProjectOne(m: MissionState, o: Operation): Option<OperationView> {
    if !Gapless(o) then None
    else
      var unknowns := UnknownInApplication(o.attempts);
      if o.attempts == [] && o.polls == [] && o.status == OperationPending then Some(OperationView(Absent, false))
      else if |unknowns| > 1 then None
      else if o.polls != [] && o.polls[|o.polls| - 1].resolution == ResolvedCommitted then
        if o.status != OperationCommitted || unknowns == [] then None
        else if o.polls[|o.polls| - 1].occurredAt < ObservedAt(unknowns[0]) then None
        else Some(OperationView(Committed, false))
      else if o.status == OperationCommitted then
        Some(if unknowns != [] then OperationView(OutcomeUnknown, true) else OperationView(Committed, false))
      else if o.status == OperationFailed || o.status == OperationCancelled then
        Some(OperationView(FailedOutcome, false))
      else if o.polls != [] && o.polls[|o.polls| - 1].resolution == ResolvedFailed then
        Some(OperationView(FailedOutcome, false))
      else if o.polls != [] && o.polls[|o.polls| - 1].resolution == DefinitelyAbsent then
        if m != MissionState(Running, Execute) then None else Some(OperationView(Absent, false))
      else
        var stillUnknown := || (o.polls != [] && o.polls[|o.polls| - 1].resolution == StillUnknown)
                            || (o.attempts != [] && o.attempts[|o.attempts| - 1].status == AttemptUnknown);
        Some(OperationView(if stillUnknown then OutcomeUnknown else InFlight, true))
  }

  function ProjectOperation(m: MissionState, f: Facts): Option<OperationView> {
    match f.plan
    case None => Some(OperationView(Absent, false))
    case Some(plan) =>
      if |plan.actions| != 1 then None
      else
        var relevant := ForPlan(f.operations, plan.id);
        if exists o <- relevant :: o.actionId != plan.actions[0] || f.approval != Some(o.approvalId) then None
        else if relevant == [] then Some(OperationView(Absent, false))
        else if |relevant| > 1 then None
        else ProjectOne(m, relevant[0])
  }

  predicate OperationExists(f: Facts) {
    f.plan.Some? && exists o <- f.operations :: o.planId == f.plan.value.id
  }

  // ---------------------------------------------------------------- what "resolved" means

  ghost predicate CommittedWithProof(o: Operation) {
    && o.status == OperationCommitted
    && (o.polls != [] && o.polls[|o.polls| - 1].resolution == ResolvedCommitted ==>
          exists a <- o.attempts ::
            && !a.viaGateway && a.status == AttemptUnknown
            && ObservedAt(a) <= o.polls[|o.polls| - 1].occurredAt)
    && (o.polls == [] || o.polls[|o.polls| - 1].resolution != ResolvedCommitted ==>
          forall a <- o.attempts :: a.viaGateway || a.status != AttemptUnknown)
  }

  ghost predicate DefinitelyFailed(o: Operation) {
    || o.status in {OperationFailed, OperationCancelled}
    || (o.polls != [] && o.polls[|o.polls| - 1].resolution == ResolvedFailed && o.status != OperationCommitted)
  }

  ghost predicate ProvedAbsent(m: MissionState, o: Operation) {
    && o.polls != [] && o.polls[|o.polls| - 1].resolution == DefinitelyAbsent
    && o.status in {OperationPending, OperationClaimed}
    && m == MissionState(Running, Execute)
  }

  ghost predicate NeverAttempted(o: Operation) {
    o.attempts == [] && o.polls == [] && o.status == OperationPending
  }

  ghost predicate Resolved(m: MissionState, o: Operation) {
    CommittedWithProof(o) || DefinitelyFailed(o) || ProvedAbsent(m, o) || NeverAttempted(o)
  }

  /** The current plan has one logical operation, and its outcome is settled. */
  ghost predicate OperationSettled(m: MissionState, f: Facts) {
    f.plan.Some? && exists o <- f.operations ::
      && o.planId == f.plan.value.id
      && Resolved(m, o)
      && ForPlan(f.operations, f.plan.value.id) == [o]
  }

  lemma {:induction false} UnknownInApplicationMembers(attempts: seq<Attempt>)
    ensures forall a :: a in UnknownInApplication(attempts)
                        <==> a in attempts && !a.viaGateway && a.status == AttemptUnknown
  {
    if attempts != [] {
      UnknownInApplicationMembers(attempts[1..]);
    }
  }

  /** The projection asks for reconciliation exactly while the operation is not resolved. */
  lemma ProjectOneMeansResolved(m: MissionState, o: Operation)
    requires ProjectOne(m, o).Some?
    ensures ProjectOne(m, o).value.reconciliationRequired <==> !Resolved(m, o)
    ensures ProjectOne(m, o).value.status == Committed <==> CommittedWithProof(o)
    ensures ProjectOne(m, o).value.reconciliationRequired ==>
            ProjectOne(m, o).value.status in {InFlight, OutcomeUnknown}
  {
    UnknownInApplicationMembers(o.attempts);
    var unknowns := UnknownInApplication(o.attempts);
    if |unknowns| == 1 {
      assert unknowns[0] in unknowns;
      assert forall a <- unknowns :: a == unknowns[0];
    }
  }

  lemma ProjectionMeansSettled(m: MissionState, f: Facts)
    requires ProjectOperation(m, f).Some?
    ensures !ProjectOperation(m, f).value.reconciliationRequired <==> (!OperationExists(f) || OperationSettled(m, f))
  {
    if f.plan.Some? {
      var relevant := ForPlan(f.operations, f.plan.value.id);
      assert OperationExists(f) <==> exists o :: o in relevant;
      if relevant != [] {
        assert relevant[0] in relevant;
        assert relevant == [relevant[0]];
        ProjectOneMeansResolved(m, relevant[0]);
      }
    }
  }

  // ---------------------------------------------------------------- the tool gate

  /** The newest completed call of the run: its tool and the status its receipt records. */
  datatype CallOutcome = CallOutcome(tool: Tool, status: ToolStatus) {
    predicate Unresolved() {
      status == Pending || status == Unknown
    }

    predicate RequiresReconciliation() {
      tool.Consequential() && Unresolved()
    }
  }

  /** One loaded projection. `newest` is the raw newest receipt, before it is projected. */
  datatype View = View(
    version: nat, mission: MissionState, facts: Facts, newest: Option<CallOutcome>, operation: OperationView)

  function LastToolResult(v: View): Option<CallOutcome> {
    if v.newest.Some? && v.newest.value.Unresolved() && OperationExists(v.facts)
       && !v.operation.reconciliationRequired
    then None else v.newest
  }

  /** The host's own check on a loaded projection; `reconcile` is its in-memory flag. */
  predicate LoadAccepted(reconcile: bool, v: View) {
    var last := LastToolResult(v);
    var fastCompleted :=
      && reconcile
      && v.mission == MissionState(WaitingForSystem, Observe)
      && v.operation == OperationView(Committed, false)
      && last == None;
    (reconcile || (last.Some? && last.value.RequiresReconciliation())) ==>
      v.operation.reconciliationRequired || fastCompleted
  }

  /** `granted` holds the tools the principal may use, empty when access is denied or integrity is in doubt. */
  function AllowedTools(granted: set<Tool>, v: View, counters: Counters): set<Tool> {
    var last := LastToolResult(v);
    var reconcileOnly :=
      || (last.Some? && last.value.RequiresReconciliation())
      || (last.Some? && last.value.status == Unknown)
      || v.operation.reconciliationRequired;
    set tool <- granted |
      && v.mission.phase in tool.AllowedPhases()
      && (reconcileOnly ==> tool == OperationsGet)
      && (tool == PlansPropose ==> counters.planRevisions < MAX_PLAN_REVISIONS)
      && (tool == OperationsGet ==> counters.polls < MAX_RECONCILIATION_POLLS)
      && counters.toolCalls < MAX_TOOL_CALLS
  }

  ghost predicate ViewConsistent(v: View) {
    ProjectOperation(v.mission, v.facts) == Some(v.operation) && LoadAccepted(false, v)
  }

  /** The in-memory flag only ever makes the check stricter, so a crash that loses it loses no gating. */
  lemma FlagOnlyTightens(v: View)
    requires LoadAccepted(true, v)
    ensures LoadAccepted(false, v)
  {}

  /**
   * Straight after an unresolved consequential call, a projection the host accepts has the call's
   * operation, and any tool but operations.get is open only once that operation is settled.
   */
  lemma GateAfterUnresolvedCall(v: View, granted: set<Tool>, counters: Counters, tool: Tool)
    requires ViewConsistent(v) && v.newest.Some? && v.newest.value.RequiresReconciliation()
    ensures OperationExists(v.facts)
    ensures tool in AllowedTools(granted, v, counters) && tool != OperationsGet ==>
              OperationSettled(v.mission, v.facts)
  {
    ProjectionMeansSettled(v.mission, v.facts);
  }

  /** While the plan's operation exists, any tool but operations.get needs it settled. */
  lemma GateWhileOperationExists(v: View, granted: set<Tool>, counters: Counters, tool: Tool)
    requires ViewConsistent(v) && OperationExists(v.facts)
    requires tool in AllowedTools(granted, v, counters) && tool != OperationsGet
    ensures OperationSettled(v.mission, v.facts)
  {
    ProjectionMeansSettled(v.mission, v.facts);
  }

  // ---------------------------------------------------------------- how the facts may change

  /** Operations are only appended, keep their plan and their final status; the latest plan only advances. */
  ghost predicate Evolves(f: Facts, g: Facts) {
    && (f.plan.Some? ==> g.plan.Some? && f.plan.value.id <= g.plan.value.id)
    && |f.operations| <= |g.operations|
    && (forall k | 0 <= k < |f.operations| ::
          && g.operations[k].id == f.operations[k].id && g.operations[k].planId == f.operations[k].planId
          && (f.operations[k].Final() ==> g.operations[k].status == f.operations[k].status))
  }

  lemma OperationPersists(f: Facts, g: Facts)
    requires Evolves(f, g) && OperationExists(f) && g.plan.Some? && g.plan.value.id == f.plan.value.id
    ensures OperationExists(g)
  {
    var o :| o in f.operations && o.planId == f.plan.value.id;
    var k :| 0 <= k < |f.operations| && f.operations[k] == o;
    assert g.operations[k] in g.operations;
  }

  /** A change outside mission transitions: no plan and no operation is inserted. */
  ghost predicate KeepsRows(f: Facts, g: Facts) {
    Evolves(f, g) && g.plan == f.plan && |g.operations| == |f.operations|
  }

  ghost predicate InsertsForPlan(f: Facts, g: Facts) {
    && (|f.operations| < |g.operations| ==> f.plan.Some?)
    && (forall k | |f.operations| <= k < |g.operations| :: g.operations[k].planId == f.plan.value.id)
  }

  ghost predicate PlanHas(f: Facts, status: OperationStatus) {
    f.plan.Some? && exists o <- f.operations :: o.planId == f.plan.value.id && o.status == status
  }

  /**
   * What the service that emits a mission event writes in the same transaction: a proposal inserts
   * the next plan, an approval its operations, and a mission leaves execute or reconcile with its
   * plan's operation cancelled or committed.
   */
  ghost predicate EventWrites(m: MissionState, event: MissionEvent, f: Facts, g: Facts) {
    && Evolves(f, g)
    && (if event == CandidatePersisted then g.plan.Some? && (f.plan.Some? ==> f.plan.value.id < g.plan.value.id)
        else g.plan == f.plan)
    && (event != ApprovalGranted ==> |g.operations| == |f.operations|)
    && InsertsForPlan(f, g)
    && (event == ApprovalExpiredOrStale && m.phase == Execute ==> PlanHas(g, OperationCancelled))
    && (event == ExecutionCommitted || event == ReconcileCommitFound ==> PlanHas(g, OperationCommitted))
  }

  // ---------------------------------------------------------------- what a projection still implies later

  /** The mission has been in execute or reconcile ever since, so the plan is still the latest. */
  ghost predicate StillExecuting(e: Facts, m: MissionState, f: Facts) {
    m.phase in {Execute, Reconcile} && f.plan == e.plan && |f.operations| == |e.operations|
  }

  ghost predicate BeforeExecution(m: MissionState) {
    m.phase in {Understand, Validate, Approve}
  }

  /** The mission left execute with an operation of the plan final, and the plan gets no other one. */
  ghost predicate PlanClosed(e: Facts, m: MissionState, f: Facts) {
    && e.plan.Some? && f.plan.Some? && |e.operations| <= |f.operations|
    && (f.plan.value.id == e.plan.value.id ==> !BeforeExecution(m))
    && (forall k | |e.operations| <= k < |f.operations| :: f.operations[k].planId != e.plan.value.id)
    && (exists k | 0 <= k < |e.operations| :: f.operations[k].planId == e.plan.value.id && f.operations[k].Final())
  }

  ghost predicate Follows(v: View, m: MissionState, f: Facts) {
    && Evolves(v.facts, f)
    && (v.mission.phase == Execute ==> StillExecuting(v.facts, m, f) || PlanClosed(v.facts, m, f))
  }

  /** One step of mission and facts, as far as later projections depend on it. */
  ghost predicate Advances(m: MissionState, f: Facts, n: MissionState, g: Facts) {
    && Evolves(f, g)
    && (m.phase != Understand ==> n.phase != Understand)
    && (m.phase in {Execute, Reconcile} ==> g.plan == f.plan && |g.operations| == |f.operations|)
    && (m.phase in {Execute, Reconcile} && n.phase !in {Execute, Reconcile} ==>
          !BeforeExecution(n) && f.plan.Some?
          && exists k | 0 <= k < |g.operations| :: g.operations[k].planId == f.plan.value.id && g.operations[k].Final())
    && (!BeforeExecution(m) && BeforeExecution(n) && f.plan.Some? ==> f.plan.value.id < g.plan.value.id)
    && (!BeforeExecution(m) ==> |g.operations| == |f.operations|)
    && InsertsForPlan(f, g)
  }

  lemma FollowsStart(v: View)
    ensures Follows(v, v.mission, v.facts)
  {}

  /** Which events cross the phase borders the gate depends on. */
  lemma PhaseBorders(m: MissionState, event: MissionEvent)
    requires Resolve(m, event).Some?
    ensures var n := Resolve(m, event).value;
            && (m.phase != Understand ==> n.phase != Understand)
            && (event == CandidatePersisted ==> m.phase == Plan)
            && (event == ApprovalGranted ==> m.phase == Approve)
            && (!BeforeExecution(m) && BeforeExecution(n) ==> event == CandidatePersisted)
            && (m.phase in {Execute, Reconcile} && n.phase !in {Execute, Reconcile} ==>
                  && n.phase in {Plan, Observe}
                  && (|| (event == ApprovalExpiredOrStale && m.phase == Execute)
                      || event in {ExecutionCommitted, ReconcileCommitFound}))
  {}

  lemma EventAdvances(m: MissionState, event: MissionEvent, f: Facts, g: Facts, n: MissionState)
    requires Resolve(m, event) == Some(n) && EventWrites(m, event, f, g)
    ensures Advances(m, f, n, g)
  {
    PhaseBorders(m, event);
    if m.phase in {Execute, Reconcile} && n.phase !in {Execute, Reconcile} {
      var status := if event == ApprovalExpiredOrStale then OperationCancelled else OperationCommitted;
      assert PlanHas(g, status);
      var o :| o in g.operations && o.planId == f.plan.value.id && o.status == status;
      var k :| 0 <= k < |g.operations| && g.operations[k] == o;
      assert g.operations[k].Final();
    }
  }

  lemma FollowsAdvance(v: View, m: MissionState, f: Facts, n: MissionState, g: Facts)
    requires Follows(v, m, f) && Advances(m, f, n, g)
    ensures Follows(v, n, g)
  {
    if v.mission.phase == Execute {
      if StillExecuting(v.facts, m, f) {
        if n.phase !in {Execute, Reconcile} {
          assert PlanClosed(v.facts, n, g);
        }
      } else {
        var k :| 0 <= k < |v.facts.operations| && f.operations[k].planId == v.facts.plan.value.id
          && f.operations[k].Final();
        assert g.operations[k].Final();
        assert PlanClosed(v.facts, n, g);
      }
    }
  }

  /** The one operation of a plan that has been replaced: its outcome can no longer change. */
  ghost predicate Concluded(f: Facts, planId: nat) {
    exists o <- f.operations :: o.Final() && ForPlan(f.operations, planId) == [o]
  }

  lemma {:induction false} ForPlanKept(before: seq<Operation>, after: seq<Operation>, planId: nat)
    requires |before| <= |after| && forall k | 0 <= k < |before| :: after[k].planId == before[k].planId
    requires forall k | |before| <= k < |after| :: after[k].planId != planId
    ensures |ForPlan(after, planId)| == |ForPlan(before, planId)|
  {
    if before != [] {
      ForPlanKept(before[1..], after[1..], planId);
    } else if after != [] {
      ForPlanKept(before, after[1..], planId);
    }
  }

  lemma OneOperationSeen(v: View)
    requires ViewConsistent(v) && v.facts.plan.Some?
    ensures |ForPlan(v.facts.operations, v.facts.plan.value.id)| <= 1
  {}

  lemma SoleOperation(operations: seq<Operation>, planId: nat, o: Operation)
    requires o in operations && o.planId == planId && |ForPlan(operations, planId)| <= 1
    ensures ForPlan(operations, planId) == [o]
  {
    assert o in ForPlan(operations, planId);
  }

  /** Once a newer plan is in force, the operation of the plan a projection in execute saw is concluded. */
  lemma ReplacedPlanIsConcluded(v: View, m: MissionState, f: Facts)
    requires v.mission.phase == Execute && Follows(v, m, f)
    requires v.facts.plan.Some? && |ForPlan(v.facts.operations, v.facts.plan.value.id)| <= 1
    requires f.plan != v.facts.plan && f.plan.value.id != v.facts.plan.value.id
    ensures Concluded(f, v.facts.plan.value.id)
  {
    var planId := v.facts.plan.value.id;
    assert PlanClosed(v.facts, m, f);
    ForPlanKept(v.facts.operations, f.operations, planId);
    var k :| 0 <= k < |v.facts.operations| && f.operations[k].planId == planId && f.operations[k].Final();
    SoleOperation(f.operations, planId, f.operations[k]);
  }
}
