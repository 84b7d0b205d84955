/** The mission state machine shared by the host and the run store. */
module Missions {
  import opened Optional

  datatype MissionStatus =
    Queued | Running | WaitingForUser | WaitingForSystem | MissionSucceeded | MissionFailed | MissionCancelled

  datatype Phase = Understand | Plan | Validate | Approve | Execute | Reconcile | Observe | Verify

  datatype MissionState = MissionState(status: MissionStatus, phase: Phase) {
    predicate Terminal() {
      status in {MissionSucceeded, MissionFailed, MissionCancelled}
    }
  }

  datatype MissionEvent =
    | LeaseAcquired | ContextSufficient | MaterialAmbiguity | ClarificationAnswered | UserResponseExpired
    | CandidatePersisted | ValidationFailed | ValidationPassed | ApprovalRejected | ApprovalExpiredOrStale
    | ApprovalGranted | ExecutionCommitted | ExecutionUnknown | ExecutionNonRetryableFailure
    | ReconcileCommitFound | ReconcileAbsentRetryable | ReconcileBudgetExhausted | ReconcileRetryAuthorized
    | ReconcileStopped | EvidenceArrived | ObservationDeadlineExpired | VerificationPassed
    | SafeCorrectionAvailable | InterventionRequired | CorrectiveWorkRequested | TerminalResultAcknowledged
    | LeaseLost | CancelRequested | CancelReconciliationRequired | CancelReconciliationCompleted

  /** The transition table; None is the source's InvalidMissionTransitionError. */
  function Resolve(m: MissionState, event: MissionEvent): Option<MissionState> {
    if m.Terminal() then None
    else if event == LeaseLost then Some(m)
    else if event == CancelRequested then Some(MissionState(MissionCancelled, m.phase))
    else
      match (m.status, m.phase, event)
      case (Queued, Understand, LeaseAcquired) => Some(MissionState(Running, Understand))
      case (Running, Understand, ContextSufficient) => Some(MissionState(Running, Plan))
      case (Running, Plan, MaterialAmbiguity) => Some(MissionState(WaitingForUser, Plan))
      case (WaitingForUser, Plan, ClarificationAnswered) => Some(MissionState(Running, Plan))
      case (WaitingForUser, Plan, UserResponseExpired) => Some(MissionState(MissionCancelled, Plan))
      case (Running, Plan, CandidatePersisted) => Some(MissionState(Running, Validate))
      case (Running, Validate, ValidationFailed) => Some(MissionState(Running, Plan))
      case (Running, Validate, ValidationPassed) => Some(MissionState(WaitingForUser, Approve))
      case (WaitingForUser, Approve, ApprovalRejected) => Some(MissionState(Running, Plan))
      case (WaitingForUser, Approve, ApprovalExpiredOrStale) => Some(MissionState(Running, Plan))
      case (WaitingForUser, Approve, ApprovalGranted) => Some(MissionState(Running, Execute))
      case (Running, Execute, ApprovalExpiredOrStale) => Some(MissionState(Running, Plan))
      case (Running, Execute, ExecutionCommitted) => Some(MissionState(WaitingForSystem, Observe))
      case (Running, Execute, ExecutionUnknown) => Some(MissionState(Running, Reconcile))
      case (Running, Execute, ExecutionNonRetryableFailure) => Some(MissionState(MissionFailed, Execute))
      case (Running, Reconcile, ReconcileCommitFound) => Some(MissionState(WaitingForSystem, Observe))
      case (Running, Reconcile, ReconcileAbsentRetryable) => Some(MissionState(Running, Execute))
      case (Running, Reconcile, ReconcileBudgetExhausted) => Some(MissionState(WaitingForUser, Reconcile))
      case (WaitingForUser, Reconcile, ReconcileRetryAuthorized) => Some(MissionState(Running, Execute))
      case (WaitingForUser, Reconcile, ReconcileStopped) => Some(MissionState(MissionCancelled, Reconcile))
      case (WaitingForSystem, Observe, EvidenceArrived) => Some(MissionState(Running, Verify))
      case (WaitingForSystem, Observe, ObservationDeadlineExpired) => Some(MissionState(Running, Verify))
      case (Running, Verify, VerificationPassed) => Some(MissionState(MissionSucceeded, Verify))
      case (Running, Verify, SafeCorrectionAvailable) => Some(MissionState(Running, Plan))
      case (Running, Verify, InterventionRequired) => Some(MissionState(WaitingForUser, Verify))
      case (WaitingForUser, Verify, CorrectiveWorkRequested) => Some(MissionState(Running, Plan))
      case (WaitingForUser, Verify, TerminalResultAcknowledged) => Some(MissionState(MissionFailed, Verify))
      case (Running, Execute, CancelReconciliationRequired) => Some(MissionState(Running, Reconcile))
      case (Running, Reconcile, CancelReconciliationRequired) => Some(MissionState(Running, Reconcile))
      case (WaitingForSystem, Observe, CancelReconciliationRequired) => Some(MissionState(Running, Reconcile))
      case (Running, Reconcile, CancelReconciliationCompleted) => Some(MissionState(MissionCancelled, Reconcile))
      case _ => None
  }
}
