/** The dispatcher's claim ledger and its tool-call receipts. */
module InvocationLedger {
  import opened Optional
  import opened RunLedger
  import opened OperationGate

  const CLAIM_TTL_MILLISECONDS: nat := 30_000

  /** A tool result; `transient` marks the codes CALL_IN_PROGRESS and RECONCILIATION_PENDING. */
  datatype Outcome = Outcome(status: ToolStatus, transient: bool, evidence: set<nat>)

  datatype Disposition = RunHandler | ResolveUnknown

  datatype Invocation = Invocation(
    call: Call, generation: nat, disposition: Disposition, expiresAt: nat, outcome: Option<Outcome>)

  type Ledger = map<CallId, Invocation>

  datatype ClaimResult =
    | Granted(disposition: Disposition, generation: nat)
    | InProgress
    | AlreadyCompleted(outcome: Outcome)
    | Rebound

  /** An abandoned claim of a write is never executed again: it may only be resolved as unknown. */
  function Claim(ledger: Ledger, now: nat, call: Call): (Ledger, ClaimResult) {
    if call.id !in ledger then
      (ledger[call.id := Invocation(call, 1, RunHandler, now + CLAIM_TTL_MILLISECONDS, None)], Granted(RunHandler, 1))
    else
      var row := ledger[call.id];
      if row.call != call then (ledger, Rebound)
      else if row.outcome.Some? then (ledger, AlreadyCompleted(row.outcome.value))
      else if row.expiresAt > now then (ledger, InProgress)
      else
        var disposition := if call.tool.ReadOnly() then RunHandler else ResolveUnknown;
        (ledger[call.id := Invocation(call, row.generation + 1, disposition, now + CLAIM_TTL_MILLISECONDS, None)],
         Granted(disposition, row.generation + 1))
  }

  datatype CompleteResult = Recorded | LostClaim | CompletionRefused

  function Complete(ledger: Ledger, call: Call, generation: nat, outcome: Outcome): (Ledger, CompleteResult) {
    if call.id !in ledger then (ledger, CompletionRefused)
    else
      var row := ledger[call.id];
      if row.outcome.Some? then
        (ledger, if row.generation == generation && row.outcome == Some(outcome) then Recorded else LostClaim)
      else if row.generation != generation then (ledger, LostClaim)
      else if row.disposition == ResolveUnknown && (outcome.status != Unknown || outcome.evidence == {}) then
        (ledger, CompletionRefused)
      else (ledger[call.id := row.(outcome := Some(outcome))], Recorded)
  }

  /** Contract and input hashes are injective, so they are the tool and the input themselves. */
  datatype Receipt = Receipt(
    tool: Tool, input: nat, outcome: Outcome, inProcess: bool, tenant: nat, contract: Tool, currentRegistry: bool)

  function ReceiptFor(call: Call, outcome: Outcome, tenant: nat): Receipt {
    Receipt(call.tool, call.input, outcome, true, tenant, call.tool, true)
  }

  /** The checks a projection load repeats on every reserved call. */
  predicate ProjectedBinding(r: Receipt, call: Call, tenant: nat) {
    && r.tool == call.tool
    && r.inProcess
    && r.tenant == tenant
    && r.input == call.input
    && r.contract == call.tool
    && r.currentRegistry
    && (r.outcome.status == Unknown ==> r.outcome.evidence != {})
  }

  /** The port's checks against the dispatcher result; the host's own are a subset of these. */
  predicate ResultBinding(r: Receipt, call: Call, outcome: Outcome, tenant: nat) {
    ProjectedBinding(r, call, tenant) && r.outcome == outcome
  }
}
