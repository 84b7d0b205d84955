# Caretaker and gateway verification

A Dafny 4.11 model of the parts of the Trash Palace repository that must do a consequential action
once even though a reply, a lease or a process can be lost, with proofs about every run of those
parts. `dafny verify dfyconfig.toml` checks the whole project.

## What is modelled

**The Caretaker host as a crash-safe protocol.** `Missions`, `RunLedger`, `OperationGate` and
`InvocationLedger` hold the durable parts: the mission transition table, the compare-and-swap
checkpoint store with its pending-call rules, the projection of the operation a plan started, the
tool gate, and the dispatcher's claim ledger. `CaretakerHost` is the protocol over them: any number
of activations and dispatcher calls interleave, each step is one durable write, one fenced read or
one reply, and an activation or a call can vanish between any two steps, which also stands for every
error that escapes. `HostInvariant` and `HostSteps` prove an invariant over all steps,
`HostTheorems` what it means for whole executions, and `StaleInvocation` plays one execution through
to show a claim that does not hold. `ToolReservations` and `ReceiptMatcher` are two of the passes a
projection makes over durable records.

**At-least-once delivery made exactly-once.** `GatewaySimulator`, `CallbackDelivery` and
`CallbackInbox` are the three stateful classes, each proved against a function of its state;
`DeliveryRuns` and `ExactlyOnce` prove what holds over every interleaving, alone and composed.
`RetryTiming` bounds one delivery's time, and `ResumeChain` follows the resume jobs of a mission.

**The context compiler.** `ContextClosure` is the depth-first dependency closure, `ContextSelection`
the budgeted selection built on it.

**Transformations and parsers.** `ProviderSchema` is the schema rewriting judged by a validity
relation (JSON Schema Core 2020-12, sections 10.2 and 10.3, and JSON Schema Validation 2020-12, section 6),
`BatchBlobs` the reader of git's batch stream, and `TarArchive` the archive reader against the
"ustar Interchange Format" section of POSIX.1 pax.

**Arithmetic and counting.** `ClockDriver` bounds how far accelerated time trails its anchor, and
`Promotion` holds the promotion scorer's counting argument. `Optional` and `FiniteSets` are what
several modules share.

## Claims that do not hold as promised

- *A tool is invoked only while it is the durable pending call.* A host whose lease was replaced can
  still start a call that its successor has finished (`StaleInvocation.StaleHostInvokesFinishedCall`).
  The call was pending at the host's snapshot, and it still is exactly when no result checkpoint has
  been written since (`HostTheorems.InvocationsAreReserved`). The handler of a write does not run
  again (`HostTheorems.WritesHappenAtMostOnce`).
- *The tool-call counter equals the number of dispatched call ids.* A successor run starts from
  inherited counters, so it is the inherited count plus that number.
- *A command reaches the device at most once.* When the virtual clock has no room for the effect, the
  device has already been changed, the dispatch throws, nothing is recorded, and a retry changes the
  device again (`ExactlyOnce.FullClockAppliesTwice`). From a dispatch that changes the device on, the
  claim holds for its command, whatever follows, if and only if the clock has a free task at that
  dispatch (`ExactlyOnce.AtMostOnceNeedsRoom`), so it holds in every run with a free task at each of
  them (`ExactlyOnce.RoomMeansAtMostOnce`).
- *A drain without error means that everything accepted was delivered.* It does if and only if
  `start` is not called before the drain returns (`DeliveryRuns.CleanDrainExactly`); otherwise a
  callback accepted after the restart can be left behind.
- *The resume jobs of a mission form one line.* They form one line for each job published for the
  mission, so one line if and only if one job was published (`ResumeChain.MissionHasOneLine`); a second
  publication starts a second line (`ResumeChain.SecondPublishStartsALine`).
- *The receipt matcher accepts whenever a one-to-one correspondence exists.* This holds for a bundle
  if and only if none of its section hashes is also a snapshot hash (`ReceiptMatcher.MatcherIsExact`).
- *Dropping schema keywords only weakens a schema.* Not below `not` (`ProviderSchema.NegationBreaksIt`).
  A negated subschema never rejects more if and only if its sanitized form accepts nothing more
  (`ProviderSchema.NegationExactly`), which is the exact condition at one keyword. At every depth,
  `ProviderSchema.SanitizedWeaker` carries the claim. Its condition on the schema (no dropped keyword,
  no merged union and no overlapping branches where a `not` turns the side around) is given one way: a
  schema that fails it may still only be weakened, for instance when a limit below a `not` limits
  nothing.

## Model

| member | source | states |
|---|---|---|
| RunLedger.PendingStretch | packages/application/src/caretaker-run-ledger.ts:202-256 | a call is pending over one unbroken stretch that starts right after the version its id names, with the reservation kind its tool demands |
| RunLedger.ReservationsDistinct | packages/agent/src/caretaker-host.ts:1548-1558 | two checkpoints that hold the same call id hold the same call, without a gap; two reservations never share an id |
| RunLedger.ToolCallIsFresh | packages/agent/src/caretaker-host.ts:914-942 | a tool_call checkpoint is only ever written for an id that holds none |
| RunLedger.ToolCallsCounted | packages/application/src/caretaker-run-ledger.ts:169-200 | the tool-call counter is the inherited count plus the ids holding a tool_call checkpoint |
| RunLedger.OneToolCallPerId | packages/agent/src/caretaker-host.ts:857-942 | no call id holds two tool_call checkpoints |
| RunLedger.PendingDispatched | packages/agent/src/caretaker-host.ts:1094-1141 | a pending call's id holds a tool_call checkpoint exactly when its last own checkpoint is not the semantic one |
| RunLedger.StretchesBounded | packages/db/src/caretaker-run-repository.ts:714-967 | reservations, cleared calls and the tool-call counter add up, so a run reserves and clears at most 24 calls |
| OperationGate.ProjectOneMeansResolved | packages/agent/src/caretaker-runtime-adapters.ts:1015-1114 | the projection asks for reconciliation exactly while the operation is not committed with proof, failed, proved absent or never attempted |
| OperationGate.ProjectionMeansSettled | packages/agent/src/caretaker-runtime-adapters.ts:1015-1114 | for the whole plan: no reconciliation required if and only if there is no operation or the one operation is settled |
| OperationGate.GateAfterUnresolvedCall | packages/agent/src/caretaker-host.ts:382-401 | an accepted projection right after an unresolved consequential call has the call's operation, and opens another tool only once it is settled |
| OperationGate.GateWhileOperationExists | packages/agent/src/caretaker-host.ts:1198-1240 | while the plan's operation exists, any tool but operations.get needs it settled |
| HostInvariant.SaveExtends | packages/db/src/caretaker-run-repository.ts:714-967 | an applied checkpoint write was made at the current version and is a legal continuation of the history |
| HostInvariant.LoadMoves | packages/agent/src/caretaker-runtime-adapters.ts:400-443 | a loaded projection is consistent with history, receipts and facts, and is later than every logged reservation it covers |
| HostSteps.ReserveReserves | packages/agent/src/caretaker-host.ts:857-912 | a reservation write is made at the version after its projection, for a tool that passed that projection's gate |
| HostSteps.StepKeeps | packages/agent/src/caretaker-host.ts:321-643 | every step, crashes and conflicts included, keeps the invariant |
| HostSteps.ExecutionKeeps | packages/agent/src/caretaker-host.ts:321-643 | the invariant holds in every state of every execution |
| HostTheorems.CallsCountedOnce | packages/agent/src/caretaker-host.ts:857-942 | in every state of every execution: the counter equation, one tool_call checkpoint per id, no shared reservation id |
| HostTheorems.CountersWithinLimits | packages/application/src/models.ts:110-118 | in every durable state all five counters are within their limits |
| HostTheorems.OpenToolFitsBudget | packages/agent/src/caretaker-host.ts:1226-1238 | a tool the gate lets through always fits the counters, and its reservation is a legal counter transition |
| HostTheorems.InvocationsAreReserved | packages/agent/src/caretaker-host.ts:914-965 | an invoked call was the durable pending one at the snapshot with its tool_call checkpoint stored, and still is pending exactly when no result checkpoint followed |
| HostTheorems.RecoveryReadsLastAction | packages/agent/src/caretaker-host.ts:1094-1114 | a restarted host reads the pending call's last own checkpoint back, past any number of lease replacements |
| HostTheorems.PendingCallIsAlwaysResumed | packages/agent/src/caretaker-host.ts:1094-1141 | an activation on the newest version resumes a pending call whatever crashed before, writing tool_call exactly when it is missing |
| HostTheorems.EveryReservationIsBound | packages/agent/src/caretaker-runtime-adapters.ts:426-443 | with no call pending, every call ever reserved has a receipt that passes all projection checks |
| HostTheorems.UnresolvedCallClosesTheGate | packages/agent/src/caretaker-host.ts:382-401 | after an unresolved consequential call, every later reservation is operations.get or was decided on a projection in which the operation of the call's own plan is settled; once another plan is in force, its sole operation is committed, failed or cancelled |
| OperationGate.ReplacedPlanIsConcluded | packages/application/src/operation-service.ts:829-860 | a plan seen in execute is only ever replaced after its one operation has become final, and it stays final |
| HostTheorems.FinishedCallsWereDispatched | packages/agent/src/caretaker-host.ts:914-1060 | in every state of every execution, a call that is no longer pending had its tool_call checkpoint and its result checkpoint |
| HostTheorems.WritesHappenAtMostOnce | packages/db/src/repositories.ts:5782-5898 | handlers of writing tools run at most once per call id, only for dispatched ids, and no more often than the run was charged |
| HostTheorems.ExhaustionNeedsConflicts | packages/agent/src/caretaker-host.ts:57 | an activation with at most maxToolCalls + 14 version conflicts never runs out of its 3 * maxToolCalls + 16 steps |
| StaleInvocation.StaleHostInvokesFinishedCall | packages/agent/src/caretaker-host.ts:945-949 | a reachable state in which a replaced host invokes a call that is no longer pending |
| ToolReservations.Collect | packages/agent/src/caretaker-runtime-adapters.ts:662-678 | fails exactly when a call id is rebound; otherwise lists every reserved call once, at its last checkpoint, in order |
| ToolReservations.LegalNeverRebinds | packages/agent/src/caretaker-runtime-adapters.ts:662-678 | a history the host can write never rebinds a call id |
| ToolReservations.ListedCallsSuffice | packages/agent/src/caretaker-runtime-adapters.ts:426-443 | checking the receipts of the listed calls checks every checkpoint that ever held a call |
| ToolReservations.LastListedIsLastReserved | packages/agent/src/caretaker-runtime-adapters.ts:1143-1160 | the last listed call is the one reserved last |
| ReceiptMatcher.Consume | packages/agent/src/caretaker-runtime-adapters.ts:777-786 | picks the first unmatched source that fits, and reports failure only if none does |
| ReceiptMatcher.Bind | packages/agent/src/caretaker-runtime-adapters.ts:775-814 | accepts exactly when consuming the components in order empties the unmatched set |
| ReceiptMatcher.AcceptanceMeansCorrespondence | packages/agent/src/caretaker-runtime-adapters.ts:775-814 | acceptance means a one-to-one onto correspondence, for every order of both sides |
| ReceiptMatcher.ClashIsFatal | packages/agent/src/caretaker-runtime-adapters.ts:796-810 | when a section and a snapshot share a hash, some corresponding receipt is rejected |
| ReceiptMatcher.MatcherIsExact | packages/agent/src/caretaker-runtime-adapters.ts:775-814 | acceptance equals correspondence for all receipts if and only if no section shares a snapshot's hash |
| GatewaySimulator.Simulator.DispatchCommand | apps/gateway-simulator/src/simulator.ts:124-177 | the imperative dispatch computes the dispatch function, the clock's bound error included |
| GatewaySimulator.Simulator.RunTask | apps/gateway-simulator/src/simulator.ts:391-453 | running the clock's next task computes the task function: capture, copies, or one delivery signed once |
| CallbackInbox.CallbackInbox.IngestCallback | apps/gateway-simulator/src/callback-inbox.ts:53-105 | the imperative ingest computes the verdict and the new maps of the ingest function |
| CallbackDelivery.BoundedDelivery.EnqueueCallback | apps/gateway-simulator/src/callback-delivery.ts:118-173 | the imperative enqueue computes the reply and the new tracking state |
| CallbackDelivery.BoundedDelivery.Evict | apps/gateway-simulator/src/callback-delivery.ts:232-240 | makes room by dropping the oldest delivered record, or changes nothing and says so |
| DeliveryRuns.TrackingIsBounded | apps/gateway-simulator/src/callback-delivery.ts:118-173 | under any interleaving: the bound holds, failed and pending records are never evicted, an id has one live process |
| DeliveryRuns.CleanDrainMeansDelivered | apps/gateway-simulator/src/callback-delivery.ts:175-216 | a clean drain means no failure, conflict or refusal ever, and everything accepted before it delivered; everything at all unless restarted meanwhile |
| DeliveryRuns.CleanDrainExactly | apps/gateway-simulator/src/callback-delivery.ts:175-216 | from every reachable state, a drain that returns without error leaves nothing undelivered if and only if start is not called before it returns, or an earlier failure keeps it from returning without error |
| DeliveryRuns.RestartDuringDrainLeavesCallback | apps/gateway-simulator/src/callback-delivery.ts:175-183 | a run in which a clean drain leaves a callback undelivered because start was called during it |
| DeliveryRuns.ConsistentSendersNeverConflict | apps/gateway-simulator/src/callback-delivery.ts:130-142 | senders that never reuse an id with another payload never see a conflict |
| ExactlyOnce.EmittedOncePerCommand | apps/gateway-simulator/src/simulator.ts:401-452 | copies of one command's callback are identical down to the signature, ids and nonces belong to one command, and the binding matches the stored command |
| ExactlyOnce.DeviceAppliesAtMostOnce | apps/gateway-simulator/src/simulator.ts:124-177 | over any run, a command id reaches the device again only if an earlier dispatch of it threw |
| ExactlyOnce.RoomMeansRecorded | packages/testkit/src/virtual-clock.ts:102-104 | a new admitted command's dispatch is recorded exactly when the clock has room for its tasks |
| ExactlyOnce.RoomMeansAtMostOnce | apps/gateway-simulator/src/simulator.ts:124-177 | each command id reaches the device at most once in a run whose clock has a free task at every dispatch that changes the device |
| ExactlyOnce.AtMostOnceNeedsRoom | packages/testkit/src/virtual-clock.ts:102-104 | in every state, a dispatch that changes the device is the last to change it for its command, whatever follows, if and only if the clock has a free task |
| ExactlyOnce.FullClockAppliesTwice | apps/gateway-simulator/src/simulator.ts:174-176 | a run in which a full clock makes one command reach the device twice |
| ExactlyOnce.RepeatsGetTheFirstResult | apps/gateway-simulator/src/simulator.ts:134-145 | over any run, a repeat gets the first result and changes nothing; other data under the id is refused |
| ExactlyOnce.InboxAcceptsExactlyOnce | apps/gateway-simulator/src/callback-inbox.ts:80-105 | however copies are repeated and reordered, the first verified copy is accepted, every other is a duplicate, and no conflict is reported |
| ExactlyOnce.EmittedCallbacksNeverConflict | apps/gateway-simulator/src/callback-delivery.ts:130-142 | the delivery queue fed by the simulator never reports a conflict |
| RetryTiming.Deliver | apps/gateway-simulator/src/callback-delivery.ts:258-303 | at most maximumAttempts requests, stopping at the first final response, with the exact request and pause time |
| RetryTiming.TimeBounded | apps/gateway-simulator/src/callback-delivery.ts:258-310 | with requests bounded by their timeout the time is at most the worst case, which is reached |
| RetryTiming.WorstCase | apps/gateway-simulator/src/configuration.ts:225-235 | the map-and-sum computes the worst-case delivery time |
| RetryTiming.PausesClosedForm | apps/gateway-simulator/src/configuration.ts:231-233 | the pauses sum to a geometric series up to the cap and the maximum from there on |
| RetryTiming.Accepts | apps/gateway-simulator/src/configuration.ts:67-107 | a configuration is accepted exactly when both deliveries fit the shutdown timeout |
| RetryTiming.DeliverBeforeShutdown | apps/gateway-simulator/src/configuration.ts:93-105 | a configuration is accepted if and only if its pauses are ordered and every callback and identity delivery, whatever the responses, is over within the shutdown timeout |
| ResumeChain.QueueAdapter.PublishSuccessor | apps/worker/src/pg-boss-adapter.ts:146-158 | stores the successor under the id computed from the predecessor, or reports a duplicate and changes nothing |
| ResumeChain.JobsFormLines | apps/worker/src/pg-boss-adapter.ts:197-209 | over any run, all jobs lie on gapless lines for one mission each, with one job per depth and per predecessor |
| ResumeChain.RetriedJobsHaveSuccessors | apps/worker/src/worker-runtime.ts:261-268 | a job acknowledged after retry already has its successor stored, for the same mission |
| ResumeChain.LastJobIsNotDropped | apps/worker/src/worker-runtime.ts:213-269 | the last job of a line is only ever acknowledged with a settled outcome |
| ResumeChain.MissionHasOneLine | apps/worker/src/pg-boss-adapter.ts:197-209 | the jobs of a mission form one line if and only if one job was published for it |
| ResumeChain.SecondPublishStartsALine | apps/worker/src/pg-boss-adapter.ts:108-119 | a run in which two jobs published for one mission start two lines |
| ResumeChain.SecondStoreNeedsRetire | apps/worker/src/pg-boss-adapter.ts:146-158 | an id is stored a second time only after the job stored under it was retired in between |
| ContextClosure.Resolver.VisitSource | packages/agent/src/context-compiler.ts:181-192 | the recursive visit computes the traversal function on any acyclic catalog |
| ContextClosure.ResolveClosure | packages/agent/src/context-compiler.ts:176-200 | the imperative closure computes the closure function |
| ContextClosure.ClosureIsReachability | packages/agent/src/context-compiler.ts:176-200 | the closure is exactly what the roots reach, each once, dependencies first; it fails exactly when an unknown source is reachable |
| ContextClosure.ClosureIsCanonical | packages/agent/src/context-compiler.ts:185-198 | the closure depends on the set of roots and the dependency sets alone |
| ContextSelection.SortingKeepsUsage | packages/agent/src/context.ts:493-521 | sorting the sections is a permutation and leaves the measured usage unchanged |
| ContextSelection.AllOrNothing | packages/agent/src/context-compiler.ts:383-423 | an optional root brings in its whole missing closure within the budget, or nothing and one exclusion |
| ContextSelection.EveryRootAccounted | packages/agent/src/context-compiler.ts:383-423 | at the end every optional root is excluded with a reason or has its whole closure selected |
| ContextSelection.FinalCheckIsMandatoryCheck | packages/agent/src/context-compiler.ts:425-428 | the final budget check fails exactly when the mandatory closure alone is over budget |
| ContextSelection.SnapshotsWithinBudget | packages/agent/src/context-compiler.ts:430-463 | every runtime snapshot is kept or excluded once, and what is kept stays within all seven limits |
| ContextSelection.Compile | packages/agent/src/context-compiler.ts:315-463 | which inputs fail and with which error and reason, and that a bundle is within budget, ordered, duplicate-free, dependency-closed and accounts for every root and snapshot |
| ProviderSchema.SanitizeSchema | packages/agent/src/claude-decision-engine.ts:428-444 | the loops compute the sanitizing function |
| ProviderSchema.SanitizedWeaker | packages/agent/src/claude-decision-engine.ts:388-444 | every value valid under a schema is valid under its sanitized form, where nothing below a `not` is dropped or merged, each further `not` turning this around |
| ProviderSchema.NotFreeIsOneSided | packages/agent/src/claude-decision-engine.ts:388-444 | a schema without `not` meets that condition whatever is dropped from it |
| ProviderSchema.SanitizedStronger | packages/agent/src/claude-decision-engine.ts:388-444 | the other side: nothing valid under the sanitized form is lost from a schema that must not grow |
| ProviderSchema.NegationExactly | packages/agent/src/claude-decision-engine.ts:428-444 | for any subschema, its negation never rejects more after sanitizing if and only if the sanitized subschema accepts nothing more |
| ProviderSchema.NegationBreaksIt | packages/agent/src/claude-decision-engine.ts:428-444 | a schema with `not` whose sanitized form rejects a value it accepts |
| ProviderSchema.SanitizedMeansTheSame | packages/agent/src/claude-decision-engine.ts:416-444 | without dropped keywords, sibling unions and overlapping oneOf branches the meaning is unchanged |
| ProviderSchema.OneOfNeedsDisjointBranches | packages/agent/src/claude-decision-engine.ts:416-423 | for a union of such branches the rewriting keeps the meaning if and only if the branches are disjoint |
| ProviderSchema.SanitizingIsIdempotent | packages/agent/src/claude-decision-engine.ts:428-444 | sanitizing twice is sanitizing once, for every JSON value |
| BatchBlobs.ParseBatchBlobs | scripts/git-index-source.ts:109-137 | the loop computes the parse function |
| BatchBlobs.ParserAcceptsFramesOnly | scripts/git-index-source.ts:109-137 | a stream parses to a list of blobs if and only if it is tiled by their announced frames, in order, with no byte left |
| BatchBlobs.PrintedBlobsReadBack | scripts/git-index-source.ts:109-137 | what git prints for any objects parses back to their blobs, whatever bytes they hold |
| TarArchive.TarEntries | scripts/publication-safety.ts:342-376 | the loop computes the reading function on any input, so it terminates |
| TarArchive.SafeArchivePathIsSafe | scripts/publication-safety.ts:235-247 | an accepted path is relative, free of dot components and backslashes, in normal form, and is kept when read again |
| TarArchive.ReaderStaysWithinLimits | scripts/publication-safety.ts:360-373 | on any input the entries stay within the count, entry-size and total-size limits |
| TarArchive.ReaderReturnsSafePaths | scripts/publication-safety.ts:352-371 | on any input every returned path is safe |
| TarArchive.HeaderReadsBack | scripts/publication-safety.ts:346-358 | a ustar header of a printable file is read back as its path and size |
| TarArchive.ArchiveReadsBack | scripts/publication-safety.ts:342-376 | a ustar archive of safe, in-limit regular files reads back to exactly those files |
| ClockDriver.VirtualClockDriver.BeginAcceleratedTime | apps/gateway-simulator/src/clock-driver.ts:134-149 | the jump to the anchored time and the interval timer, or failure when the clock would move back |
| ClockDriver.TrailIsRounding | apps/gateway-simulator/src/clock-driver.ts:134-149 | the trail is exactly the rounding of the jump plus the unfinished interval |
| ClockDriver.DrivenClockTrailsByLessThanAMinute | apps/gateway-simulator/src/clock-driver.ts:80-105 | for every late start and later instant the clock is never ahead and less than a virtual minute behind |
| ClockDriver.BoundNeedsTheRateLimit | apps/gateway-simulator/src/clock-driver.ts:31-37 | that bound holds for every late start if and only if the rate is at most 60000 milliseconds |
| ClockDriver.SharedAnchorKeepsClocksTogether | apps/gateway-simulator/src/clock-driver.ts:134-149 | two drivers of one anchor never differ by a virtual minute |
| Promotion.ScorePromotion | evals/live/promotion-contract.ts:53-116 | the loops pass exactly when every check of the chosen scorer holds, and report no violation exactly then |
| Promotion.CountingArgument | evals/live/promotion-contract.ts:61-65 | runs of catalogued cases never exceed the results, and equal them only if nothing else ran |
| Promotion.PassingMeansExactCorpus | evals/live/promotion-contract.ts:53-145 | a pass means exactly the required distinct repetitions of each catalogued case and nothing else, all clean and safe as the risk class demands, and nothing more |
| Promotion.MutationsOnlyWeaken | evals/live/promotion-contract.ts:118-145 | every mutated scorer passes whatever the real scorer passes |

## Left out

- Mission, run, tenant and channel identities, evidence references, task ledger and decision content: carried unchanged by the code modelled here; one run of one mission is modelled, and any decision accepted for the request may be taken.
- The `resume` loop as a method: it is modelled on values as steps of a protocol, because the property is about interleavings of several activations; its step counter and its in-memory flag are part of each worker.
- Replayed store answers for an equal mutation key: a write whose answer is lost is a write followed by the activation vanishing.
- Frozen-context projection, knowledge replay, plan and verification projections: reads that add no state to the protocol.
- Permissions and the dispatcher's authorization: the set of granted tools is an input of each reservation.
- Elapsed time inside the host: each measured runtime is an input between the snapshot's value and the ceiling.
- InvocationLedger: claims are modelled per run, with the contract and registry hashes of the running build only.
- OperationGate.ReplacedPlanIsConcluded: each mission event is tied to the operation of the latest plan. The services are handed an operation or plan id, which names that operation whenever the plan has a single action, the only kind the projection accepts; no service emits an event that returns a mission from verify to planning, though the model allows it.
- GatewaySimulator: what a device answers, what it observes and what the admission hook says are inputs; malformed commands, invalid signature clocks and evidence that fails its own schema are not modelled; cancelling clock tasks is not used by the simulator.
- CallbackInbox: signature and clock-window verification is a given predicate.
- CallbackDelivery: readiness probes and the health timer, which do not affect what is delivered.
- RetryTiming.Deliver: a sleep lasts exactly the requested pause, and a request at most its timeout.
- ResumeChain: mission leases, heartbeats, supervision events and cron schedules; ids of published jobs are never successor ids.
- ContextClosure: ids are numbered in the order localeCompare sorts them, and distinct ids never compare equal.
- ContextSelection: freshness, audience, tenancy and poison checks are one exclusion reason per source or snapshot, and sizes in bytes are given per section.
- ProviderSchema.SanitizedWeaker: the condition on the schema is sufficient, not necessary, below the first keyword. The keywords `if`, `then`, `else`, `contains`, `minContains`, `maxContains`, `unevaluatedItems`, `unevaluatedProperties`, `$ref`, `$dynamicRef`, `format` and the content keywords are judged as always true; all other assertions and applicators of the standard are modelled. Regular expressions and type tests are given, numbers are integers, no property is named like a dropped or renamed keyword, and a `__proto__` key does not occur.
- TarArchive: names are read as bytes, where the code decodes UTF-8; bytes outside ASCII never decide whether a path is safe.
- ClockDriver: tasks that fail inside a tick are an input, instants are whole milliseconds and quotients are exact where the code rounds in floating point.
- Promotion.ScorePromotion: costs are exact, and the threshold is the exact ceiling of four fifths of the repetitions.
- The ZIP reader, CRC and text scanner of the publication check, the identity delivery twin, worker start and stop, the outbox pump, HTTP, PostgreSQL, signing and the model provider: they read, transport or start and stop what the modules above decide, and none of them keeps state that a property above depends on.
