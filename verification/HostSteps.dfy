/** The remaining steps of the protocol, and the invariant over every execution. */
module HostSteps {
  import opened Missions
  import opened Optional
  import opened RunLedger
  import opened OperationGate
  import opened InvocationLedger
  import opened CaretakerHost
  import opened HostInvariant

  // ---------------------------------------------------------------- reservations and activations

  lemma NewEntryOk(s: World, t: World, view: View, call: Call, next: Checkpoint)
    requires Core(s) && Grows(s, t)
    requires t.history == s.history + [next] && t.log == s.log + [LogEntry(|s.history|, call, view)]
    requires Last(s.history).pending == None && next.pending == Some(call)
    requires ViewOk(s, view) && view.version + 2 == |s.history| && GatePassed(view, call.tool)
    ensures EntryOk(t, |s.log|)
  {
    ViewKept(s, t, view);
    assert t.history[..|s.history|] == s.history;
  }

  lemma ReserveCore(s: World, t: World, view: View, call: Call, next: Checkpoint)
    requires Core(s) && Grows(s, t) && Extends(s.history, next)
    requires t.history == s.history + [next] && t.log == s.log + [LogEntry(|s.history|, call, view)]
    requires Last(s.history).pending == None && next.pending == Some(call)
    requires ViewOk(s, view) && view.version + 2 == |s.history| && GatePassed(view, call.tool)
    ensures Core(t)
  {
    NewEntryOk(s, t, view, call, next);
    forall k | 0 <= k < |t.log| ensures EntryOk(t, k) {
      if k < |s.log| {
        EntryKept(s, t, k);
      }
    }
    ReservationsStayBound(s, t, next);
  }

  lemma ReservationsStayBound(s: World, t: World, next: Checkpoint)
    requires Core(s) && Grows(s, t) && t.history == s.history + [next] && Last(s.history).pending == None
    ensures forall i | 0 <= i < |t.history| && t.history[i].pending.Some?
            && t.history[i].pending != Last(t.history).pending ::
              Bound(t, t.history[i].pending.value)
  {}

  /** A reservation decided on the projection of the version it extends. */
  ghost predicate Reserved(s: World, w: nat, t: World) {
    && w in s.workers && s.workers[w].stage.Attempted? && WorkerOk(s, s.workers[w])
    && var worker := s.workers[w];
       var view := worker.stage.view;
       var next := Last(t.history);
    && next.pending.Some?
    && view.version + 2 == |s.history| && GatePassed(view, next.pending.value.tool)
    && t.history == s.history + [next] && Extends(s.history, next) && Last(s.history).pending == None
    && var tally := worker.tally.(steps := worker.tally.steps + 1, reserves := worker.tally.reserves + 1);
       t == s.(history := t.history,
               workers := s.workers[w := Worker(worker.epoch, tally, false, Top(|s.history|))],
               log := s.log + [LogEntry(|s.history|, next.pending.value, view)])
  }

  lemma ReservedWorkerOk(s: World, w: nat, t: World)
    requires Reserved(s, w, t)
    ensures w in t.workers && WorkerOk(t, t.workers[w])
  {
    assert t.history[..|t.history| - 1] == s.history;
    CountsMonotone(s.history, t.history);
  }

  lemma ReservedKeeps(s: World, w: nat, t: World)
    requires Inv(s) && Reserved(s, w, t)
    ensures Inv(t)
  {
    var next := Last(t.history);
    AppendGrows(s, t, next);
    ReserveCore(s, t, s.workers[w].stage.view, next.pending.value, next);
    ReservedWorkerOk(s, w, t);
    WorkersKept(s, t, w);
    EffectsKept(s, t);
  }

  lemma OfferedToolPasses(granted: set<Tool>, tool: Tool, view: View, counters: Counters)
    requires tool in AllowedTools(granted, view, counters)
    ensures GatePassed(view, tool) && counters.toolCalls < MAX_TOOL_CALLS
  {}

  lemma ReserveReserves(s: World, w: nat, granted: set<Tool>, tool: Tool, input: nat, runtime: nat, t: World)
    requires Legal(s.history) && w in s.workers && WorkerOk(s, s.workers[w])
    requires DoReserve(s, w, granted, tool, input, runtime) == Some(t)
    ensures Reserved(s, w, t) || Moves(s, w, t)
  {
    var stage := s.workers[w].stage;
    var counters := CountersAt(s, stage.at);
    var call := Call(CallId(stage.at, tool, input), tool, input);
    var saved := SaveCheckpoint(s, w, stage.at, ReservationKind(tool), ReservedCounters(counters, tool, runtime),
                                Some(call));
    if saved.Applied? {
      ReserveSaved(s, w, granted, tool, input, runtime, t);
    } else {
      ConflictMoves(s, w);
    }
  }

  lemma ReserveSaved(s: World, w: nat, granted: set<Tool>, tool: Tool, input: nat, runtime: nat, t: World)
    requires Legal(s.history) && w in s.workers && WorkerOk(s, s.workers[w])
    requires DoReserve(s, w, granted, tool, input, runtime) == Some(t)
    requires var at := s.workers[w].stage.at;
             SaveCheckpoint(s, w, at, ReservationKind(tool), ReservedCounters(CountersAt(s, at), tool, runtime),
                            Some(Call(CallId(at, tool, input), tool, input))).Applied?
    ensures Reserved(s, w, t)
  {
    var stage := s.workers[w].stage;
    var counters := CountersAt(s, stage.at);
    OfferedToolPasses(granted, tool, stage.view, counters);
    SaveExtends(s, w, stage.at, ReservationKind(tool), ReservedCounters(counters, tool, runtime),
                Some(Call(CallId(stage.at, tool, input), tool, input)));
  }

  lemma StartExtends(h: History, mission: MissionState, epoch: nat)
    requires Legal(h) && Start(h, mission, epoch).Resumed?
    ensures var g := Start(h, mission, epoch).history;
            g == h + [Last(g)] && Extends(h, Last(g)) && Last(g).pending == Last(h).pending
  {}

  lemma FreshWorker(s: World, epoch: nat)
    ensures WorkerOk(s, Worker(epoch, Tally(0, 0, 0, 0, 0), false, Top(Version(s))))
  {}

  lemma ActivatedKeeps(s: World, w: nat, t: World)
    requires Inv(s) && DoActivate(s, w) == Some(t)
    ensures Inv(t)
  {
    FreshWorker(t, s.lease);
    if Start(s.history, s.mission, s.lease).Resumed? {
      StartExtends(s.history, s.mission, s.lease);
      AppendGrows(s, t, Last(t.history));
      CoreAppend(s, t, Last(t.history));
      WorkersKept(s, t, w);
      EffectsKept(s, t);
    } else {
      FreshWorker(s, s.lease);
      MoveKeeps(s, w, t);
    }
  }

  lemma ActivateKeeps(s: World, step: Step, t: World)
    requires Inv(s) && Next(s, step, t) && step.Activate?
    ensures Inv(t)
  {
    ActivatedKeeps(s, step.w, t);
  }

  lemma InvokeKeeps(s: World, step: Step, t: World)
    requires Inv(s) && Next(s, step, t) && step.Invoke?
    ensures Inv(t)
  {
    var w := step.w;
    var stage := s.workers[w].stage;
    assert WorkerOk(s, s.workers[w]);
    PendingStretch(s.history, stage.at);
    var moved := SetStage(s, w, Awaiting(stage.at, stage.call));
    MoveKeeps(s, w, moved);
    NewThreadKeeps(moved, step.t, stage.call, t);
  }

  lemma NewThreadKeeps(s: World, thread: nat, call: Call, t: World)
    requires Inv(s) && thread !in s.threads && call.id in Dispatched(s.history) && call.id.tool == call.tool
    requires t == s.(threads := s.threads[thread := Thread(call, Calling)])
    ensures Inv(t)
  {
    CoreKept(s, t);
    forall u <- t.workers ensures WorkerOk(t, t.workers[u]) { WorkerKept(s, t, s.workers[u]); }
  }

  lemma AdvancingOk(s: World, w: nat, t: World)
    requires w in s.workers && WorkerOk(s, s.workers[w]) && s.workers[w].stage.Loaded? && s.mission.phase == Understand
    requires t == SetStage(s, w, Advancing(s.workers[w].stage.at)).(mission := MissionState(Running, Plan))
    ensures WorkerOk(t, t.workers[w])
  {}

  /** context_sufficient happens once, so it is charged to at most one iteration of any activation. */
  lemma AdvancingKeeps(s: World, w: nat, t: World)
    requires Inv(s) && w in s.workers && s.workers[w].stage.Loaded? && s.mission.phase == Understand
    requires t == SetStage(s, w, Advancing(s.workers[w].stage.at)).(mission := MissionState(Running, Plan))
    ensures Inv(t)
  {
    AdvancingOk(s, w, t);
    CoreKept(s, t);
    WorkersKept(s, t, w);
    EffectsKept(s, t);
  }

  lemma AdvanceMoves(s: World, w: nat, t: World)
    requires w in s.workers && DoAdvance(s, w) == Some(t)
    ensures s.workers[w].stage.Loaded? && s.mission.phase == Understand
    ensures t == SetStage(s, w, Advancing(s.workers[w].stage.at)).(mission := MissionState(Running, Plan))
  {}

  lemma AdvanceKeeps(s: World, step: Step, t: World)
    requires Inv(s) && Next(s, step, t) && step.Advance?
    ensures Inv(t)
  {
    AdvanceMoves(s, step.w, t);
    AdvancingKeeps(s, step.w, t);
  }

  // ---------------------------------------------------------------- the environment

  /** Steps that touch neither history, log, threads, ledger nor handled calls, and at most drop a worker. */
  lemma EnvironmentKeeps(s: World, t: World)
    requires Inv(s)
    requires t == s.(lease := t.lease, mission := t.mission, facts := t.facts, now := t.now,
                     receipts := t.receipts, workers := t.workers)
    requires t.workers.Keys <= s.workers.Keys && forall u <- t.workers :: t.workers[u] == s.workers[u]
    requires forall id <- s.receipts :: id in t.receipts && t.receipts[id] == s.receipts[id]
    requires Advances(s.mission, s.facts, t.mission, t.facts)
    ensures Inv(t)
  {
    CoreKept(s, t);
    forall u <- t.workers ensures WorkerOk(t, t.workers[u]) { WorkerKept(s, t, s.workers[u]); }
    EffectsKept(s, t);
  }

  // ---------------------------------------------------------------- dispatcher threads

  /** Only threads, the claim ledger, receipts and handled calls changed. */
  lemma ThreadStepKeeps(s: World, t: World)
    requires Inv(s) && Effects(t)
    requires t == s.(threads := t.threads, ledger := t.ledger, receipts := t.receipts, handled := t.handled)
    requires forall id <- s.receipts :: id in t.receipts && t.receipts[id] == s.receipts[id]
    ensures Inv(t)
  {
    CoreKept(s, t);
    forall u <- t.workers ensures WorkerOk(t, t.workers[u]) { WorkerKept(s, t, s.workers[u]); }
  }

  /** A claim that may run the handler is the first one of its id, or one of a read. */
  lemma ClaimEffects(s: World, t: nat, next: World)
    requires Effects(s) && t in s.threads && DoClaim(s, t) == Some(next)
    ensures Effects(next)
  {
    if next.threads[t].stage.Handling? {
      NewHandlerEffects(s, t, next);
    } else {
      SettledThreadEffects(s, t, next);
    }
  }

  lemma NewHandlerEffects(s: World, t: nat, next: World)
    requires Effects(s) && t in s.threads
    requires var call := s.threads[t].call;
             && t in next.threads && next == s.(ledger := next.ledger, threads := s.threads[t := next.threads[t]])
             && next.threads[t].call == call && next.ledger.Keys == s.ledger.Keys + {call.id}
             && (call.id in s.ledger ==> call.tool.ReadOnly())
    ensures Effects(next)
  {
    assert ThreadOk(s, s.threads[t]);
    forall u <- next.threads ensures ThreadOk(next, next.threads[u]) {
      assert ThreadOk(s, s.threads[u]);
    }
  }

  lemma HandlerEffects(s: World, t: nat, outcome: Outcome, next: World)
    requires Effects(s) && t in s.threads && DoHandler(s, t, outcome) == Some(next)
    ensures Effects(next)
  {
    assert ThreadOk(s, s.threads[t]);
    forall u <- next.threads ensures ThreadOk(next, next.threads[u]) {
      assert ThreadOk(s, s.threads[u]);
    }
  }

  lemma SettledThreadEffects(s: World, t: nat, next: World)
    requires Effects(s) && t in s.threads && s.history == next.history
    requires s.handled == next.handled && s.ledger.Keys <= next.ledger.Keys
    requires next.threads.Keys <= s.threads.Keys
    requires forall u <- next.threads ::
               && u in s.threads && (next.threads[u] == s.threads[u]
                                     || (next.threads[u].call == s.threads[u].call && !next.threads[u].stage.Handling?))
    ensures Effects(next)
  {
    forall u <- next.threads ensures ThreadOk(next, next.threads[u]) {
      assert ThreadOk(s, s.threads[u]);
    }
  }

  // ---------------------------------------------------------------- executions

  lemma InitHolds(s: World)
    requires Init(s)
    ensures Inv(s)
  {}

  ghost predicate Next(s: World, step: Step, t: World) {
    (forall w <- s.workers :: SnapshotHeld(s, s.workers[w].stage)) && Do(s, step) == Some(t)
  }

  lemma ClaimedKeeps(s: World, t: nat, next: World)
    requires Inv(s) && t in s.threads && DoClaim(s, t) == Some(next)
    ensures Inv(next)
  {
    ClaimEffects(s, t, next);
    ThreadStepKeeps(s, next);
  }

  lemma ClaimKeeps(s: World, step: Step, t: World)
    requires Inv(s) && Next(s, step, t) && step.ClaimStep?
    ensures Inv(t)
  {
    ClaimedKeeps(s, step.t, t);
  }

  lemma HandlerKeeps(s: World, step: Step, t: World)
    requires Inv(s) && Next(s, step, t) && step.HandlerStep?
    ensures Inv(t)
  {
    HandlerEffects(s, step.t, step.outcome, t);
    ThreadStepKeeps(s, t);
  }

  lemma ResolveKeeps(s: World, step: Step, t: World)
    requires Inv(s) && Next(s, step, t) && step.ResolveStep?
    ensures Inv(t)
  {
    SettledThreadEffects(s, step.t, t);
    ThreadStepKeeps(s, t);
  }

  lemma CompleteKeeps(s: World, step: Step, t: World)
    requires Inv(s) && Next(s, step, t) && step.CompleteStep?
    ensures Inv(t)
  {
    SettledThreadEffects(s, step.t, t);
    ThreadStepKeeps(s, t);
  }

  lemma AppendKeeps(s: World, step: Step, t: World)
    requires Inv(s) && Next(s, step, t) && step.AppendStep?
    ensures Inv(t)
  {
    SettledThreadEffects(s, step.t, t);
    ThreadStepKeeps(s, t);
  }

  lemma DropThreadKeeps(s: World, step: Step, t: World)
    requires Inv(s) && Next(s, step, t) && step.DropThread?
    ensures Inv(t)
  {
    if step.t in s.threads {
      SettledThreadEffects(s, step.t, t);
    } else {
      assert t.threads == s.threads;
    }
    ThreadStepKeeps(s, t);
  }

  lemma EnvironmentStepsKeep(s: World, step: Step, t: World)
    requires Inv(s) && Next(s, step, t)
    requires step.AcquireLease? || step.Vanish? || step.Tick? || step.MissionStep? || step.FactsStep?
             || step.ForeignReceipt?
    ensures Inv(t)
  {
    if step.MissionStep? {
      EventAdvances(s.mission, step.event, s.facts, t.facts, t.mission);
    }
    EnvironmentKeeps(s, t);
  }

  lemma WriteOrMoveKeeps(s: World, w: nat, t: World)
    requires Inv(s) && (Writes(s, w, t) || Moves(s, w, t) || Reserved(s, w, t))
    ensures Inv(t)
  {
    if Writes(s, w, t) {
      WriteKeeps(s, w, t);
    } else if Moves(s, w, t) {
      MoveKeeps(s, w, t);
    } else {
      ReservedKeeps(s, w, t);
    }
  }

  lemma LeaveKeeps(s: World, step: Step, t: World)
    requires Inv(s) && Next(s, step, t) && step.Leave?
    ensures Inv(t)
  {
    assert WorkerOk(s, s.workers[step.w]);
    LeaveMoves(s, step.w, t);
    MoveKeeps(s, step.w, t);
  }

  lemma ClassifyKeeps(s: World, step: Step, t: World)
    requires Inv(s) && Next(s, step, t) && step.ClassifyPending?
    ensures Inv(t)
  {
    assert WorkerOk(s, s.workers[step.w]);
    ClassifyMoves(s, step.w, t);
    MoveKeeps(s, step.w, t);
  }

  lemma FindToolCallKeeps(s: World, step: Step, t: World)
    requires Inv(s) && Next(s, step, t) && step.FindToolCall?
    ensures Inv(t)
  {
    assert WorkerOk(s, s.workers[step.w]);
    FindToolCallMoves(s, step.w, t);
    MoveKeeps(s, step.w, t);
  }

  lemma CollectKeeps(s: World, step: Step, t: World)
    requires Inv(s) && Next(s, step, t) && step.Collect?
    ensures Inv(t)
  {
    assert WorkerOk(s, s.workers[step.w]);
    CollectMoves(s, step.w, t);
    MoveKeeps(s, step.w, t);
  }

  lemma GiveUpKeeps(s: World, step: Step, t: World)
    requires Inv(s) && Next(s, step, t) && step.GiveUp?
    ensures Inv(t)
  {
    assert WorkerOk(s, s.workers[step.w]);
    GiveUpMoves(s, step.w, t);
    MoveKeeps(s, step.w, t);
  }

  lemma LoadKeeps(s: World, step: Step, t: World)
    requires Inv(s) && Next(s, step, t) && step.Load?
    ensures Inv(t)
  {
    assert WorkerOk(s, s.workers[step.w]);
    LoadMoves(s, step.w, t);
    MoveKeeps(s, step.w, t);
  }

  lemma SaveToolCallKeeps(s: World, step: Step, t: World)
    requires Inv(s) && Next(s, step, t) && step.SaveToolCall?
    ensures Inv(t)
  {
    assert WorkerOk(s, s.workers[step.w]);
    SaveToolCallWrites(s, step.w, t);
    WriteOrMoveKeeps(s, step.w, t);
  }

  lemma SaveWaitKeeps(s: World, step: Step, t: World)
    requires Inv(s) && Next(s, step, t) && step.SaveWait?
    ensures Inv(t)
  {
    assert WorkerOk(s, s.workers[step.w]);
    SaveWaitWrites(s, step.w, step.runtime, t);
    WriteOrMoveKeeps(s, step.w, t);
  }

  lemma SaveResultKeeps(s: World, step: Step, t: World)
    requires Inv(s) && Next(s, step, t) && step.SaveResult?
    ensures Inv(t)
  {
    assert WorkerOk(s, s.workers[step.w]);
    SaveResultWrites(s, step.w, step.runtime, t);
    WriteOrMoveKeeps(s, step.w, t);
  }

  lemma SaveAdvanceKeeps(s: World, step: Step, t: World)
    requires Inv(s) && Next(s, step, t) && step.SaveAdvance?
    ensures Inv(t)
  {
    assert WorkerOk(s, s.workers[step.w]);
    SaveAdvanceWrites(s, step.w, step.runtime, t);
    WriteOrMoveKeeps(s, step.w, t);
  }

  lemma SaveQuietKeeps(s: World, step: Step, t: World)
    requires Inv(s) && Next(s, step, t) && step.SaveQuiet?
    ensures Inv(t)
  {
    assert WorkerOk(s, s.workers[step.w]);
    SaveQuietWrites(s, step.w, step.kind, step.runtime, t);
    WriteOrMoveKeeps(s, step.w, t);
  }

  lemma ReserveKeeps(s: World, step: Step, t: World)
    requires Inv(s) && Next(s, step, t) && step.Reserve?
    ensures Inv(t)
  {
    assert WorkerOk(s, s.workers[step.w]);
    ReserveReserves(s, step.w, step.granted, step.tool, step.input, step.runtime, t);
    WriteOrMoveKeeps(s, step.w, t);
  }

  /** Every step keeps the invariant. */
  lemma StepKeeps(s: World, step: Step, t: World)
    requires Inv(s) && Next(s, step, t)
    ensures Inv(t)
  {
    match step
    case Activate(_) => ActivateKeeps(s, step, t);
    case Leave(_) => LeaveKeeps(s, step, t);
    case ClassifyPending(_) => ClassifyKeeps(s, step, t);
    case SaveToolCall(_) => SaveToolCallKeeps(s, step, t);
    case FindToolCall(_) => FindToolCallKeeps(s, step, t);
    case Invoke(_, _) => InvokeKeeps(s, step, t);
    case Collect(_) => CollectKeeps(s, step, t);
    case GiveUp(_) => GiveUpKeeps(s, step, t);
    case SaveWait(_, _) => SaveWaitKeeps(s, step, t);
    case SaveResult(_, _) => SaveResultKeeps(s, step, t);
    case Load(_) => LoadKeeps(s, step, t);
    case Advance(_) => AdvanceKeeps(s, step, t);
    case SaveAdvance(_, _) => SaveAdvanceKeeps(s, step, t);
    case SaveQuiet(_, _, _) => SaveQuietKeeps(s, step, t);
    case Reserve(_, _, _, _, _) => ReserveKeeps(s, step, t);
    case ClaimStep(_) => ClaimKeeps(s, step, t);
    case HandlerStep(_, _) => HandlerKeeps(s, step, t);
    case ResolveStep(_, _) => ResolveKeeps(s, step, t);
    case CompleteStep(_) => CompleteKeeps(s, step, t);
    case AppendStep(_) => AppendKeeps(s, step, t);
    case DropThread(_) => DropThreadKeeps(s, step, t);
    case AcquireLease | Vanish(_) | Tick(_) | MissionStep(_, _) | FactsStep(_) | ForeignReceipt(_, _) =>
      EnvironmentStepsKeep(s, step, t);
  }

  /** A finite execution from a fresh run: `worlds` are the states, `steps` the steps between them. */
  ghost predicate Execution(worlds: seq<World>, steps: seq<Step>) {
    && |worlds| == |steps| + 1
    && Init(worlds[0])
    && forall i | 0 <= i < |steps| :: Next(worlds[i], steps[i], worlds[i + 1])
  }

  lemma {:induction false} ExecutionKeeps(worlds: seq<World>, steps: seq<Step>, i: nat)
    requires Execution(worlds, steps) && i < |worlds|
    ensures Inv(worlds[i])
  {
    if i == 0 {
      InitHolds(worlds[0]);
    } else {
      ExecutionKeeps(worlds, steps, i - 1);
      StepKeeps(worlds[i - 1], steps[i - 1], worlds[i]);
    }
  }
}
