/**
 * A reachable state in which a host whose lease was replaced invokes a call that is no longer
 * pending: its successor finished the call in the meantime. The dispatcher then only replays the
 * recorded outcome, so nothing happens twice.
 */
module StaleInvocation {
  import opened Missions
  import opened Optional
  import opened RunLedger
  import opened OperationGate
  import opened InvocationLedger
  import opened CaretakerHost
  import opened HostInvariant
  import opened HostSteps

  ghost predicate Reachable(s: World) {
    exists worlds, steps :: Execution(worlds, steps) && worlds[|worlds| - 1] == s
  }

  lemma OneMore(s: World, step: Step, t: World)
    requires Reachable(s) && Next(s, step, t)
    ensures Reachable(t)
  {
    var worlds, steps :| Execution(worlds, steps) && worlds[|worlds| - 1] == s;
    var more, after := worlds + [t], steps + [step];
    forall i | 0 <= i < |after| ensures Next(more[i], after[i], more[i + 1]) {
      if i < |steps| {
        assert Next(worlds[i], steps[i], worlds[i + 1]);
      }
    }
    assert Execution(more, after);
  }

  const MISSION := MissionState(Running, Understand)
  const FACTS := Facts(None, None, [])
  const VIEW := View(0, MISSION, FACTS, None, OperationView(Absent, false))
  const CALL := Call(CallId(1, PalacesGet, 7), PalacesGet, 7)
  const RESULT := Outcome(Succeeded, false, {})

  function Point(kind: Kind, epoch: nat, toolCalls: nat, runtime: nat, pending: Option<Call>): Checkpoint {
    Checkpoint(kind, RunActive, epoch, Understand, Counters(toolCalls, 0, 0, 0, runtime), pending)
  }

  const ACTIVATED := Point(Activated, 1, 0, 0, None)
  const ATTEMPT := Point(DecisionAttempt, 1, 0, 1, None)
  const RESERVED := Point(ToolCall, 1, 1, 2, Some(CALL))
  const REPLACED := Point(LeaseReplaced, 2, 1, 2, Some(CALL))
  const CLEARED := Point(StatePersisted, 2, 1, 3, None)

  const CREATED: History := [ACTIVATED]
  const DECIDED: History := [ACTIVATED, ATTEMPT]
  const HELD: History := [ACTIVATED, ATTEMPT, RESERVED]
  const TAKEN_OVER: History := [ACTIVATED, ATTEMPT, RESERVED, REPLACED]
  const FINISHED: History := [ACTIVATED, ATTEMPT, RESERVED, REPLACED, CLEARED]

  ghost predicate Quiet(s: World) {
    && s.tenant == 0 && s.mission == MISSION && s.facts == FACTS
    && s.ledger == map[] && s.receipts == map[] && s.threads == map[] && s.handled == []
  }

  /** The first host alone, at a stage. */
  ghost predicate First(s: World, history: History, stage: Stage) {
    && Quiet(s)
    && s.history == history && s.lease == 1
    && s.workers.Keys == {0}
    && s.workers[0].epoch == 1 && !s.workers[0].reconcile && s.workers[0].stage == stage
    && s.workers[0].tally.steps == (if history == HELD then 1 else 0)
  }

  ghost predicate Two(s: World, history: History, stage: Stage) {
    && s.tenant == 0 && s.mission == MISSION && s.facts == FACTS
    && s.history == history && s.lease == 2
    && s.workers.Keys == {0, 1}
    && s.workers[0].stage == Ready(2, CALL)
    && s.workers[1].epoch == 2 && s.workers[1].tally.steps == 0 && s.workers[1].stage == stage
  }

  lemma WorkerStep(s: World, step: Step, t: World)
    requires forall w <- s.workers :: SnapshotHeld(s, s.workers[w].stage)
    requires step.SaveQuiet? || step.FindToolCall? || step.SaveResult?
    requires DoWorker(s, step) == Some(t)
    ensures Next(s, step, t)
  {}

  const FRESH := World(0, CREATED, 1, MISSION, FACTS, 0, map[], map[], map[], map[], [], [])

  lemma Starts() returns (t: World)
    ensures Next(FRESH, Activate(0), t)
    ensures First(t, CREATED, Top(0))
  {
    t := Do(FRESH, Activate(0)).value;
  }

  lemma Loads(s: World) returns (t: World)
    requires First(s, CREATED, Top(0))
    ensures Next(s, Load(0), t)
    ensures First(t, CREATED, Loaded(0, VIEW))
  {
    assert DoLoad(s, 0).Some?;
    t := DoLoad(s, 0).value;
  }

  lemma DecisionApplies()
    ensures Save(CREATED, MISSION, 1, 0, DecisionAttempt, ATTEMPT.counters, None) == Applied(DECIDED)
  {
    assert CREATED + [ATTEMPT] == DECIDED;
  }

  lemma DecisionSaved(s: World) returns (t: World)
    requires s.history == CREATED && s.mission == MISSION && s.lease == 1
    requires s.workers.Keys == {0} && s.workers[0].epoch == 1 && s.workers[0].stage == Loaded(0, VIEW)
    ensures DoSaveQuiet(s, 0, DecisionAttempt, 1) == Some(t)
    ensures t == s.(history := DECIDED, workers := s.workers[0 := s.workers[0].(stage := Attempted(1, VIEW))])
  {
    DecisionApplies();
    assert CREATED[0] == ACTIVATED;
    assert SaveCheckpoint(s, 0, 0, DecisionAttempt, ATTEMPT.counters, None) == Applied(DECIDED);
    t := DoSaveQuiet(s, 0, DecisionAttempt, 1).value;
  }

  lemma Decides(s: World) returns (t: World)
    requires First(s, CREATED, Loaded(0, VIEW))
    ensures Next(s, SaveQuiet(0, DecisionAttempt, 1), t)
    ensures First(t, DECIDED, Attempted(1, VIEW))
  {
    t := DecisionSaved(s);
    WorkerStep(s, SaveQuiet(0, DecisionAttempt, 1), t);
  }

  lemma ReservationApplies()
    ensures Save(DECIDED, MISSION, 1, 1, ToolCall, RESERVED.counters, Some(CALL)) == Applied(HELD)
  {
    assert DECIDED + [RESERVED] == HELD;
  }

  lemma ToolIsOpen()
    ensures PalacesGet in AllowedTools({PalacesGet}, VIEW, ATTEMPT.counters)
    ensures ReservedCounters(ATTEMPT.counters, PalacesGet, 2) == RESERVED.counters
  {}

  lemma ReserveApplies(s: World) returns (t: World)
    requires s.history == DECIDED && s.mission == MISSION && s.lease == 1
    requires s.workers.Keys == {0} && s.workers[0].epoch == 1 && s.workers[0].stage == Attempted(1, VIEW)
    ensures DoReserve(s, 0, {PalacesGet}, PalacesGet, 7, 2) == Some(t)
    ensures t == s.(history := HELD, workers := t.workers, log := t.log) && t.workers.Keys == {0}
    ensures var before, after := s.workers[0], t.workers[0];
            after.epoch == 1 && !after.reconcile && after.stage == Top(2) && after.tally.steps == before.tally.steps + 1
  {
    ToolIsOpen();
    ReservationApplies();
    assert SaveCheckpoint(s, 0, 1, ToolCall, RESERVED.counters, Some(CALL)) == Applied(HELD);
    assert DoReserve(s, 0, {PalacesGet}, PalacesGet, 7, 2).Some?;
    t := DoReserve(s, 0, {PalacesGet}, PalacesGet, 7, 2).value;
  }

  lemma Reserves(s: World) returns (t: World)
    requires First(s, DECIDED, Attempted(1, VIEW))
    ensures Next(s, Reserve(0, {PalacesGet}, PalacesGet, 7, 2), t)
    ensures First(t, HELD, Top(2))
  {
    t := ReserveApplies(s);
  }

  lemma Classifies(s: World) returns (t: World)
    requires First(s, HELD, Top(2))
    ensures Next(s, ClassifyPending(0), t)
    ensures First(t, HELD, FindCall(2, CALL))
  {
    t := DoClassify(s, 0).value;
  }

  lemma Finds(s: World) returns (t: World)
    requires First(s, HELD, FindCall(2, CALL))
    ensures Next(s, FindToolCall(0), t)
    ensures First(t, HELD, Ready(2, CALL))
  {
    assert HELD[2] == RESERVED;
    t := DoFindToolCall(s, 0).value;
  }

  lemma TakesOver(s: World) returns (leased: World, t: World)
    requires First(s, HELD, Ready(2, CALL))
    ensures Next(s, AcquireLease, leased) && Next(leased, Activate(1), t)
    ensures Two(t, TAKEN_OVER, Top(3)) && Quiet(t)
  {
    leased := s.(lease := 2);
    assert HELD + [REPLACED] == TAKEN_OVER;
    assert Start(leased.history, leased.mission, 2) == Resumed(TAKEN_OVER);
    t := DoActivate(leased, 1).value;
  }

  lemma ClassifiesAgain(s: World) returns (t: World)
    requires Two(s, TAKEN_OVER, Top(3)) && Quiet(s)
    ensures Next(s, ClassifyPending(1), t)
    ensures Two(t, TAKEN_OVER, FindCall(3, CALL)) && Quiet(t)
  {
    assert TAKEN_OVER[..3] == HELD;
    assert ReservationOf(TAKEN_OVER, CALL.id) == ReservationOf(HELD, CALL.id) == Some(ToolCall);
    t := DoClassify(s, 1).value;
  }

  lemma FindsAgain(s: World) returns (t: World)
    requires Two(s, TAKEN_OVER, FindCall(3, CALL)) && Quiet(s)
    ensures Next(s, FindToolCall(1), t)
    ensures Two(t, TAKEN_OVER, Ready(3, CALL)) && Quiet(t)
  {
    assert TAKEN_OVER[2] == RESERVED;
    t := DoFindToolCall(s, 1).value;
    WorkerStep(s, FindToolCall(1), t);
  }

  /** The second host's call is at the given point of the dispatcher. */
  ghost predicate Dispatching(s: World, stage: ThreadStage) {
    && Two(s, TAKEN_OVER, Awaiting(3, CALL))
    && s.threads == map[0 := Thread(CALL, stage)]
    && s.receipts == map[]
  }

  lemma Invokes(s: World) returns (t: World)
    requires Two(s, TAKEN_OVER, Ready(3, CALL)) && Quiet(s)
    ensures Next(s, Invoke(1, 0), t)
    ensures Dispatching(t, Calling) && t.ledger == map[] && t.handled == []
  {
    t := DoInvoke(s, 1, 0).value;
  }

  lemma Claims(s: World) returns (t: World)
    requires Dispatching(s, Calling) && s.ledger == map[] && s.handled == []
    ensures Next(s, ClaimStep(0), t)
    ensures Dispatching(t, Handling(1)) && t.handled == []
    ensures CALL.id in t.ledger && t.ledger[CALL.id].outcome.None? && t.ledger[CALL.id].generation == 1
            && t.ledger[CALL.id].disposition == RunHandler
  {
    t := DoClaim(s, 0).value;
  }

  lemma Handles(s: World) returns (t: World)
    requires Dispatching(s, Handling(1)) && s.handled == []
    ensures Next(s, HandlerStep(0, RESULT), t)
    ensures Dispatching(t, Completing(1, RESULT)) && t.handled == [CALL] && t.ledger == s.ledger
  {
    t := DoHandler(s, 0, RESULT).value;
  }

  lemma Completes(s: World) returns (t: World)
    requires Dispatching(s, Completing(1, RESULT)) && s.handled == [CALL]
    requires CALL.id in s.ledger && s.ledger[CALL.id].outcome.None? && s.ledger[CALL.id].generation == 1
             && s.ledger[CALL.id].disposition == RunHandler
    ensures Next(s, CompleteStep(0), t)
    ensures Dispatching(t, Appending(RESULT)) && t.handled == [CALL]
    ensures CALL.id in t.ledger && t.ledger[CALL.id].outcome == Some(RESULT)
  {
    t := DoComplete(s, 0).value;
  }

  lemma Records(s: World) returns (t: World)
    requires Dispatching(s, Appending(RESULT)) && s.handled == [CALL]
    requires CALL.id in s.ledger && s.ledger[CALL.id].outcome == Some(RESULT)
    ensures Next(s, AppendStep(0), t)
    ensures Two(t, TAKEN_OVER, Awaiting(3, CALL)) && t.threads == map[] && t.handled == [CALL] && t.ledger == s.ledger
    ensures CALL.id in t.receipts && t.receipts[CALL.id] == ReceiptFor(CALL, RESULT, 0)
  {
    t := DoAppend(s, 0).value;
    assert t.threads == map[];
  }

  lemma Collects(s: World) returns (t: World)
    requires Two(s, TAKEN_OVER, Awaiting(3, CALL)) && s.threads == map[] && s.handled == [CALL]
    requires CALL.id in s.ledger && s.ledger[CALL.id].outcome == Some(RESULT)
    requires CALL.id in s.receipts && s.receipts[CALL.id] == ReceiptFor(CALL, RESULT, 0)
    ensures Next(s, Collect(1), t)
    ensures Two(t, TAKEN_OVER, Observed(3, CALL, RESULT)) && t.threads == map[] && t.handled == [CALL]
  {
    t := DoCollect(s, 1).value;
  }

  lemma ResultApplies()
    ensures Save(TAKEN_OVER, MISSION, 2, 3, StatePersisted, CLEARED.counters, None) == Applied(FINISHED)
  {
    assert TAKEN_OVER[..3] == HELD;
    assert LastAction(TAKEN_OVER) == LastAction(HELD) == ToolCall;
    assert TAKEN_OVER + [CLEARED] == FINISHED;
  }

  lemma ResultClears(s: World) returns (t: World)
    requires s.history == TAKEN_OVER && s.mission == MISSION && s.lease == 2
    requires s.workers.Keys == {0, 1} && s.workers[1].epoch == 2 && s.workers[1].stage == Observed(3, CALL, RESULT)
    ensures DoSaveResult(s, 1, 3) == Some(t)
    ensures t == s.(history := FINISHED, workers := t.workers) && t.workers.Keys == {0, 1}
    ensures t.workers[0] == s.workers[0] && t.workers[1].stage == Top(4)
  {
    ResultApplies();
    assert SaveCheckpoint(s, 1, 3, StatePersisted, CLEARED.counters, None) == Applied(FINISHED);
    t := DoSaveResult(s, 1, 3).value;
  }

  lemma Clears(s: World) returns (t: World)
    requires Two(s, TAKEN_OVER, Observed(3, CALL, RESULT)) && s.threads == map[] && s.handled == [CALL]
    ensures Next(s, SaveResult(1, 3), t)
    ensures t.history == FINISHED && t.threads == map[] && t.handled == [CALL]
    ensures t.workers.Keys == {0, 1} && t.workers[0].stage == Ready(2, CALL) && SnapshotHeld(t, t.workers[1].stage)
  {
    t := ResultClears(s);
    WorkerStep(s, SaveResult(1, 3), t);
  }

  lemma FirstHostIsReady() returns (t: World)
    ensures Reachable(t) && First(t, HELD, Ready(2, CALL))
  {
    assert Execution([FRESH], []);
    assert Reachable(FRESH);
    var top := Starts();
    OneMore(FRESH, Activate(0), top);
    var loaded := Loads(top);
    OneMore(top, Load(0), loaded);
    var decided := Decides(loaded);
    OneMore(loaded, SaveQuiet(0, DecisionAttempt, 1), decided);
    var reserved := Reserves(decided);
    OneMore(decided, Reserve(0, {PalacesGet}, PalacesGet, 7, 2), reserved);
    var classified := Classifies(reserved);
    OneMore(reserved, ClassifyPending(0), classified);
    t := Finds(classified);
    OneMore(classified, FindToolCall(0), t);
  }

  lemma SecondHostInvokes(s: World) returns (t: World)
    requires Reachable(s) && First(s, HELD, Ready(2, CALL))
    ensures Reachable(t) && Dispatching(t, Calling) && t.ledger == map[] && t.handled == []
  {
    var leased, top := TakesOver(s);
    OneMore(s, AcquireLease, leased);
    OneMore(leased, Activate(1), top);
    var classified := ClassifiesAgain(top);
    OneMore(top, ClassifyPending(1), classified);
    var ready := FindsAgain(classified);
    OneMore(classified, FindToolCall(1), ready);
    t := Invokes(ready);
    OneMore(ready, Invoke(1, 0), t);
  }

  lemma SecondHostFinishes(s: World) returns (t: World)
    requires Reachable(s) && Dispatching(s, Calling) && s.ledger == map[] && s.handled == []
    ensures Reachable(t) && t.history == FINISHED && t.threads == map[] && t.handled == [CALL]
    ensures t.workers.Keys == {0, 1} && t.workers[0].stage == Ready(2, CALL) && SnapshotHeld(t, t.workers[1].stage)
  {
    var claimed := Claims(s);
    OneMore(s, ClaimStep(0), claimed);
    var handled := Handles(claimed);
    OneMore(claimed, HandlerStep(0, RESULT), handled);
    var completed := Completes(handled);
    OneMore(handled, CompleteStep(0), completed);
    var recorded := Records(completed);
    OneMore(completed, AppendStep(0), recorded);
    var collected := Collects(recorded);
    OneMore(recorded, Collect(1), collected);
    t := Clears(collected);
    OneMore(collected, SaveResult(1, 3), t);
  }

  /** The claim "a tool is invoked only while it is the durable pending call" fails here. */
  lemma StaleHostInvokesFinishedCall()
    ensures exists s: World, t: World ::
              && Reachable(s) && Next(s, Invoke(0, 1), t)
              && Last(s.history).pending == None
              && s.handled == [CALL]
              && t.threads == map[1 := Thread(CALL, Calling)]
  {
    var ready := FirstHostIsReady();
    var invoked := SecondHostInvokes(ready);
    var s := SecondHostFinishes(invoked);
    var t := DoInvoke(s, 0, 1).value;
    assert Next(s, Invoke(0, 1), t);
  }
}
