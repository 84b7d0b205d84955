/** What every execution of the host protocol guarantees, at each of its states. */
module HostTheorems {
  import opened Missions
  import opened Optional
  import opened RunLedger
  import opened OperationGate
  import opened InvocationLedger
  import opened CaretakerHost
  import opened HostInvariant
  import opened HostSteps
  import opened FiniteSets

  lemma AlwaysLegal(worlds: seq<World>, steps: seq<Step>, n: nat)
    requires Execution(worlds, steps) && n < |worlds|
    ensures Legal(worlds[n].history)
  {
    ExecutionKeeps(worlds, steps, n);
  }

  // ---------------------------------------------------------------- reservations and counts

  ghost predicate OneToolCallEach(h: History) {
    forall i, j | 0 <= i < j < |h| && h[i].kind == ToolCall && h[j].kind == ToolCall ::
      h[i].pending.Some? && h[j].pending.Some? && h[i].pending.value.id != h[j].pending.value.id
  }

  ghost predicate ReservationIdsDiffer(h: History) {
    forall i, j | 0 < i < j < |h| && h[i].pending.Some? && h[j].pending.Some?
                  && h[i - 1].pending.None? && h[j - 1].pending.None? ::
      h[i].pending.value.id != h[j].pending.value.id
  }

  /**
   * Crashes, conflicts and lease replacements included: the tool-call counter is the inherited count
   * plus the ids holding a tool_call checkpoint, no id holds two, and no reservation reuses an id.
   */
  lemma CallsCountedOnce(worlds: seq<World>, steps: seq<Step>, n: nat)
    requires Execution(worlds, steps) && n < |worlds|
    ensures var h := worlds[n].history;
            && Last(h).counters.toolCalls == h[0].counters.toolCalls + |Dispatched(h)|
            && OneToolCallEach(h) && ReservationIdsDiffer(h)
  {
    AlwaysLegal(worlds, steps, n);
    HistoryCountsOnce(worlds[n].history);
  }

  lemma HistoryCountsOnce(h: History)
    requires Legal(h)
    ensures Last(h).counters.toolCalls == h[0].counters.toolCalls + |Dispatched(h)|
    ensures OneToolCallEach(h) && ReservationIdsDiffer(h)
  {
    ToolCallsCounted(h);
    forall i, j | 0 <= i < j < |h| && h[i].kind == ToolCall && h[j].kind == ToolCall
      ensures h[i].pending.Some? && h[j].pending.Some? && h[i].pending.value.id != h[j].pending.value.id
    {
      OneToolCallPerId(h, i, j);
    }
    forall i, j | 0 < i < j < |h| && h[i].pending.Some? && h[j].pending.Some?
                  && h[i - 1].pending.None? && h[j - 1].pending.None?
      ensures h[i].pending.value.id != h[j].pending.value.id
    {
      ReservationsDistinct(h, i, j);
    }
  }

  lemma LegalCounters(h: History, i: nat)
    requires Legal(h) && i < |h|
    ensures h[i].counters.InRange()
  {
    LegalPrefix(h, i + 1);
    assert Last(h[..i + 1]) == h[i];
  }

  /** In every durable state of every execution, no counter is past its limit. */
  lemma CountersWithinLimits(worlds: seq<World>, steps: seq<Step>, n: nat)
    requires Execution(worlds, steps) && n < |worlds|
    ensures forall c <- worlds[n].history :: c.counters.InRange()
  {
    ExecutionKeeps(worlds, steps, n);
    forall i | 0 <= i < |worlds[n].history| ensures worlds[n].history[i].counters.InRange() {
      LegalCounters(worlds[n].history, i);
    }
  }

  /** A tool the gate lets through always fits the budget, so a reservation is never refused for it. */
  lemma OpenToolFitsBudget(granted: set<Tool>, view: View, counters: Counters, tool: Tool, runtime: nat)
    requires counters.InRange() && tool in AllowedTools(granted, view, counters) && Measured(counters, runtime)
    ensures ReservedCounters(counters, tool, runtime).InRange()
    ensures CounterTransition(counters, ReservedCounters(counters, tool, runtime), ReservationKind(tool))
  {}

  // ---------------------------------------------------------------- invocations

  lemma PendingContinues(h: History, at: nat, call: Call)
    requires Legal(h) && at < |h| && h[at].pending == Some(call) && Last(h).pending == Some(call)
    ensures forall j | at <= j < |h| :: h[j].pending == Some(call)
  {
    PendingStretch(h, at);
    PendingStretch(h, |h| - 1);
  }

  /** Only a result checkpoint ends a stretch, and the same call never becomes pending again. */
  lemma {:induction false} StretchEnds(h: History, at: nat, call: Call)
    requires Legal(h) && at < |h| && h[at].pending == Some(call)
    ensures Last(h).pending == Some(call) <==> forall j | at < j < |h| :: h[j].kind != StatePersisted
    ensures Last(h).pending == Some(call) || (exists j | at < j < |h| :: h[j].pending != Some(call))
  {
    if at < |h| - 1 {
      var prefix, last := h[..|h| - 1], Last(h);
      StretchEnds(prefix, at, call);
      if Last(prefix).pending == Some(call) {
        assert last.kind == StatePersisted <==> last.pending != Some(call) by {
          PendingAction(prefix);
        }
        assert forall j | at < j < |prefix| :: h[j] == prefix[j];
      } else {
        var j :| at < j < |prefix| && prefix[j].pending != Some(call);
        var k :| at < k < |prefix| && prefix[k].kind == StatePersisted;
        assert h[k].kind == StatePersisted;
        if last.pending == Some(call) {
          PendingContinues(h, at, call);
        }
      }
    }
  }

  /**
   * Every invocation finds the call's tool_call checkpoint already stored, and the call was the
   * durable pending one at the worker's snapshot. It still is exactly when no result checkpoint has
   * been written since; in particular whenever the snapshot is current.
   */
  lemma InvocationsAreReserved(worlds: seq<World>, steps: seq<Step>, n: nat, w: nat, t: nat)
    requires Execution(worlds, steps) && n < |steps| && steps[n] == Invoke(w, t)
    ensures w in worlds[n].workers && worlds[n].workers[w].stage.Ready?
    ensures var s := worlds[n];
            var at, call := s.workers[w].stage.at, s.workers[w].stage.call;
            && worlds[n + 1].threads == s.threads[t := Thread(call, Calling)]
            && at < |s.history|
            && s.history[at].pending == Some(call)
            && call.id in Dispatched(s.history)
            && (Last(s.history).pending == Some(call)
                <==> forall j | at < j < |s.history| :: s.history[j].kind != StatePersisted)
            && (at == Version(s) ==> Last(s.history).pending == Some(call))
  {
    var s := worlds[n];
    ExecutionKeeps(worlds, steps, n);
    assert Next(s, steps[n], worlds[n + 1]);
    assert WorkerOk(s, s.workers[w]);
    StretchEnds(s.history, s.workers[w].stage.at, s.workers[w].stage.call);
  }

  lemma {:induction false} DispatchedWitness(h: History, id: CallId)
    requires id in Dispatched(h)
    ensures exists i :: 0 <= i < |h| && h[i].kind == ToolCall && h[i].pending.Some? && h[i].pending.value.id == id
  {
    var prefix := h[..|h| - 1];
    if |h| > 1 && id in Dispatched(prefix) {
      DispatchedWitness(prefix, id);
      var i :| 0 <= i < |prefix| && prefix[i].kind == ToolCall && prefix[i].pending.Some?
        && prefix[i].pending.value.id == id;
      assert h[i] == prefix[i];
    } else {
      assert h[|h| - 1] == Last(h);
    }
  }

  // ---------------------------------------------------------------- crash recovery

  /** A restarted host reads the call's last own action back, past any number of lease replacements. */
  lemma {:induction false} RecoveryReadsLastAction(h: History)
    requires Legal(h) && Last(h).pending.Some?
    ensures ReservationOf(h, Last(h).pending.value.id) == Some(LastAction(h))
  {
    if Last(h).kind == LeaseReplaced {
      RecoveryReadsLastAction(h[..|h| - 1]);
    }
  }

  /** A pending call's id holds a tool_call checkpoint exactly when its last own action is not the semantic one. */
  lemma RecoveryKind(h: History)
    requires Legal(h) && Last(h).pending.Some?
    ensures var id := Last(h).pending.value.id;
            var kind := if Last(h).kind != LeaseReplaced then Some(Last(h).kind) else ReservationOf(h, id);
            && kind.Some? && (kind.value.Semantic() <==> id !in Dispatched(h))
            && (id in Dispatched(h) <==> HasToolCall(h, id))
  {
    var id := Last(h).pending.value.id;
    RecoveryReadsLastAction(h);
    PendingDispatched(h);
    if id in Dispatched(h) {
      DispatchedWitness(h, id);
    }
    if HasToolCall(h, id) {
      FoundIsDispatched(h, id);
    }
  }

  lemma PendingCallResumes(s: World, w: nat)
    requires Legal(s.history) && Last(s.history).status == RunActive && Last(s.history).pending.Some?
    requires Fenced(s, w) && s.workers[w].stage == Top(Version(s)) && s.workers[w].tally.steps < MAX_HOST_STEPS
    ensures var call := Last(s.history).pending.value;
            && DoClassify(s, w) == Some(SetStage(s, w,
                 if HasToolCall(s.history, call.id) then FindCall(Version(s), call) else ReserveCall(Version(s), call)))
            && (call.id in Dispatched(s.history) <==> HasToolCall(s.history, call.id))
  {
    RecoveryKind(s.history);
  }

  /**
   * Whatever crashed before: an activation on the newest version of a run with a pending call always
   * resumes it, writing the tool_call checkpoint exactly when the call's id does not hold one yet.
   */
  lemma PendingCallIsAlwaysResumed(worlds: seq<World>, steps: seq<Step>, n: nat, w: nat)
    requires Execution(worlds, steps) && n < |worlds|
    requires var s := worlds[n];
             && Fenced(s, w) && s.workers[w].stage == Top(Version(s)) && s.workers[w].tally.steps < MAX_HOST_STEPS
             && Last(s.history).status == RunActive && Last(s.history).pending.Some?
    ensures var s, call := worlds[n], Last(worlds[n].history).pending.value;
            && DoClassify(s, w) == Some(SetStage(s, w,
                 if HasToolCall(s.history, call.id) then FindCall(Version(s), call) else ReserveCall(Version(s), call)))
            && (call.id in Dispatched(s.history) <==> HasToolCall(s.history, call.id))
  {
    ExecutionKeeps(worlds, steps, n);
    PendingCallResumes(worlds[n], w);
  }

  /** Every call that is no longer pending, in any state of any execution, went through its tool_call checkpoint. */
  lemma FinishedCallsWereDispatched(worlds: seq<World>, steps: seq<Step>, n: nat, i: nat)
    requires Execution(worlds, steps) && n < |worlds|
    requires var h := worlds[n].history;
             i < |h| && h[i].pending.Some? && h[i].pending != Last(h).pending
    ensures var h := worlds[n].history;
            && h[i].pending.value.id in Dispatched(h)
            && exists k | i <= k < |h| :: h[k].kind == StatePersisted && h[k].pending == None
  {
    ExecutionKeeps(worlds, steps, n);
    FinishedCall(worlds[n].history, i);
  }

  lemma FinishedCall(h: History, i: nat)
    requires Legal(h) && i < |h| && h[i].pending.Some? && h[i].pending != Last(h).pending
    ensures h[i].pending.value.id in Dispatched(h)
    ensures exists k | i <= k < |h| :: h[k].kind == StatePersisted && h[k].pending == None
  {
    PastCallsDispatched(h, i);
    ResultEndsCall(h, i);
  }

  lemma {:induction false} ResultEndsCall(h: History, i: nat)
    requires Legal(h) && i < |h| && h[i].pending.Some? && h[i].pending != Last(h).pending
    ensures exists k | i <= k < |h| :: h[k].kind == StatePersisted && h[k].pending == None
  {
    var prefix := h[..|h| - 1];
    if Last(prefix).pending == h[i].pending {
      PendingAction(prefix);
      assert h[|h| - 1].kind == StatePersisted;
    } else {
      ResultEndsCall(prefix, i);
      var k :| i <= k < |prefix| && prefix[k].kind == StatePersisted && prefix[k].pending == None;
      assert h[k] == prefix[k];
    }
  }

  // ---------------------------------------------------------------- receipts

  /** With no call pending, every call ever reserved has a receipt that passes the projection's checks. */
  lemma EveryReservationIsBound(worlds: seq<World>, steps: seq<Step>, n: nat)
    requires Execution(worlds, steps) && n < |worlds|
    requires Last(worlds[n].history).pending == None
    ensures AllBound(worlds[n].history, worlds[n].receipts, worlds[n].tenant)
  {
    ExecutionKeeps(worlds, steps, n);
  }

  // ---------------------------------------------------------------- the gate over a whole run

  /** Each log entry starts a stretch of the history, and the entry before it is the call reserved last. */
  ghost predicate Starts(h: History, log: seq<LogEntry>, k: nat)
    requires k < |log|
  {
    var e := log[k];
    && e.version == e.view.version + 2 && e.version < |h|
    && h[e.version].pending == Some(e.call) && h[e.version - 1].pending == None
    && LastReserved(h[..e.version]) == (if k == 0 then None else Some(log[k - 1].call))
  }

  lemma CoreStarts(s: World, k: nat)
    requires Core(s) && k < |s.log|
    ensures Starts(s.history, s.log, k)
  {
    assert EntryOk(s, k);
  }

  lemma ReservedAfter(h: History, version: nat, call: Call)
    requires Legal(h) && 0 < version < |h| && LastReserved(h[..version]) == Some(call)
    ensures call.id.runVersion + 1 < version
  {
    var before := h[..version];
    LastReservedOccurs(before);
    var m :| 0 <= m < |before| && before[m].pending == Some(call);
    PendingStretch(h, m);
  }

  lemma {:induction false} LogOrdered(h: History, log: seq<LogEntry>, i: nat, j: nat)
    requires Legal(h) && i < j < |log| && forall k: nat | k < |log| :: Starts(h, log, k)
    ensures log[i].version <= log[j].view.version
  {
    assert Starts(h, log, i) && Starts(h, log, j) && Starts(h, log, j - 1);
    PendingStretch(h, log[j - 1].version);
    ReservedAfter(h, log[j].version, log[j - 1].call);
    if i < j - 1 {
      LogOrdered(h, log, i, j - 1);
    }
  }

  /** The projection a reservation was decided on reads the previous reservation's outcome. */
  lemma ProjectionSeesPreviousCall(s: World, k: nat, next: nat)
    requires Core(s) && next == k + 1 < |s.log|
    ensures s.log[k].call.id in s.receipts
    ensures s.log[next].view.newest
            == Some(CallOutcome(s.log[k].call.tool, s.receipts[s.log[k].call.id].outcome.status))
  {
    assert EntryOk(s, next);
    var e := s.log[next];
    var before := s.history[..e.version];
    var seen := s.history[..e.view.version + 1];
    assert before[..|before| - 1] == seen && Last(before) == s.history[e.version - 1];
    LastReservedOccurs(seen);
    var m :| 0 <= m < |seen| && seen[m].pending == Some(s.log[k].call);
  }

  lemma LaterFollows(s: World, i: nat, j: nat)
    requires Core(s) && i <= j < |s.log|
    ensures Follows(s.log[i].view, s.log[j].view.mission, s.log[j].view.facts)
  {
    if i == j {
      FollowsStart(s.log[i].view);
    } else {
      forall k: nat | k < |s.log| ensures Starts(s.history, s.log, k) { CoreStarts(s, k); }
      LogOrdered(s.history, s.log, i, j);
      assert EntryOk(s, j);
    }
  }

  lemma OpenAndConsistent(s: World, k: nat)
    requires Core(s) && k < |s.log|
    ensures ViewConsistent(s.log[k].view) && GatePassed(s.log[k].view, s.log[k].call.tool)
  {
    assert EntryOk(s, k);
  }

  lemma GateMeansSettled(v: View, tool: Tool)
    requires ViewConsistent(v) && GatePassed(v, tool)
    ensures tool == OperationsGet || !OperationExists(v.facts) || OperationSettled(v.mission, v.facts)
    ensures tool.Consequential() ==> v.mission.phase == Execute
  {
    var granted: set<Tool>, counters: Counters :| tool in AllowedTools(granted, v, counters);
    if tool != OperationsGet && OperationExists(v.facts) {
      GateWhileOperationExists(v, granted, counters, tool);
    }
  }

  lemma EntryMeansSettled(s: World, k: nat)
    requires Core(s) && k < |s.log|
    ensures var v, tool := s.log[k].view, s.log[k].call.tool;
            && (tool == OperationsGet || !OperationExists(v.facts) || OperationSettled(v.mission, v.facts))
            && (tool.Consequential() ==> v.mission.phase == Execute)
  {
    OpenAndConsistent(s, k);
    GateMeansSettled(s.log[k].view, s.log[k].call.tool);
  }

  /** The projection made right after the unresolved call has the operation of its plan. */
  lemma NextProjectionHasOperation(s: World, i: nat, next: nat)
    requires Core(s) && next == i + 1 < |s.log| && s.log[i].call.tool.Consequential()
    requires s.log[i].call.id in s.receipts ==> s.receipts[s.log[i].call.id].outcome.status in {Pending, Unknown}
    ensures OperationExists(s.log[next].view.facts)
  {
    ProjectionSeesPreviousCall(s, i, next);
    OpenAndConsistent(s, next);
    AcceptedMeansOperation(s.log[next].view);
  }

  lemma AcceptedMeansOperation(v: View)
    requires ViewConsistent(v) && v.newest.Some? && v.newest.value.RequiresReconciliation()
    ensures OperationExists(v.facts)
  {
    ProjectionMeansSettled(v.mission, v.facts);
  }

  /**
   * What a reservation of `tool` on the projection `later` means for an earlier consequential call
   * reserved on `own`, the projection whose plan it acted on.
   */
  ghost predicate DecidedKnowingly(own: View, later: View, tool: Tool) {
    && own.facts.plan.Some? && later.facts.plan.Some? && own.facts.plan.value.id <= later.facts.plan.value.id
    && (|| tool == OperationsGet
        || (if own.facts.plan.value.id == later.facts.plan.value.id then OperationSettled(later.mission, later.facts)
            else Concluded(later.facts, own.facts.plan.value.id)))
  }

  /** `first` is the projection made right after the unresolved call. */
  lemma GateClosed(own: View, first: View, later: View, tool: Tool)
    requires own.mission.phase == Execute && OperationExists(first.facts)
    requires own.facts.plan.Some? ==> |ForPlan(own.facts.operations, own.facts.plan.value.id)| <= 1
    requires Follows(own, first.mission, first.facts) && Follows(own, later.mission, later.facts)
    requires Follows(first, later.mission, later.facts)
    requires tool == OperationsGet || !OperationExists(later.facts) || OperationSettled(later.mission, later.facts)
    ensures DecidedKnowingly(own, later, tool)
  {
    if own.facts.plan.value.id == later.facts.plan.value.id {
      OperationPersists(first.facts, later.facts);
    } else {
      ReplacedPlanIsConcluded(own, later.mission, later.facts);
    }
  }

  lemma OwnPlanHasOneOperation(s: World, k: nat)
    requires Core(s) && k < |s.log| && s.log[k].view.facts.plan.Some?
    ensures |ForPlan(s.log[k].view.facts.operations, s.log[k].view.facts.plan.value.id)| <= 1
  {
    OpenAndConsistent(s, k);
    OneOperationSeen(s.log[k].view);
  }

  lemma GateClosedFrom(s: World, i: nat, first: View, j: nat)
    requires Core(s) && i < j < |s.log| && OperationExists(first.facts)
    requires Follows(s.log[i].view, first.mission, first.facts)
    requires Follows(first, s.log[j].view.mission, s.log[j].view.facts)
    requires s.log[i].call.tool.Consequential()
    ensures DecidedKnowingly(s.log[i].view, s.log[j].view, s.log[j].call.tool)
  {
    EntryMeansSettled(s, i);
    EntryMeansSettled(s, j);
    if s.log[i].view.facts.plan.Some? {
      OwnPlanHasOneOperation(s, i);
    }
    LaterFollows(s, i, j);
    GateClosed(s.log[i].view, first, s.log[j].view, s.log[j].call.tool);
  }

  /** The same statement about any state that satisfies the invariant. */
  lemma GateStaysClosed(s: World, i: nat, next: nat, j: nat)
    requires Core(s) && next == i + 1 <= j < |s.log|
    requires s.log[i].call.tool.Consequential()
    requires s.log[i].call.id in s.receipts ==> s.receipts[s.log[i].call.id].outcome.status in {Pending, Unknown}
    ensures DecidedKnowingly(s.log[i].view, s.log[j].view, s.log[j].call.tool)
  {
    NextProjectionHasOperation(s, i, next);
    LaterFollows(s, i, next);
    LaterFollows(s, next, j);
    GateClosedFrom(s, i, s.log[next].view, j);
  }

  /**
   * After a consequential call returned pending or unknown, every later reservation of the run is
   * operations.get, or was decided on a projection in which the operation of the call's own plan is
   * settled; once another plan is in force, its sole operation is committed, failed or cancelled.
   */
  lemma UnresolvedCallClosesTheGate(worlds: seq<World>, steps: seq<Step>, n: nat, i: nat, j: nat)
    requires Execution(worlds, steps) && n < |worlds|
    requires i < j < |worlds[n].log|
    requires var s := worlds[n];
             && s.log[i].call.tool.Consequential()
             && (s.log[i].call.id in s.receipts ==> s.receipts[s.log[i].call.id].outcome.status in {Pending, Unknown})
    ensures var own, later := worlds[n].log[i].view, worlds[n].log[j].view;
            && own.facts.plan.Some? && later.facts.plan.Some? && own.facts.plan.value.id <= later.facts.plan.value.id
            && (|| worlds[n].log[j].call.tool == OperationsGet
                || (if own.facts.plan.value.id == later.facts.plan.value.id
                    then OperationSettled(later.mission, later.facts)
                    else Concluded(later.facts, own.facts.plan.value.id)))
  {
    ExecutionKeeps(worlds, steps, n);
    GateStaysClosed(worlds[n], i, i + 1, j);
  }

  // ---------------------------------------------------------------- effects

  function Writes(calls: seq<Call>): (r: seq<Call>)
    ensures forall c <- r :: c in calls && !c.tool.ReadOnly()
  {
    if calls == [] then []
    else
      var rest := Writes(calls[..|calls| - 1]);
      if calls[|calls| - 1].tool.ReadOnly() then rest else rest + [calls[|calls| - 1]]
  }

  lemma {:induction false} DistinctWrites(calls: seq<Call>, ids: set<CallId>)
    requires forall c <- calls :: c.id in ids
    requires forall i, j | 0 <= i < j < |calls| && !calls[i].tool.ReadOnly() :: calls[i].id != calls[j].id
    ensures |Writes(calls)| <= |ids|
  {
    if calls != [] {
      var init, last := calls[..|calls| - 1], calls[|calls| - 1];
      if last.tool.ReadOnly() {
        DistinctWrites(init, ids);
      } else {
        var writeIds := set c | c in Writes(init) :: c.id;
        DistinctIds(init);
        assert writeIds <= ids - {last.id};
        SubsetSize(writeIds, ids - {last.id});
      }
    }
  }

  lemma {:induction false} DistinctIds(calls: seq<Call>)
    requires forall i, j | 0 <= i < j < |calls| && !calls[i].tool.ReadOnly() :: calls[i].id != calls[j].id
    ensures |Writes(calls)| == |set c | c in Writes(calls) :: c.id|
  {
    if calls != [] {
      var init, last := calls[..|calls| - 1], calls[|calls| - 1];
      DistinctIds(init);
      var before := set c | c in Writes(init) :: c.id;
      if last.tool.ReadOnly() {
      } else {
        assert (set c | c in Writes(calls) :: c.id) == before + {last.id};
        assert last.id !in before;
      }
    }
  }

  /**
   * Handlers of tools that write run at most once per call id, only for calls holding a tool_call
   * checkpoint, and in all at most as often as the run was charged for.
   */
  lemma WritesHappenAtMostOnce(worlds: seq<World>, steps: seq<Step>, n: nat)
    requires Execution(worlds, steps) && n < |worlds|
    ensures var s := worlds[n];
            && (forall i, j | 0 <= i < j < |s.handled| && !s.handled[i].tool.ReadOnly() ::
                s.handled[i].id != s.handled[j].id)
            && (forall c <- s.handled :: c.id in Dispatched(s.history))
            && |Writes(s.handled)| <= Last(s.history).counters.toolCalls - s.history[0].counters.toolCalls
  {
    ExecutionKeeps(worlds, steps, n);
    var s := worlds[n];
    ToolCallsCounted(s.history);
    DistinctWrites(s.handled, Dispatched(s.history));
  }

  // ---------------------------------------------------------------- the step bound

  /** An activation runs out of its loop steps only after more than maxToolCalls + 14 version conflicts. */
  lemma ExhaustionNeedsConflicts(worlds: seq<World>, steps: seq<Step>, n: nat, w: nat)
    requires Execution(worlds, steps) && n < |worlds| && w in worlds[n].workers
    requires worlds[n].workers[w].tally.conflicts <= MAX_TOOL_CALLS + 14
    ensures worlds[n].workers[w].tally.steps < MAX_HOST_STEPS && worlds[n].workers[w].stage != Done(true)
  {
    ExecutionKeeps(worlds, steps, n);
    assert WorkerOk(worlds[n], worlds[n].workers[w]);
    StretchesBounded(worlds[n].history);
  }
}
