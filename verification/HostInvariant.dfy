/** The invariant of the host protocol and its preservation by every step. */
module HostInvariant {
  import opened Missions
  import opened Optional
  import opened RunLedger
  import opened OperationGate
  import opened InvocationLedger
  import opened CaretakerHost

  ghost predicate Bound(s: World, call: Call) {
    call.id in s.receipts && ProjectedBinding(s.receipts[call.id], call, s.tenant)
  }

  ghost predicate ViewOk(s: World, v: View) {
    && v.version < |s.history|
    && ViewConsistent(v)
    && AllBound(s.history[..v.version + 1], s.receipts, s.tenant)
    && v.newest == NewestOutcome(s.history[..v.version + 1], s.receipts)
    && Follows(v, s.mission, s.facts)
    && (forall k | 0 <= k < |s.log| && s.log[k].version <= v.version :: Follows(s.log[k].view, v.mission, v.facts))
  }

  ghost predicate HoldsCall(s: World, at: nat, call: Call) {
    at < |s.history| && s.history[at].pending == Some(call)
  }

  ghost predicate StageOk(s: World, stage: Stage) {
    match stage
    case Done(_) => true
    case Top(at) => at < |s.history|
    case Advancing(at) => at < |s.history| && s.history[at].pending == None
    case ReserveCall(at, call) => HoldsCall(s, at, call)
    case FindCall(at, call) => HoldsCall(s, at, call)
    case Ready(at, call) => HoldsCall(s, at, call) && call.id in Dispatched(s.history)
    case Awaiting(at, call) => HoldsCall(s, at, call) && call.id in Dispatched(s.history)
    case Waiting(at, call) => HoldsCall(s, at, call) && call.id in Dispatched(s.history)
    case Observed(at, call, outcome) =>
      HoldsCall(s, at, call) && call.id in Dispatched(s.history) && Bound(s, call)
    case Loaded(at, view) => at <= view.version && ViewOk(s, view) && s.history[at].pending == None
    case Attempted(at, view) =>
      at == view.version + 1 && at < |s.history| && s.history[at].pending == None && ViewOk(s, view)
  }

  ghost predicate TallyOk(s: World, worker: Worker) {
    var t := worker.tally;
    && t.steps == t.reserves + t.clears + t.advances + t.conflicts
    && t.steps <= MAX_HOST_STEPS
    && (!worker.stage.Top? && !worker.stage.Done? ==> t.steps < MAX_HOST_STEPS)
    && (worker.stage == Done(true) ==> t.steps == MAX_HOST_STEPS)
    && t.reserves <= Reservations(s.history)
    && t.clears <= Clearings(s.history)
    && t.advances + (if worker.stage.Advancing? then 1 else 0) <= (if s.mission.phase == Understand then 0 else 1)
  }

  ghost predicate WorkerOk(s: World, worker: Worker) {
    StageOk(s, worker.stage) && TallyOk(s, worker)
  }

  ghost predicate Workers(s: World) {
    forall w <- s.workers :: WorkerOk(s, s.workers[w])
  }

  /** A reservation passed the tool gate of the projection it was decided on. */
  ghost predicate GatePassed(v: View, tool: Tool) {
    exists granted: set<Tool>, counters: Counters :: tool in AllowedTools(granted, v, counters)
  }

  ghost predicate EntryOk(s: World, k: nat)
    requires k < |s.log|
  {
    var e := s.log[k];
    && e.version == e.view.version + 2 && e.version < |s.history|
    && s.history[e.version].pending == Some(e.call)
    && s.history[e.version - 1].pending == None
    && ViewOk(s, e.view)
    && GatePassed(e.view, e.call.tool)
    && LastReserved(s.history[..e.version]) == (if k == 0 then None else Some(s.log[k - 1].call))
  }

  ghost predicate Core(s: World) {
    && Legal(s.history)
    && (forall i | 0 <= i < |s.history| && s.history[i].pending.Some?
        && s.history[i].pending != Last(s.history).pending ::
          Bound(s, s.history[i].pending.value))
    && (forall k | 0 <= k < |s.log| :: EntryOk(s, k))
    && LastReserved(s.history) == (if s.log == [] then None else Some(s.log[|s.log| - 1].call))
  }

  ghost predicate ThreadOk(s: World, thread: Thread) {
    && thread.call.id in Dispatched(s.history)
    && thread.call.id.tool == thread.call.tool
    && (thread.stage.Handling? ==>
          && thread.call.id in s.ledger
          && (!thread.call.tool.ReadOnly() ==> forall c <- s.handled :: c.id != thread.call.id))
  }

  ghost predicate Effects(s: World) {
    && (forall t <- s.threads :: ThreadOk(s, s.threads[t]))
    && (forall t <- s.threads, u <- s.threads |
          t != u && s.threads[t].stage.Handling? && s.threads[u].stage.Handling?
            && !s.threads[t].call.tool.ReadOnly() ::
          s.threads[t].call.id != s.threads[u].call.id)
    && (forall c <- s.handled :: c.id in s.ledger && c.id in Dispatched(s.history) && c.id.tool == c.tool)
    && (forall i, j | 0 <= i < j < |s.handled| && !s.handled[i].tool.ReadOnly() :: s.handled[i].id != s.handled[j].id)
  }

  ghost predicate Inv(s: World) {
    Core(s) && Workers(s) && Effects(s)
  }

  // ---------------------------------------------------------------- durable state only grows

  ghost predicate Grows(s: World, t: World) {
    && s.history <= t.history
    && Legal(t.history)
    && s.tenant == t.tenant
    && (forall id <- s.receipts :: id in t.receipts && t.receipts[id] == s.receipts[id])
    && Advances(s.mission, s.facts, t.mission, t.facts)
    && s.log <= t.log
    && (forall k | |s.log| <= k < |t.log| :: t.log[k].version >= |s.history|)
  }

  lemma {:induction false} CountsMonotone(h: History, g: History)
    requires h <= g
    ensures Reservations(h) <= Reservations(g) && Clearings(h) <= Clearings(g)
    decreases |g|
  {
    if |h| < |g| {
      CountsMonotone(h, g[..|g| - 1]);
    } else {
      assert h == g;
    }
  }

  lemma NewestOutcomeStable(h: History, receipts: map<CallId, Receipt>, more: map<CallId, Receipt>, tenant: nat)
    requires AllBound(h, receipts, tenant)
    requires forall id <- receipts :: id in more && more[id] == receipts[id]
    ensures AllBound(h, more, tenant) && NewestOutcome(h, more) == NewestOutcome(h, receipts)
  {
    LastReservedOccurs(h);
  }

  lemma ViewKept(s: World, t: World, v: View)
    requires ViewOk(s, v) && Grows(s, t)
    ensures ViewOk(t, v)
  {
    assert t.history[..v.version + 1] == s.history[..v.version + 1];
    NewestOutcomeStable(s.history[..v.version + 1], s.receipts, t.receipts, s.tenant);
    FollowsAdvance(v, s.mission, s.facts, t.mission, t.facts);
    forall k | 0 <= k < |t.log| && t.log[k].version <= v.version
      ensures Follows(t.log[k].view, v.mission, v.facts)
    {
      assert k < |s.log|;
      assert t.log[k] == s.log[k];
    }
  }

  lemma WorkerKept(s: World, t: World, worker: Worker)
    requires WorkerOk(s, worker) && Grows(s, t)
    ensures WorkerOk(t, worker)
  {
    DispatchedMonotone(s.history, t.history);
    CountsMonotone(s.history, t.history);
    match worker.stage
    case Loaded(_, view) => ViewKept(s, t, view);
    case Attempted(_, view) => ViewKept(s, t, view);
    case _ =>
  }

  /** All workers but one carry over; the one that moved is checked on its own. */
  lemma WorkersKept(s: World, t: World, w: nat)
    requires Workers(s) && Grows(s, t)
    requires t.workers.Keys <= s.workers.Keys + {w}
    requires forall u <- t.workers | u != w :: u in s.workers && t.workers[u] == s.workers[u]
    requires w in t.workers ==> WorkerOk(t, t.workers[w])
    ensures Workers(t)
  {
    forall u <- t.workers
      ensures WorkerOk(t, t.workers[u])
    {
      if u != w {
        WorkerKept(s, t, s.workers[u]);
      }
    }
  }

  lemma EffectsKept(s: World, t: World)
    requires Effects(s) && Grows(s, t)
    requires t.threads == s.threads && t.handled == s.handled && t.ledger == s.ledger
    ensures Effects(t)
  {
    DispatchedMonotone(s.history, t.history);
  }

  lemma EntryKept(s: World, t: World, k: nat)
    requires k < |s.log| && EntryOk(s, k) && Grows(s, t)
    ensures EntryOk(t, k)
  {
    ViewKept(s, t, s.log[k].view);
    assert t.history[..s.log[k].version] == s.history[..s.log[k].version];
  }

  lemma CoreKept(s: World, t: World)
    requires Core(s) && Grows(s, t) && t.history == s.history && t.log == s.log
    ensures Core(t)
  {
    forall k | 0 <= k < |t.log| ensures EntryOk(t, k) { EntryKept(s, t, k); }
  }

  lemma AppendGrows(s: World, t: World, next: Checkpoint)
    requires Legal(s.history) && Extends(s.history, next)
    requires t.history == s.history + [next]
    requires t.tenant == s.tenant && t.receipts == s.receipts && t.facts == s.facts && t.mission == s.mission
    requires s.log <= t.log && forall k | |s.log| <= k < |t.log| :: t.log[k].version >= |s.history|
    ensures Grows(s, t)
  {
    LegalAppend(s.history, next);
  }

  /** A checkpoint that reserves nothing: it keeps or clears the pending call, or holds none. */
  lemma CoreAppend(s: World, t: World, next: Checkpoint)
    requires Core(s) && Extends(s.history, next) && Grows(s, t)
    requires t.history == s.history + [next] && t.log == s.log
    requires next.pending == Last(s.history).pending
             || (next.pending == None && Last(s.history).pending.Some? && Bound(s, Last(s.history).pending.value))
    ensures Core(t)
  {
    forall k | 0 <= k < |t.log| ensures EntryOk(t, k) { EntryKept(s, t, k); }
    assert t.history[..|t.history| - 1] == s.history;
  }

  /** What a host write adds is always a legal continuation. */
  lemma SaveExtends(s: World, w: nat, at: nat, kind: Kind, counters: Counters, pending: Option<Call>)
    requires Legal(s.history) && w in s.workers && SaveCheckpoint(s, w, at, kind, counters, pending).Applied?
    requires Last(s.history).pending.None? && pending.Some? ==>
               && pending.value.id == CallId(at, pending.value.tool, pending.value.input)
               && kind == ReservationKind(pending.value.tool)
               && Last(s.history).counters.toolCalls < MAX_TOOL_CALLS
    ensures at == Version(s)
    ensures var h := SaveCheckpoint(s, w, at, kind, counters, pending).history;
            h == s.history + [Last(h)] && Extends(s.history, Last(h)) && Last(h).pending == pending
              && Last(h).kind == kind
  {
    if Last(s.history).pending.Some? {
      PendingAction(s.history);
    }
  }

  // ---------------------------------------------------------------- worker steps that write nothing

  /** Only worker `w` changed, and its new stage is sound. */
  ghost predicate Moves(s: World, w: nat, t: World) {
    && w in t.workers
    && t == s.(workers := s.workers[w := t.workers[w]])
    && WorkerOk(s, t.workers[w])
  }

  lemma MoveKeeps(s: World, w: nat, t: World)
    requires Inv(s) && Moves(s, w, t)
    ensures Inv(t)
  {
    CoreKept(s, t);
    WorkerKept(s, t, t.workers[w]);
    WorkersKept(s, t, w);
    EffectsKept(s, t);
  }

  lemma ClassifyMoves(s: World, w: nat, t: World)
    requires w in s.workers && WorkerOk(s, s.workers[w]) && DoClassify(s, w) == Some(t)
    ensures Moves(s, w, t)
  {}

  lemma FoundIsDispatched(h: History, id: CallId)
    requires HasToolCall(h, id)
    ensures id in Dispatched(h)
  {
    var c :| c in h && c.kind == ToolCall && c.pending.Some? && c.pending.value.id == id;
    var i :| 0 <= i < |h| && h[i] == c;
    DispatchedMember(h, i);
  }

  lemma FindToolCallMoves(s: World, w: nat, t: World)
    requires w in s.workers && WorkerOk(s, s.workers[w]) && DoFindToolCall(s, w) == Some(t)
    ensures Moves(s, w, t)
  {
    var stage := s.workers[w].stage;
    if HasToolCall(s.history, stage.call.id) {
      FoundIsDispatched(s.history, stage.call.id);
    } else {
      DispatchedMember(s.history, stage.at);
    }
  }

  lemma CollectMoves(s: World, w: nat, t: World)
    requires w in s.workers && WorkerOk(s, s.workers[w]) && DoCollect(s, w) == Some(t)
    ensures Moves(s, w, t)
  {}

  lemma GiveUpMoves(s: World, w: nat, t: World)
    requires w in s.workers && WorkerOk(s, s.workers[w]) && DoGiveUp(s, w) == Some(t)
    ensures Moves(s, w, t)
  {}

  lemma LeaveMoves(s: World, w: nat, t: World)
    requires w in s.workers && WorkerOk(s, s.workers[w]) && DoLeave(s, w) == Some(t)
    ensures Moves(s, w, t)
  {}

  lemma StopMoves(s: World, w: nat)
    requires w in s.workers && WorkerOk(s, s.workers[w]) && s.workers[w].stage.Waiting?
    ensures Moves(s, w, SetStage(s, w, Done(false)))
  {}

  lemma LoadMoves(s: World, w: nat, t: World)
    requires Core(s) && w in s.workers && WorkerOk(s, s.workers[w]) && DoLoad(s, w) == Some(t)
    ensures Moves(s, w, t)
  {
    var view := t.workers[w].stage.view;
    assert s.history[..view.version + 1] == s.history;
    if s.workers[w].reconcile {
      FlagOnlyTightens(view);
    }
    FollowsStart(view);
    forall k | 0 <= k < |s.log| ensures Follows(s.log[k].view, view.mission, view.facts) {
      assert EntryOk(s, k);
    }
  }

  /** The failed write was the last act of this iteration, whichever stage it came from. */
  lemma ConflictMoves(s: World, w: nat)
    requires w in s.workers && WorkerOk(s, s.workers[w]) && s.workers[w].tally.steps < MAX_HOST_STEPS
    ensures Moves(s, w, Reloaded(s, w))
  {}

  // ---------------------------------------------------------------- worker steps that write

  /** Only durable history and one worker changed. */
  ghost predicate OnlyHistory(s: World, t: World, w: nat) {
    w in t.workers && t == s.(history := t.history, workers := s.workers[w := t.workers[w]])
  }

  ghost predicate Appends(s: World, t: World, next: Checkpoint) {
    && t.history == s.history + [next]
    && Extends(s.history, next)
    && (|| next.pending == Last(s.history).pending
        || (next.pending == None && Last(s.history).pending.Some? && Bound(s, Last(s.history).pending.value)))
  }

  ghost predicate Writes(s: World, w: nat, t: World) {
    && w in t.workers && OnlyHistory(s, t, w)
    && Appends(s, t, Last(t.history))
    && WorkerOk(t, t.workers[w])
  }

  lemma WriteKeeps(s: World, w: nat, t: World)
    requires Inv(s) && Writes(s, w, t)
    ensures Inv(t)
  {
    AppendGrows(s, t, Last(t.history));
    CoreAppend(s, t, Last(t.history));
    WorkersKept(s, t, w);
    EffectsKept(s, t);
  }

  /** A tool_call or tool_wait checkpoint keeps the call; the worker goes on or stops. */
  lemma KeptCallWrites(s: World, w: nat, t: World, next: Checkpoint)
    requires w in s.workers && WorkerOk(s, s.workers[w]) && OnlyHistory(s, t, w)
    requires s.workers[w].stage.ReserveCall? || s.workers[w].stage.Waiting?
    requires s.workers[w].stage.at == Version(s)
    requires t.history == s.history + [next] && Extends(s.history, next)
             && next.pending == Some(s.workers[w].stage.call)
    requires t.workers[w].stage in {FindCall(|s.history|, s.workers[w].stage.call), Done(false)}
    requires t.workers[w].tally == s.workers[w].tally
    ensures Writes(s, w, t)
  {
    CountsMonotone(s.history, t.history);
  }

  lemma SaveToolCallWrites(s: World, w: nat, t: World)
    requires Legal(s.history) && w in s.workers && WorkerOk(s, s.workers[w]) && DoSaveToolCall(s, w) == Some(t)
    ensures Writes(s, w, t) || Moves(s, w, t)
  {
    var stage := s.workers[w].stage;
    var counters := CountersAt(s, stage.at);
    var next := counters.(toolCalls := counters.toolCalls + 1);
    if SaveCheckpoint(s, w, stage.at, ToolCall, next, Some(stage.call)).Applied? {
      SaveExtends(s, w, stage.at, ToolCall, next, Some(stage.call));
      KeptCallWrites(s, w, t, Last(t.history));
    } else {
      ConflictMoves(s, w);
    }
  }

  lemma SaveWaitWrites(s: World, w: nat, runtime: nat, t: World)
    requires Legal(s.history) && w in s.workers && WorkerOk(s, s.workers[w]) && DoSaveWait(s, w, runtime) == Some(t)
    ensures Writes(s, w, t) || Moves(s, w, t)
  {
    var stage := s.workers[w].stage;
    var counters := CountersAt(s, stage.at).(runtime := runtime);
    if t == SetStage(s, w, Done(false)) {
      StopMoves(s, w);
    } else if SaveCheckpoint(s, w, stage.at, ToolWait, counters, Some(stage.call)).Applied? {
      SaveExtends(s, w, stage.at, ToolWait, counters, Some(stage.call));
      KeptCallWrites(s, w, t, Last(t.history));
    } else {
      ConflictMoves(s, w);
    }
  }

  lemma ResultApplied(s: World, w: nat, t: World, next: Checkpoint)
    requires Legal(s.history) && w in s.workers && WorkerOk(s, s.workers[w]) && OnlyHistory(s, t, w)
    requires s.workers[w].stage.Observed? && s.workers[w].stage.at == Version(s)
    requires t.history == s.history + [next] && Extends(s.history, next) && next.pending == None
    requires t.workers[w].stage == Top(|s.history|)
    requires var tally := s.workers[w].tally;
             t.workers[w].tally == tally.(steps := tally.steps + 1, clears := tally.clears + 1)
    ensures Writes(s, w, t)
  {
    assert t.history[..|t.history| - 1] == s.history;
    assert Clearings(t.history) == Clearings(s.history) + 1;
    CountsMonotone(s.history, t.history);
  }

  lemma SaveResultWrites(s: World, w: nat, runtime: nat, t: World)
    requires Legal(s.history) && w in s.workers && WorkerOk(s, s.workers[w]) && DoSaveResult(s, w, runtime) == Some(t)
    ensures Writes(s, w, t) || Moves(s, w, t)
  {
    var stage := s.workers[w].stage;
    var counters := CountersAt(s, stage.at).(runtime := runtime);
    if SaveCheckpoint(s, w, stage.at, StatePersisted, counters, None).Applied? {
      ResultSaved(s, w, runtime, t);
    } else {
      ConflictMoves(s, w);
    }
  }

  lemma ResultSaved(s: World, w: nat, runtime: nat, t: World)
    requires Legal(s.history) && w in s.workers && WorkerOk(s, s.workers[w]) && DoSaveResult(s, w, runtime) == Some(t)
    requires var at := s.workers[w].stage.at;
             SaveCheckpoint(s, w, at, StatePersisted, CountersAt(s, at).(runtime := runtime), None).Applied?
    ensures Writes(s, w, t)
  {
    var at := s.workers[w].stage.at;
    SaveExtends(s, w, at, StatePersisted, CountersAt(s, at).(runtime := runtime), None);
    ResultApplied(s, w, t, Last(t.history));
  }

  lemma AdvanceApplied(s: World, w: nat, t: World, next: Checkpoint)
    requires Legal(s.history) && w in s.workers && WorkerOk(s, s.workers[w]) && OnlyHistory(s, t, w)
    requires s.workers[w].stage.Advancing? && s.workers[w].stage.at == Version(s)
    requires t.history == s.history + [next] && Extends(s.history, next) && next.pending == None
    requires t.workers[w].stage == Top(|s.history|)
    requires var tally := s.workers[w].tally;
             t.workers[w].tally == tally.(steps := tally.steps + 1, advances := tally.advances + 1)
    ensures Writes(s, w, t)
  {
    CountsMonotone(s.history, t.history);
  }

  lemma SaveAdvanceWrites(s: World, w: nat, runtime: nat, t: World)
    requires Legal(s.history) && w in s.workers && WorkerOk(s, s.workers[w]) && DoSaveAdvance(s, w, runtime) == Some(t)
    ensures Writes(s, w, t) || Moves(s, w, t)
  {
    var stage := s.workers[w].stage;
    var counters := CountersAt(s, stage.at).(runtime := runtime);
    if SaveCheckpoint(s, w, stage.at, StatePersisted, counters, None).Applied? {
      AdvanceSaved(s, w, runtime, t);
    } else {
      ConflictMoves(s, w);
    }
  }

  lemma AdvanceSaved(s: World, w: nat, runtime: nat, t: World)
    requires Legal(s.history) && w in s.workers && WorkerOk(s, s.workers[w]) && DoSaveAdvance(s, w, runtime) == Some(t)
    requires var at := s.workers[w].stage.at;
             SaveCheckpoint(s, w, at, StatePersisted, CountersAt(s, at).(runtime := runtime), None).Applied?
    ensures Writes(s, w, t)
  {
    var at := s.workers[w].stage.at;
    SaveExtends(s, w, at, StatePersisted, CountersAt(s, at).(runtime := runtime), None);
    AdvanceApplied(s, w, t, Last(t.history));
  }

  lemma QuietApplied(s: World, w: nat, t: World, next: Checkpoint)
    requires Legal(s.history) && w in s.workers && WorkerOk(s, s.workers[w]) && OnlyHistory(s, t, w)
    requires t.history == s.history + [next] && Extends(s.history, next)
    requires Last(s.history).pending == None && next.pending == None
    requires t.workers[w].tally == s.workers[w].tally
    requires var before, after := s.workers[w].stage, t.workers[w].stage;
             || after == Done(false)
             || (before.Loaded? && before.at == Version(s) && after == Attempted(before.at + 1, before.view))
    ensures Writes(s, w, t)
  {
    if t.workers[w].stage == Done(false) {
      CountsMonotone(s.history, t.history);
    } else {
      AttemptSound(s, w, t, next);
    }
  }

  lemma AttemptSound(s: World, w: nat, t: World, next: Checkpoint)
    requires Legal(s.history) && w in s.workers && WorkerOk(s, s.workers[w]) && OnlyHistory(s, t, w)
    requires t.history == s.history + [next] && Extends(s.history, next) && next.pending == None
    requires t.workers[w].tally == s.workers[w].tally
    requires var before := s.workers[w].stage;
             before.Loaded? && before.at == Version(s) && t.workers[w].stage == Attempted(before.at + 1, before.view)
    ensures WorkerOk(t, t.workers[w])
  {
    CountsMonotone(s.history, t.history);
    AttemptViewKept(s, t, next, s.workers[w].stage.view);
  }

  lemma AttemptViewKept(s: World, t: World, next: Checkpoint, view: View)
    requires Legal(s.history) && ViewOk(s, view) && Extends(s.history, next)
    requires t == s.(history := s.history + [next], workers := t.workers)
    ensures ViewOk(t, view)
  {
    AppendGrows(s, t, next);
    ViewKept(s, t, view);
  }

  lemma SaveQuietWrites(s: World, w: nat, kind: Kind, runtime: nat, t: World)
    requires Legal(s.history) && w in s.workers && WorkerOk(s, s.workers[w])
             && DoSaveQuiet(s, w, kind, runtime) == Some(t)
    ensures Writes(s, w, t) || Moves(s, w, t)
  {
    var stage := s.workers[w].stage;
    var counters := QuietCounters(CountersAt(s, stage.at), kind, runtime);
    if SaveCheckpoint(s, w, stage.at, kind, counters, None).Applied? {
      QuietSaved(s, w, kind, runtime, t);
    } else {
      ConflictMoves(s, w);
    }
  }

  lemma QuietSaved(s: World, w: nat, kind: Kind, runtime: nat, t: World)
    requires Legal(s.history) && w in s.workers && WorkerOk(s, s.workers[w])
             && DoSaveQuiet(s, w, kind, runtime) == Some(t)
    requires var at := s.workers[w].stage.at;
             SaveCheckpoint(s, w, at, kind, QuietCounters(CountersAt(s, at), kind, runtime), None).Applied?
    ensures Writes(s, w, t)
  {
    var at := s.workers[w].stage.at;
    SaveExtends(s, w, at, kind, QuietCounters(CountersAt(s, at), kind, runtime), None);
    QuietApplied(s, w, t, Last(t.history));
  }
}
