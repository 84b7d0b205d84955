/** Commands and the callbacks that answer them. */
module GatewayTypes {
  import opened Optional

  /** The canonical JSON of a command is injective, so a command is its own fingerprint. */
  datatype Command = Command(id: nat, tenant: nat, operation: nat, payload: nat, completeAt: Option<nat>)

  datatype CallbackStatus = CallbackCompleted | CallbackFailed

  /** Ids and nonces are injective hashes of the command id and the status. */
  datatype CallbackId = CallbackId(command: nat, status: CallbackStatus)
  datatype Nonce = Nonce(command: nat, status: CallbackStatus)

  datatype Callback = Callback(
    id: CallbackId, nonce: Nonce, tenant: nat, command: nat, operation: nat, status: CallbackStatus,
    occurredAt: nat, evidence: nat)

  datatype Signed = Signed(callback: Callback, timestamp: nat)
}

/**
 * The gateway simulator: commands dispatched by id, callbacks captured and delivered by tasks of the
 * virtual clock it owns. What a device answers and observes is an input of the step that asks it.
 */
module GatewaySimulator {
  import opened Optional
  import opened GatewayTypes

  datatype Code = CrossTenantAccess | PayloadConflict | Admission(code: nat) | UnknownDevice | DeviceOffline
    | DeviceError(code: nat)

  datatype Result =
    | Accepted(acknowledgement: nat)
    | LostAck
    | Timeout
    | Failed(retryable: bool, code: Code)

  datatype Profile =
    | NoFault
    | DelayedCallback(delay: nat)
    | OfflineDevice(virtualMilliseconds: nat)
    | StaleState(staleBy: nat)
    | DuplicateCallback(copies: nat, separation: nat)
    | LostAcknowledgement(delay: nat)
    | ResponseTimeout(delay: nat)

  /** `changed`: the device was changed before a later observation failed. */
  datatype DeviceAnswer = NoSuchDevice | Refuses(code: Code, changed: bool) | Applies

  datatype AdmissionAnswer = Admits | Rejects(code: nat) | Throws

  /** `cell` is the closure state shared by the copies of one captured callback. */
  datatype Task =
    | Recover
    | Capture(command: Command, status: CallbackStatus, deliveryDelay: nat, copies: nat, separation: nat)
    | Deliver(cell: nat)

  datatype Scheduled = Scheduled(at: nat, sequence: nat, task: Task)

  datatype Cell = Cell(callback: Callback, signature: Option<Signed>)

  datatype Recorded = Recorded(fingerprint: Command, result: Result)

  /** `applied` is the device's log of changes; `aborted` remembers the ids whose dispatch threw. */
  datatype State = State(
    now: nat, next: nat, queue: seq<Scheduled>, cells: map<nat, Cell>, emitted: seq<Signed>,
    commands: map<nat, Recorded>, profile: Profile, applied: seq<nat>, aborted: set<nat>)

  datatype Limits = Limits(tenant: nat, maximumTasks: nat)

  // ---------------------------------------------------------------- the virtual clock

  /** The queue stays sorted by time, then by sequence; a new task has the largest sequence. */
  function Insert(queue: seq<Scheduled>, x: Scheduled): seq<Scheduled> {
    if queue == [] || x.at < queue[0].at then [x] + queue else [queue[0]] + Insert(queue[1..], x)
  }

  lemma {:induction false} InsertAddsOne(queue: seq<Scheduled>, x: Scheduled)
    ensures multiset(Insert(queue, x)) == multiset(queue) + multiset{x}
    ensures |Insert(queue, x)| == |queue| + 1
  {
    if queue != [] && x.at >= queue[0].at {
      assert queue == [queue[0]] + queue[1..];
      InsertAddsOne(queue[1..], x);
    }
  }

  /** None is the clock's scheduled-task bound error. */
  function ScheduleAfter(l: Limits, s: State, delay: nat, task: Task): Option<State> {
    if |s.queue| >= l.maximumTasks then None
    else Some(s.(queue := Insert(s.queue, Scheduled(s.now + delay, s.next, task)), next := s.next + 1))
  }

  // ---------------------------------------------------------------- dispatch

  function CompletionDelay(now: nat, profile: Profile, command: Command): nat {
    match command.completeAt
    case None => 0
    case Some(at) => (if at > now then at - now else 0) + (if profile.StaleState? then profile.staleBy else 0)
  }

  function DeliveryDelay(profile: Profile): nat {
    match profile
    case DelayedCallback(delay) => delay
    case LostAcknowledgement(delay) => delay
    case ResponseTimeout(delay) => delay
    case _ => 0
  }

  function Acknowledged(profile: Profile, command: Command): Result {
    match profile
    case LostAcknowledgement(_) => LostAck
    case ResponseTimeout(_) => Timeout
    case _ => Accepted(command.id)
  }

  function ScheduleEffect(l: Limits, s: State, delay: nat, effect: Task, result: Result): (State, Option<Result>) {
    match ScheduleAfter(l, s, delay, effect)
    case None => (s, None)
    case Some(t) => (t, Some(result))
  }

  /** #dispatchNew; no result means that the clock's bound error escaped. */
  function DispatchNew(l: Limits, s: State, command: Command, answer: DeviceAnswer): (State, Option<Result>) {
    if s.profile.OfflineDevice? then
      if answer == NoSuchDevice then (s, Some(Failed(false, UnknownDevice)))
      else
        match ScheduleAfter(l, s, s.profile.virtualMilliseconds, Recover)
        case None => (s, None)
        case Some(t) => ScheduleEffect(l, t, 0, Capture(command, CallbackFailed, 0, 1, 0), Failed(true, DeviceOffline))
    else
      match answer
      case NoSuchDevice =>
        ScheduleEffect(l, s, 0, Capture(command, CallbackFailed, 0, 1, 0), Failed(false, UnknownDevice))
      case Refuses(code, changed) =>
        var t := if changed then s.(applied := s.applied + [command.id]) else s;
        ScheduleEffect(l, t, 0, Capture(command, CallbackFailed, 0, 1, 0), Failed(code == DeviceOffline, code))
      case Applies =>
        var t := s.(applied := s.applied + [command.id]);
        var copies, separation := if s.profile.DuplicateCallback? then s.profile.copies else 1,
                                  if s.profile.DuplicateCallback? then s.profile.separation else 0;
        var effect := Capture(command, CallbackCompleted, DeliveryDelay(s.profile), copies, separation);
        ScheduleEffect(l, t, CompletionDelay(s.now, s.profile, command), effect, Acknowledged(s.profile, command))
  }

  function Record(s: State, command: Command, result: Result): State {
    s.(commands := s.commands[command.id := Recorded(command, result)])
  }

  /** dispatch of a well-formed command; no result means that an error escaped to the caller. */
  function Dispatch(l: Limits, s: State, command: Command, admission: AdmissionAnswer, answer: DeviceAnswer)
    : (State, Option<Result>)
  {
    if command.id in s.commands then
      var existing := s.commands[command.id];
      (s, Some(if existing.fingerprint == command then existing.result else Failed(false, PayloadConflict)))
    else if command.tenant != l.tenant then
      var result := Failed(false, CrossTenantAccess);
      (Record(s, command, result), Some(result))
    else
      match admission
      case Throws => (s, None)
      case Rejects(code) =>
        var result := Failed(false, Admission(code));
        (Record(s, command, result), Some(result))
      case Admits =>
        var (t, result) := DispatchNew(l, s, command, answer);
        if result.None? then (t.(aborted := t.aborted + {command.id}), None)
        else (Record(t, command, result.value), result)
  }

  // ---------------------------------------------------------------- clock tasks

  function CallbackFor(command: Command, status: CallbackStatus, occurredAt: nat, evidence: nat): Callback {
    Callback(CallbackId(command.id, status), Nonce(command.id, status), command.tenant, command.id, command.operation,
             status, occurredAt, evidence)
  }

  /** The copies are scheduled one by one; the bound error leaves the earlier ones in place. */
  function ScheduleCopies(l: Limits, s: State, cell: nat, delay: nat, separation: nat, copies: nat): State
    decreases copies
  {
    if copies == 0 then s
    else
      match ScheduleAfter(l, s, delay, Deliver(cell))
      case None => s
      case Some(t) => ScheduleCopies(l, t, cell, delay + separation, separation, copies - 1)
  }

  lemma OneCopy(l: Limits, s: State, cell: nat, delay: nat, separation: nat, copies: nat)
    requires copies > 0
    ensures ScheduleCopies(l, s, cell, delay, separation, copies) ==
              if ScheduleAfter(l, s, delay, Deliver(cell)).None? then s
              else ScheduleCopies(l, ScheduleAfter(l, s, delay, Deliver(cell)).value, cell, delay + separation,
                                  separation, copies - 1)
  {}

  /** Running the first task of the queue; `evidence` and `clock` are what it reads. */
  function RunNext(l: Limits, s: State, evidence: nat, clock: nat): State
    requires s.queue != []
  {
    var head := s.queue[0];
    var t := s.(queue := s.queue[1..], now := head.at);
    match head.task
    case Recover => t
    case Capture(command, status, deliveryDelay, copies, separation) =>
      var cell := Cell(CallbackFor(command, status, t.now, evidence), None);
      ScheduleCopies(l, t.(cells := t.cells[head.sequence := cell]), head.sequence, deliveryDelay, separation, copies)
    case Deliver(cell) =>
      if cell !in t.cells then t
      else
        var signed := if t.cells[cell].signature.Some? then t.cells[cell].signature.value
          else Signed(t.cells[cell].callback, clock);
        t.(cells := t.cells[cell := t.cells[cell].(signature := Some(signed))], emitted := t.emitted + [signed])
  }

  // ---------------------------------------------------------------- the imperative simulator

  class Simulator {
    const limits: Limits
    var now: nat
    var next: nat
    var queue: seq<Scheduled>
    var cells: map<nat, Cell>
    var emitted: seq<Signed>
    var commands: map<nat, Recorded>
    var profile: Profile
    var applied: seq<nat>
    ghost var aborted: set<nat>

    ghost function View(): State
      reads this
    {
      State(now, next, queue, cells, emitted, commands, profile, applied, aborted)
    }

    constructor (limits: Limits, startsAt: nat, profile: Profile)
      ensures this.limits == limits
      ensures View() == State(startsAt, 0, [], map[], [], map[], profile, [], {})
    {
      this.limits := limits;
      now, next, queue, cells, emitted, commands := startsAt, 0, [], map[], [], map[];
      this.profile := profile;
      applied := [];
      aborted := {};
    }

    method SetFaultProfile(profile: Profile)
      modifies this
      ensures View() == old(View()).(profile := profile)
    {
      this.profile := profile;
    }

    method Schedule(delay: nat, task: Task) returns (ok: bool)
      modifies this
      ensures ok <==> ScheduleAfter(limits, old(View()), delay, task).Some?
      ensures View() == if ok then ScheduleAfter(limits, old(View()), delay, task).value else old(View())
    {
      if |queue| >= limits.maximumTasks {
        return false;
      }
      queue := Insert(queue, Scheduled(now + delay, next, task));
      next := next + 1;
      ok := true;
    }

    method ScheduleThen(delay: nat, effect: Task, outcome: Result) returns (result: Option<Result>)
      modifies this
      ensures (View(), result) == ScheduleEffect(limits, old(View()), delay, effect, outcome)
    {
      var ok := Schedule(delay, effect);
      result := if ok then Some(outcome) else None;
    }

    method DispatchOffline(command: Command, answer: DeviceAnswer) returns (result: Option<Result>)
      requires profile.OfflineDevice?
      modifies this
      ensures (View(), result) == DispatchNew(limits, old(View()), command, answer)
    {
      if answer == NoSuchDevice {
        return Some(Failed(false, UnknownDevice));
      }
      var ok := Schedule(profile.virtualMilliseconds, Recover);
      if !ok {
        return None;
      }
      result := ScheduleThen(0, Capture(command, CallbackFailed, 0, 1, 0), Failed(true, DeviceOffline));
    }

    method DispatchNewCommand(command: Command, answer: DeviceAnswer) returns (result: Option<Result>)
      modifies this
      ensures (View(), result) == DispatchNew(limits, old(View()), command, answer)
    {
      if profile.OfflineDevice? {
        result := DispatchOffline(command, answer);
        return;
      }
      if answer.Applies? || (answer.Refuses? && answer.changed) {
        applied := applied + [command.id];
      }
      if !answer.Applies? {
        var code := if answer.Refuses? then answer.code else UnknownDevice;
        result := ScheduleThen(0, Capture(command, CallbackFailed, 0, 1, 0), Failed(code == DeviceOffline, code));
        return;
      }
      var copies, separation := 1, 0;
      if profile.DuplicateCallback? {
        copies, separation := profile.copies, profile.separation;
      }
      var effect := Capture(command, CallbackCompleted, DeliveryDelay(profile), copies, separation);
      result := ScheduleThen(CompletionDelay(now, profile, command), effect, Acknowledged(profile, command));
    }

    method DispatchCommand(command: Command, admission: AdmissionAnswer, answer: DeviceAnswer)
      returns (result: Option<Result>)
      modifies this
      ensures (View(), result) == Dispatch(limits, old(View()), command, admission, answer)
    {
      if command.id in commands {
        var existing := commands[command.id];
        return Some(if existing.fingerprint == command then existing.result else Failed(false, PayloadConflict));
      }
      if command.tenant != limits.tenant {
        result := Some(Failed(false, CrossTenantAccess));
      } else if admission.Throws? {
        return None;
      } else if admission.Rejects? {
        result := Some(Failed(false, Admission(admission.code)));
      } else {
        result := DispatchNewCommand(command, answer);
      }
      if result.Some? {
        commands := commands[command.id := Recorded(command, result.value)];
      } else {
        aborted := aborted + {command.id};
      }
    }

    method DeliverCopies(cell: nat, delay: nat, separation: nat, copies: nat)
      modifies this
      ensures View() == ScheduleCopies(limits, old(View()), cell, delay, separation, copies)
    {
      var copy: nat, offset: nat := 0, delay;
      ghost var goal := ScheduleCopies(limits, View(), cell, delay, separation, copies);
      while copy < copies
        invariant copy <= copies
        invariant goal == ScheduleCopies(limits, View(), cell, offset, separation, copies - copy)
      {
        OneCopy(limits, View(), cell, offset, separation, copies - copy);
        var ok := Schedule(offset, Deliver(cell));
        if !ok {
          return;
        }
        copy, offset := copy + 1, offset + separation;
      }
    }

    method RunTask(evidence: nat, clock: nat)
      requires queue != []
      modifies this
      ensures View() == RunNext(limits, old(View()), evidence, clock)
    {
      var head := queue[0];
      queue := queue[1..];
      now := head.at;
      match head.task
      case Recover =>
      case Capture(command, status, deliveryDelay, copies, separation) =>
        cells := cells[head.sequence := Cell(CallbackFor(command, status, now, evidence), None)];
        DeliverCopies(head.sequence, deliveryDelay, separation, copies);
      case Deliver(cell) =>
        if cell in cells {
          if cells[cell].signature.None? {
            cells := cells[cell := cells[cell].(signature := Some(Signed(cells[cell].callback, clock)))];
          }
          emitted := emitted + [cells[cell].signature.value];
        }
    }
  }
}
