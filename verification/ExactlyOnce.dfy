/**
 * Simulator, network and inbox together: any interleaving of dispatches (repeats included), fault
 * profiles, clock tasks and deliveries of emitted callbacks, in any order and any number of times.
 */
module ExactlyOnce {
  import opened Optional
  import opened GatewayTypes
  import opened GatewaySimulator
  import opened CallbackInbox
  import DeliveryRuns

  // ---------------------------------------------------------------- the simulator's invariant

  /** The queue's entries are distinct, and every capture belongs to a known command of its own. */
  ghost predicate QueueOk(s: State, known: map<nat, Command>) {
    && (forall x :: multiset(s.queue)[x] <= 1)
    && (forall x <- s.queue :: x.sequence < s.next)
    && (forall x <- s.queue, y <- s.queue | x != y :: x.sequence != y.sequence)
    && (forall x <- s.queue | x.task.Capture? ::
          && x.task.command.id in known && known[x.task.command.id] == x.task.command
          && x.sequence !in s.cells
          && forall k <- s.cells :: s.cells[k].callback.command != x.task.command.id)
    && (forall x <- s.queue, y <- s.queue | x != y && x.task.Capture? && y.task.Capture? ::
          x.task.command.id != y.task.command.id)
  }

  ghost predicate CellsOk(s: State, known: map<nat, Command>) {
    && (forall k <- s.cells ::
          var c := s.cells[k].callback;
          && k < s.next
          && c.command in known && c.tenant == known[c.command].tenant && c.operation == known[c.command].operation
          && c.id == CallbackId(c.command, c.status) && c.nonce == Nonce(c.command, c.status)
          && (s.cells[k].signature.Some? ==> s.cells[k].signature.value.callback == c))
    && (forall j <- s.cells, k <- s.cells | j != k :: s.cells[j].callback.command != s.cells[k].callback.command)
    && (forall e <- s.emitted :: exists k <- s.cells :: s.cells[k].signature == Some(e))
  }

  ghost predicate Sound(s: State, known: map<nat, Command>) {
    && (forall id <- known :: known[id].id == id)
    && QueueOk(s, known) && CellsOk(s, known)
  }

  function Known(s: State): map<nat, Command> {
    map id | id in s.commands :: s.commands[id].fingerprint
  }

  lemma InsertMembers(queue: seq<Scheduled>, x: Scheduled)
    ensures forall y :: y in Insert(queue, x) <==> y in queue || y == x
    ensures x !in queue && (forall y :: multiset(queue)[y] <= 1) ==> forall y :: multiset(Insert(queue, x))[y] <= 1
  {
    InsertAddsOne(queue, x);
    forall y ensures y in Insert(queue, x) <==> y in queue || y == x {
      assert y in Insert(queue, x) <==> y in multiset(Insert(queue, x));
    }
    if x !in queue {
      assert multiset(queue)[x] == 0;
    }
  }

  /** The new task has a sequence of its own, so it is no task of the queue. */
  lemma QueueGrows(s: State, known: map<nat, Command>, x: Scheduled)
    requires QueueOk(s, known) && x.sequence == s.next
    ensures x !in s.queue
    ensures forall y :: y in Insert(s.queue, x) <==> y in s.queue || y == x
    ensures forall y :: multiset(Insert(s.queue, x))[y] <= 1
    ensures forall y <- s.queue :: y.sequence != x.sequence
  {
    InsertMembers(s.queue, x);
  }

  lemma SchedulePlainKeeps(l: Limits, s: State, known: map<nat, Command>, delay: nat, task: Task)
    requires Sound(s, known) && !task.Capture? && ScheduleAfter(l, s, delay, task).Some?
    ensures Sound(ScheduleAfter(l, s, delay, task).value, known)
  {
    var t := ScheduleAfter(l, s, delay, task).value;
    QueueGrows(s, known, Scheduled(s.now + delay, s.next, task));
    assert QueueOk(t, known);
    assert CellsOk(t, known);
  }

  lemma ScheduleCaptureKeeps(l: Limits, s: State, known: map<nat, Command>, delay: nat, task: Task)
    requires Sound(s, known) && task.Capture? && task.command.id !in known && ScheduleAfter(l, s, delay, task).Some?
    ensures Sound(ScheduleAfter(l, s, delay, task).value, known[task.command.id := task.command])
  {
    var t := ScheduleAfter(l, s, delay, task).value;
    var more := known[task.command.id := task.command];
    QueueGrows(s, known, Scheduled(s.now + delay, s.next, task));
    assert QueueOk(t, more);
    assert CellsOk(t, more);
  }

  lemma KnowingMoreKeeps(s: State, known: map<nat, Command>, command: Command)
    requires Sound(s, known) && command.id !in known
    ensures Sound(s, known[command.id := command])
  {}

  lemma AppliedKeeps(s: State, known: map<nat, Command>, applied: seq<nat>)
    requires Sound(s, known)
    ensures Sound(s.(applied := applied), known)
  {}

  lemma EffectKeeps(l: Limits, s: State, known: map<nat, Command>, delay: nat, effect: Task, result: Result)
    requires Sound(s, known) && effect.Capture? && effect.command.id !in known
    ensures var (t, r) := ScheduleEffect(l, s, delay, effect, result);
            && (r.Some? ==> Sound(t, known[effect.command.id := effect.command]))
            && (r.None? ==> Sound(t, known))
            && t.applied == s.applied && t.aborted == s.aborted && t.commands == s.commands && t.emitted == s.emitted
  {
    if ScheduleAfter(l, s, delay, effect).Some? {
      ScheduleCaptureKeeps(l, s, known, delay, effect);
    }
  }

  lemma OfflineKeeps(l: Limits, s: State, known: map<nat, Command>, command: Command, answer: DeviceAnswer)
    requires Sound(s, known) && command.id !in known && s.profile.OfflineDevice?
    ensures var (t, r) := DispatchNew(l, s, command, answer);
            && (r.Some? ==> Sound(t, known[command.id := command]))
            && (r.None? ==> Sound(t, known))
            && t.applied == s.applied && t.aborted == s.aborted && t.commands == s.commands && t.emitted == s.emitted
  {
    if answer == NoSuchDevice {
      KnowingMoreKeeps(s, known, command);
    } else if ScheduleAfter(l, s, s.profile.virtualMilliseconds, Recover).Some? {
      SchedulePlainKeeps(l, s, known, s.profile.virtualMilliseconds, Recover);
      EffectKeeps(l, ScheduleAfter(l, s, s.profile.virtualMilliseconds, Recover).value, known, 0,
                  Capture(command, CallbackFailed, 0, 1, 0), Failed(true, DeviceOffline));
    }
  }

  /** The device is changed at most once by a dispatch, and only for the dispatched command. */
  lemma DispatchNewKeeps(l: Limits, s: State, known: map<nat, Command>, command: Command, answer: DeviceAnswer)
    requires Sound(s, known) && command.id !in known
    ensures var (t, r) := DispatchNew(l, s, command, answer);
            && (r.Some? ==> Sound(t, known[command.id := command]))
            && (r.None? ==> Sound(t, known))
            && t.applied in {s.applied, s.applied + [command.id]}
            && t.aborted == s.aborted && t.commands == s.commands && t.emitted == s.emitted
  {
    if s.profile.OfflineDevice? {
      OfflineKeeps(l, s, known, command, answer);
    } else {
      AppliedKeeps(s, known, s.applied + [command.id]);
      var t := if answer.Applies? || (answer.Refuses? && answer.changed) then s.(applied := s.applied + [command.id])
        else s;
      var copies, separation := if s.profile.DuplicateCallback? then s.profile.copies else 1,
                                if s.profile.DuplicateCallback? then s.profile.separation else 0;
      if answer.Applies? {
        EffectKeeps(l, t, known, CompletionDelay(s.now, s.profile, command),
                    Capture(command, CallbackCompleted, DeliveryDelay(s.profile), copies, separation),
                    Acknowledged(s.profile, command));
      } else {
        var code := if answer.Refuses? then answer.code else UnknownDevice;
        EffectKeeps(l, t, known, 0, Capture(command, CallbackFailed, 0, 1, 0), Failed(code == DeviceOffline, code));
      }
    }
  }

  /** A command reaches the device again only if an earlier dispatch of its id threw. */
  ghost predicate Reached(s: State) {
    && (forall id <- s.applied :: id in s.commands || id in s.aborted)
    && (forall i, j | 0 <= i < j < |s.applied| && s.applied[i] == s.applied[j] :: s.applied[i] in s.aborted)
  }

  lemma RecordKeeps(s: State, command: Command, result: Result)
    requires command.id !in s.commands && Sound(s, Known(s)[command.id := command])
    ensures Sound(Record(s, command, result), Known(Record(s, command, result)))
  {
    assert Known(Record(s, command, result)) == Known(s)[command.id := command];
  }

  lemma ReachedStep(s: State, t: State, id: nat)
    requires Reached(s) && id !in s.commands
    requires t.applied in {s.applied, s.applied + [id]} && s.aborted <= t.aborted && s.commands.Keys <= t.commands.Keys
    requires id in t.commands || id in t.aborted || t.applied == s.applied
    ensures Reached(t)
  {
    if t.applied != s.applied {
      forall i, j | 0 <= i < j < |t.applied| && t.applied[i] == t.applied[j] ensures t.applied[i] in t.aborted {
        assert t.applied[i] == s.applied[i] && s.applied[i] in s.applied;
      }
    }
  }

  lemma NewDispatchKeeps(l: Limits, s: State, command: Command, admission: AdmissionAnswer, answer: DeviceAnswer)
    requires Sound(s, Known(s)) && Reached(s) && command.id !in s.commands
    ensures var (t, r) := Dispatch(l, s, command, admission, answer);
            && Sound(t, Known(t)) && Reached(t)
            && t.emitted == s.emitted
            && t.commands == if r.Some? then s.commands[command.id := Recorded(command, r.value)] else s.commands
  {
    var (t, r) := Dispatch(l, s, command, admission, answer);
    KnowingMoreKeeps(s, Known(s), command);
    DispatchNewKeeps(l, s, Known(s), command, answer);
    ReachedStep(s, t, command.id);
    if command.tenant == l.tenant && admission.Admits? {
      var next := DispatchNew(l, s, command, answer).0;
      assert Known(next) == Known(s);
      if r.Some? {
        RecordKeeps(next, command, r.value);
      } else {
        assert Known(t) == Known(s);
      }
    } else if r.Some? {
      RecordKeeps(s, command, r.value);
    }
  }

  lemma DispatchKeeps(l: Limits, s: State, command: Command, admission: AdmissionAnswer, answer: DeviceAnswer)
    requires Sound(s, Known(s)) && Reached(s)
    ensures var (t, r) := Dispatch(l, s, command, admission, answer);
            && Sound(t, Known(t)) && Reached(t)
            && t.emitted == s.emitted
            && (forall id <- s.commands :: id in t.commands && t.commands[id] == s.commands[id])
            && (command.id !in s.commands && r.Some? ==>
                  command.id in t.commands && t.commands[command.id] == Recorded(command, r.value))
  {
    if command.id !in s.commands {
      NewDispatchKeeps(l, s, command, admission, answer);
    }
  }

  // ---------------------------------------------------------------- clock tasks

  lemma {:induction false} CopiesKeep(l: Limits, s: State, known: map<nat, Command>, cell: nat, delay: nat,
      separation: nat, copies: nat)
    requires Sound(s, known)
    ensures var t := ScheduleCopies(l, s, cell, delay, separation, copies);
            Sound(t, known) && t.emitted == s.emitted && t.commands == s.commands && t.applied == s.applied
              && t.aborted == s.aborted
    decreases copies
  {
    if copies > 0 && ScheduleAfter(l, s, delay, Deliver(cell)).Some? {
      SchedulePlainKeeps(l, s, known, delay, Deliver(cell));
      CopiesKeep(l, ScheduleAfter(l, s, delay, Deliver(cell)).value, known, cell, delay + separation, separation,
                 copies - 1);
    }
  }

  lemma HeadIsGone(queue: seq<Scheduled>)
    requires queue != [] && forall x :: multiset(queue)[x] <= 1
    ensures forall x <- queue[1..] :: x != queue[0]
    ensures forall x :: multiset(queue[1..])[x] <= 1
  {
    assert queue == [queue[0]] + queue[1..];
    forall x: Scheduled ensures multiset(queue[1..])[x] <= 1 && (x in queue[1..] ==> x != queue[0]) {
      assert multiset(queue) == multiset{queue[0]} + multiset(queue[1..]);
      assert multiset(queue)[x] == multiset{queue[0]}[x] + multiset(queue[1..])[x];
      assert x in queue[1..] <==> x in multiset(queue[1..]);
    }
  }

  lemma PopKeeps(s: State, known: map<nat, Command>)
    requires Sound(s, known) && s.queue != []
    ensures Sound(s.(queue := s.queue[1..], now := s.queue[0].at), known)
    ensures forall x <- s.queue[1..] :: x != s.queue[0]
  {
    HeadIsGone(s.queue);
    assert forall x <- s.queue[1..] :: x in s.queue;
  }

  lemma CaptureKeeps(s: State, known: map<nat, Command>, head: Scheduled, cell: Cell)
    requires Sound(s, known) && head.task.Capture? && head.sequence < s.next
    requires head.task.command.id in known && known[head.task.command.id] == head.task.command
    requires head.sequence !in s.cells && forall k <- s.cells :: s.cells[k].callback.command != head.task.command.id
    requires forall x <- s.queue ::
             x.sequence != head.sequence && (x.task.Capture? ==> x.task.command.id != head.task.command.id)
    requires cell == Cell(CallbackFor(head.task.command, head.task.status, cell.callback.occurredAt,
                                      cell.callback.evidence), None)
    ensures Sound(s.(cells := s.cells[head.sequence := cell]), known)
  {
    var t := s.(cells := s.cells[head.sequence := cell]);
    forall e <- t.emitted ensures exists k <- t.cells :: t.cells[k].signature == Some(e) {
      var k :| k in s.cells && s.cells[k].signature == Some(e);
      assert t.cells[k] == s.cells[k];
    }
  }

  /** The state after the copy `signed` of a captured callback went out. */
  function Emitted(s: State, cell: nat, signed: Signed): State
    requires cell in s.cells
  {
    s.(cells := s.cells[cell := s.cells[cell].(signature := Some(signed))], emitted := s.emitted + [signed])
  }

  lemma EmissionsHaveCells(s: State, known: map<nat, Command>, cell: nat, signed: Signed)
    requires CellsOk(s, known) && cell in s.cells
    requires s.cells[cell].signature.Some? ==> s.cells[cell].signature == Some(signed)
    ensures var t := Emitted(s, cell, signed);
            forall e <- t.emitted :: exists k <- t.cells :: t.cells[k].signature == Some(e)
  {
    var t := Emitted(s, cell, signed);
    assert t.cells[cell].signature == Some(signed);
    forall e <- t.emitted ensures exists k <- t.cells :: t.cells[k].signature == Some(e) {
      if e != signed {
        var k :| k in s.cells && s.cells[k].signature == Some(e);
        assert t.cells[k].signature == Some(e);
      }
    }
  }

  lemma EmitKeeps(s: State, known: map<nat, Command>, cell: nat, signed: Signed)
    requires Sound(s, known) && cell in s.cells && signed.callback == s.cells[cell].callback
    requires s.cells[cell].signature.Some? ==> s.cells[cell].signature == Some(signed)
    ensures Sound(Emitted(s, cell, signed), known)
  {
    var t := Emitted(s, cell, signed);
    EmissionsHaveCells(s, known, cell, signed);
    assert forall k <- t.cells :: k in s.cells && t.cells[k].callback == s.cells[k].callback;
  }

  lemma RunCaptureKeeps(l: Limits, s: State, evidence: nat, clock: nat)
    requires Sound(s, Known(s)) && s.queue != [] && s.queue[0].task.Capture?
    ensures var t := RunNext(l, s, evidence, clock);
            && Sound(t, Known(s)) && t.emitted == s.emitted && t.commands == s.commands
            && t.applied == s.applied && t.aborted == s.aborted
  {
    var head, known := s.queue[0], Known(s);
    var t := s.(queue := s.queue[1..], now := head.at);
    assert head in s.queue && forall x <- t.queue :: x in s.queue;
    PopKeeps(s, known);
    var cell := Cell(CallbackFor(head.task.command, head.task.status, t.now, evidence), None);
    CaptureKeeps(t, known, head, cell);
    CopiesKeep(l, t.(cells := t.cells[head.sequence := cell]), known, head.sequence,
               head.task.deliveryDelay, head.task.separation, head.task.copies);
  }

  lemma RunNextKeeps(l: Limits, s: State, evidence: nat, clock: nat)
    requires Sound(s, Known(s)) && Reached(s) && s.queue != []
    ensures var t := RunNext(l, s, evidence, clock);
            && Sound(t, Known(t)) && Reached(t) && t.commands == s.commands && s.emitted <= t.emitted
  {
    var head, known := s.queue[0], Known(s);
    var t := s.(queue := s.queue[1..], now := head.at);
    PopKeeps(s, known);
    match head.task
    case Recover => assert Known(t) == known;
    case Capture(_, _, _, _, _) =>
      RunCaptureKeeps(l, s, evidence, clock);
      assert Known(RunNext(l, s, evidence, clock)) == known;
    case Deliver(cell) =>
      assert Known(RunNext(l, s, evidence, clock)) == known;
      if cell in t.cells {
        var signed := if t.cells[cell].signature.Some? then t.cells[cell].signature.value
          else Signed(t.cells[cell].callback, clock);
        EmitKeeps(t, known, cell, signed);
      }
  }

  /** Copies of one command's callback are identical down to the signature. */
  lemma EmittedOncePerCommand(s: State, a: Signed, b: Signed)
    requires Sound(s, Known(s)) && a in s.emitted && b in s.emitted
    ensures a.callback.command == b.callback.command ==> a == b
    ensures a.callback.id == b.callback.id <==> a.callback.command == b.callback.command
    ensures a.callback.nonce == b.callback.nonce <==> a.callback.command == b.callback.command
    ensures a.callback.command in s.commands
    ensures BindingOf(a.callback) == ExpectedBinding(s.commands[a.callback.command].fingerprint)
  {
    var j :| j in s.cells && s.cells[j].signature == Some(a);
    var k :| k in s.cells && s.cells[k].signature == Some(b);
  }

  // ---------------------------------------------------------------- the system

  /** The binding the receiver derives from its stored command. */
  function ExpectedBinding(command: Command): Binding {
    Binding(command.tenant, command.operation, command.id)
  }

  datatype Delivery = Delivery(signed: Signed, verified: bool, verdict: Verdict)

  datatype System = System(gateway: State, inbox: Inbox, deliveries: seq<Delivery>)

  datatype Event =
    | SetProfile(profile: Profile)
    | DispatchEvent(command: Command, admission: AdmissionAnswer, answer: DeviceAnswer)
    | RunTask(evidence: nat, clock: nat)
    | AdvanceClock(to: nat)
    | Receive(copy: nat, verified: bool)

  function Fresh(startsAt: nat, profile: Profile): System {
    System(State(startsAt, 0, [], map[], [], map[], profile, [], {}), Inbox(map[], map[]), [])
  }

  predicate Enabled(w: System, e: Event) {
    match e
    case RunTask(_, _) => w.gateway.queue != []
    case AdvanceClock(to) => w.gateway.now <= to && (w.gateway.queue != [] ==> to < w.gateway.queue[0].at)
    case Receive(copy, _) => copy < |w.gateway.emitted|
      && w.gateway.emitted[copy].callback.command in w.gateway.commands
    case _ => true
  }

  function Next(l: Limits, w: System, e: Event): System
    requires Enabled(w, e)
  {
    match e
    case SetProfile(profile) => w.(gateway := w.gateway.(profile := profile))
    case DispatchEvent(command, admission, answer) =>
      w.(gateway := Dispatch(l, w.gateway, command, admission, answer).0)
    case RunTask(evidence, clock) => w.(gateway := RunNext(l, w.gateway, evidence, clock))
    case AdvanceClock(to) => w.(gateway := w.gateway.(now := to))
    case Receive(copy, verified) =>
      var signed := w.gateway.emitted[copy];
      var (inbox, verdict) := Ingest(w.inbox, signed, verified,
                                     ExpectedBinding(w.gateway.commands[signed.callback.command].fingerprint));
      System(w.gateway, inbox, w.deliveries + [Delivery(signed, verified, verdict)])
  }

  /** Any stretch of a run: `systems` are the states, `events` the events between them. */
  ghost predicate Stretch(l: Limits, systems: seq<System>, events: seq<Event>) {
    && |systems| == |events| + 1
    && forall i | 0 <= i < |events| ::
       Enabled(systems[i], events[i]) && systems[i + 1] == Next(l, systems[i], events[i])
  }

  ghost predicate Run(l: Limits, systems: seq<System>, events: seq<Event>) {
    && Stretch(l, systems, events)
    && systems[0] == Fresh(systems[0].gateway.now, systems[0].gateway.profile)
  }

  /** The inbox holds exactly the callbacks that arrived verified, and the first arrival was accepted. */
  ghost predicate InboxOk(w: System) {
    && (forall d <- w.deliveries :: d.signed in w.gateway.emitted)
    && (forall id :: id in w.inbox.callbacks <==> exists d <- w.deliveries :: d.verified && d.signed.callback.id == id)
    && (forall d <- w.deliveries | d.verified :: w.inbox.callbacks[d.signed.callback.id] == DedupeOf(d.signed.callback))
    && (forall n <- w.inbox.nonces :: w.inbox.nonces[n] == CallbackId(n.command, n.status))
  }

  ghost predicate FirstAccepted(deliveries: seq<Delivery>) {
    forall i | 0 <= i < |deliveries| ::
      deliveries[i].verdict ==
        if !deliveries[i].verified then Unverified
        else if exists j | 0 <= j < i ::
          deliveries[j].verified && deliveries[j].signed.callback.command == deliveries[i].signed.callback.command
        then Duplicate else AcceptedOnce
  }

  ghost predicate SystemOk(w: System) {
    Sound(w.gateway, Known(w.gateway)) && Reached(w.gateway) && InboxOk(w) && FirstAccepted(w.deliveries)
  }

  lemma VerdictIsFirst(w: System, signed: Signed, verified: bool, verdict: Verdict)
    requires SystemOk(w) && signed in w.gateway.emitted && signed.callback.command in w.gateway.commands
    requires verdict == Ingest(w.inbox, signed, verified,
                               ExpectedBinding(w.gateway.commands[signed.callback.command].fingerprint)).1
    ensures verdict ==
      if !verified then Unverified
      else if exists j | 0 <= j < |w.deliveries| ::
        w.deliveries[j].verified && w.deliveries[j].signed.callback.command == signed.callback.command
      then Duplicate else AcceptedOnce
  {
    EmittedOncePerCommand(w.gateway, signed, signed);
    if verified {
      if signed.callback.id in w.inbox.callbacks {
        var d :| d in w.deliveries && d.verified && d.signed.callback.id == signed.callback.id;
        EmittedOncePerCommand(w.gateway, signed, d.signed);
      } else {
        forall j | 0 <= j < |w.deliveries| && w.deliveries[j].verified
          ensures w.deliveries[j].signed.callback.command != signed.callback.command
        {
          EmittedOncePerCommand(w.gateway, signed, w.deliveries[j].signed);
        }
        assert signed.callback.nonce in w.inbox.nonces ==> w.inbox.nonces[signed.callback.nonce] == signed.callback.id;
      }
    }
  }

  lemma FirstAcceptedStep(deliveries: seq<Delivery>, d: Delivery)
    requires FirstAccepted(deliveries)
    requires d.verdict ==
      if !d.verified then Unverified
      else if exists j | 0 <= j < |deliveries| ::
        deliveries[j].verified && deliveries[j].signed.callback.command == d.signed.callback.command
      then Duplicate else AcceptedOnce
    ensures FirstAccepted(deliveries + [d])
  {
    var more := deliveries + [d];
    assert forall i | 0 <= i < |deliveries| :: more[i] == deliveries[i];
    forall i | 0 <= i < |more|
      ensures more[i].verdict ==
        if !more[i].verified then Unverified
        else if exists j | 0 <= j < i ::
          more[j].verified && more[j].signed.callback.command == more[i].signed.callback.command
        then Duplicate else AcceptedOnce
    {
      if i < |deliveries| {
        assert (exists j | 0 <= j < i ::
                more[j].verified && more[j].signed.callback.command == more[i].signed.callback.command)
          <==> (exists j | 0 <= j < i ::
                  deliveries[j].verified
                  && deliveries[j].signed.callback.command == deliveries[i].signed.callback.command);
      }
    }
  }

  /** Receiving a copy of an emitted callback. */
  ghost predicate Received(w: System, next: System, d: Delivery) {
    && d.signed in w.gateway.emitted
    && next == System(w.gateway, next.inbox, w.deliveries + [d])
    && var callback := d.signed.callback;
       next.inbox == if d.verified && callback.id !in w.inbox.callbacks
                     then Inbox(w.inbox.callbacks[callback.id := DedupeOf(callback)],
                                w.inbox.nonces[callback.nonce := callback.id])
                     else w.inbox
  }

  lemma InboxKnowsArrivals(w: System, next: System, d: Delivery, id: CallbackId)
    requires InboxOk(w) && Received(w, next, d)
    ensures id in next.inbox.callbacks <==> exists e <- next.deliveries :: e.verified && e.signed.callback.id == id
  {
    if id in w.inbox.callbacks {
      var e :| e in w.deliveries && e.verified && e.signed.callback.id == id;
      assert e in next.deliveries;
    }
    if d.verified && d.signed.callback.id == id {
      assert d in next.deliveries;
    }
  }

  lemma InboxHoldsArrival(w: System, next: System, d: Delivery, e: Delivery)
    requires SystemOk(w) && Received(w, next, d) && e in next.deliveries && e.verified
    ensures e.signed.callback.id in next.inbox.callbacks
    ensures next.inbox.callbacks[e.signed.callback.id] == DedupeOf(e.signed.callback)
  {
    InboxKnowsArrivals(w, next, d, e.signed.callback.id);
    assert e == d || e in w.deliveries;
    EmittedOncePerCommand(w.gateway, d.signed, e.signed);
  }

  lemma InboxStep(w: System, next: System, d: Delivery)
    requires SystemOk(w) && Received(w, next, d)
    ensures InboxOk(next)
  {
    EmittedOncePerCommand(w.gateway, d.signed, d.signed);
    forall id
      ensures id in next.inbox.callbacks <==> exists e <- next.deliveries :: e.verified && e.signed.callback.id == id
    {
      InboxKnowsArrivals(w, next, d, id);
    }
    forall e <- next.deliveries | e.verified
      ensures next.inbox.callbacks[e.signed.callback.id] == DedupeOf(e.signed.callback)
    {
      InboxHoldsArrival(w, next, d, e);
    }
  }

  lemma ReceiveKeeps(l: Limits, w: System, copy: nat, verified: bool)
    requires SystemOk(w) && Enabled(w, Receive(copy, verified))
    ensures SystemOk(Next(l, w, Receive(copy, verified)))
  {
    var next := Next(l, w, Receive(copy, verified));
    var d := next.deliveries[|w.deliveries|];
    VerdictIsFirst(w, d.signed, verified, d.verdict);
    FirstAcceptedStep(w.deliveries, d);
    InboxStep(w, next, d);
  }

  lemma NextKeeps(l: Limits, w: System, e: Event)
    requires SystemOk(w) && Enabled(w, e)
    ensures SystemOk(Next(l, w, e))
    ensures forall id <- w.gateway.commands ::
            id in Next(l, w, e).gateway.commands && Next(l, w, e).gateway.commands[id] == w.gateway.commands[id]
  {
    match e
    case DispatchEvent(command, admission, answer) => DispatchKeeps(l, w.gateway, command, admission, answer);
    case RunTask(evidence, clock) => RunNextKeeps(l, w.gateway, evidence, clock);
    case Receive(copy, verified) => ReceiveKeeps(l, w, copy, verified);
    case _ => assert Known(Next(l, w, e).gateway) == Known(w.gateway);
  }

  lemma {:induction false} RunKeeps(l: Limits, systems: seq<System>, events: seq<Event>, i: nat)
    requires Run(l, systems, events) && i < |systems|
    ensures SystemOk(systems[i])
  {
    if i > 0 {
      RunKeeps(l, systems, events, i - 1);
      NextKeeps(l, systems[i - 1], events[i - 1]);
    }
  }

  lemma ResultsStickOnce(l: Limits, systems: seq<System>, events: seq<Event>, i: nat)
    requires Run(l, systems, events) && i < |events|
    ensures forall id <- systems[i].gateway.commands ::
              id in systems[i + 1].gateway.commands
                && systems[i + 1].gateway.commands[id] == systems[i].gateway.commands[id]
  {
    RunKeeps(l, systems, events, i);
    NextKeeps(l, systems[i], events[i]);
  }

  lemma {:induction false} ResultsStick(l: Limits, systems: seq<System>, events: seq<Event>, i: nat, j: nat)
    requires Run(l, systems, events) && i <= j < |systems|
    ensures forall id <- systems[i].gateway.commands ::
              id in systems[j].gateway.commands && systems[j].gateway.commands[id] == systems[i].gateway.commands[id]
  {
    if i < j {
      ResultsStick(l, systems, events, i, j - 1);
      ResultsStickOnce(l, systems, events, j - 1);
    }
  }

  // ---------------------------------------------------------------- what holds of every run

  /** The device sees a command id at most once, unless a dispatch of that id had thrown. */
  lemma DeviceAppliesAtMostOnce(l: Limits, systems: seq<System>, events: seq<Event>, n: nat)
    requires Run(l, systems, events) && n < |systems|
    ensures var g := systems[n].gateway;
            forall i, j | 0 <= i < j < |g.applied| && g.applied[i] == g.applied[j] :: g.applied[i] in g.aborted
  {
    RunKeeps(l, systems, events, n);
  }

  /** A repeat of a recorded command gets the first result; other data under its id is refused. */
  lemma RepeatsGetTheFirstResult(l: Limits, systems: seq<System>, events: seq<Event>, i: nat, j: nat)
    requires Run(l, systems, events) && i < j < |events|
    requires events[i].DispatchEvent? && events[j].DispatchEvent? && events[i].command.id == events[j].command.id
    requires events[i].command.id !in systems[i].gateway.commands
    requires Dispatch(l, systems[i].gateway, events[i].command, events[i].admission, events[i].answer).1.Some?
    ensures var first := Dispatch(l, systems[i].gateway, events[i].command, events[i].admission, events[i].answer).1;
            Dispatch(l, systems[j].gateway, events[j].command, events[j].admission, events[j].answer)
            == (systems[j].gateway, if events[j].command == events[i].command then first
                else Some(Failed(false, PayloadConflict)))
  {
    RunKeeps(l, systems, events, i);
    DispatchKeeps(l, systems[i].gateway, events[i].command, events[i].admission, events[i].answer);
    ResultsStick(l, systems, events, i + 1, j);
  }

  /**
   * However copies are repeated, reordered or delayed: the first verified copy of a command's callback
   * is accepted, every other verified one is a duplicate, and no id or nonce conflict is ever reported.
   */
  lemma InboxAcceptsExactlyOnce(l: Limits, systems: seq<System>, events: seq<Event>, n: nat)
    requires Run(l, systems, events) && n < |systems|
    ensures FirstAccepted(systems[n].deliveries)
    ensures forall d <- systems[n].deliveries :: d.verdict in {Unverified, AcceptedOnce, Duplicate}
    ensures forall i, j | 0 <= i < j < |systems[n].deliveries|
              && systems[n].deliveries[i].verdict == AcceptedOnce && systems[n].deliveries[j].verdict == AcceptedOnce ::
              systems[n].deliveries[i].signed.callback.command != systems[n].deliveries[j].signed.callback.command
  {
    RunKeeps(l, systems, events, n);
  }

  /** A clock with room for the effect never makes a dispatch throw. */
  lemma RoomMeansRecorded(l: Limits, s: State, command: Command, admission: AdmissionAnswer, answer: DeviceAnswer)
    requires command.id !in s.commands && command.tenant == l.tenant && admission.Admits?
    ensures Dispatch(l, s, command, admission, answer).1.Some? <==>
              || (s.profile.OfflineDevice? && answer == NoSuchDevice)
              || |s.queue| + (if s.profile.OfflineDevice? then 1 else 0) < l.maximumTasks
  {
    if s.profile.OfflineDevice? && answer != NoSuchDevice && |s.queue| < l.maximumTasks {
      InsertAddsOne(s.queue, Scheduled(s.now + s.profile.virtualMilliseconds, s.next, Recover));
    }
  }

  /** A dispatch that reaches the device and changes it. */
  predicate ChangesDevice(l: Limits, g: State, e: Event) {
    && e.DispatchEvent? && e.command.id !in g.commands && e.command.tenant == l.tenant && e.admission.Admits?
    && !g.profile.OfflineDevice? && (e.answer.Applies? || (e.answer.Refuses? && e.answer.changed))
  }

  lemma {:induction false} CopiesApplyNothing(l: Limits, s: State, cell: nat, delay: nat, separation: nat, copies: nat)
    ensures var t := ScheduleCopies(l, s, cell, delay, separation, copies);
            t.applied == s.applied && t.commands == s.commands
    decreases copies
  {
    if copies > 0 && ScheduleAfter(l, s, delay, Deliver(cell)).Some? {
      CopiesApplyNothing(l, ScheduleAfter(l, s, delay, Deliver(cell)).value, cell, delay + separation, separation,
                         copies - 1);
    }
  }

  lemma TasksApplyNothing(l: Limits, s: State, evidence: nat, clock: nat)
    requires s.queue != []
    ensures var t := RunNext(l, s, evidence, clock);
            t.applied == s.applied && t.commands == s.commands
  {
    var head := s.queue[0];
    if head.task.Capture? {
      var cell := Cell(CallbackFor(head.task.command, head.task.status, head.at, evidence), None);
      CopiesApplyNothing(l, s.(queue := s.queue[1..], now := head.at, cells := s.cells[head.sequence := cell]),
                         head.sequence, head.task.deliveryDelay, head.task.separation, head.task.copies);
    }
  }

  /** The device is changed by such a dispatch and by nothing else, whether or not the dispatch is recorded. */
  lemma StepApplies(l: Limits, w: System, e: Event)
    requires Enabled(w, e)
    ensures var g, t := w.gateway, Next(l, w, e).gateway;
            && t.applied == (if ChangesDevice(l, g, e) then g.applied + [e.command.id] else g.applied)
            && g.commands.Keys <= t.commands.Keys
            && (ChangesDevice(l, g, e) ==> (e.command.id in t.commands <==> |g.queue| < l.maximumTasks))
  {
    if e.RunTask? {
      TasksApplyNothing(l, w.gateway, e.evidence, e.clock);
    }
  }

  /** Every id the device has seen is recorded, and it was seen once. */
  ghost predicate SeenOnce(g: State) {
    && (forall id <- g.applied :: id in g.commands)
    && forall i, j | 0 <= i < j < |g.applied| :: g.applied[i] != g.applied[j]
  }

  /**
   * Each command id reaches the device at most once in a run in which the clock has a free task at
   * every dispatch that changes the device.
   */
  lemma {:induction false} RoomMeansAtMostOnce(l: Limits, systems: seq<System>, events: seq<Event>, n: nat)
    requires Run(l, systems, events) && n < |systems|
    requires forall i | 0 <= i < n && ChangesDevice(l, systems[i].gateway, events[i]) ::
             |systems[i].gateway.queue| < l.maximumTasks
    ensures SeenOnce(systems[n].gateway)
  {
    if n > 0 {
      RoomMeansAtMostOnce(l, systems, events, n - 1);
      StepApplies(l, systems[n - 1], events[n - 1]);
    }
  }

  /** How often the device has been changed for a command id. */
  function Times(g: State, id: nat): nat {
    multiset(g.applied)[id]
  }

  lemma {:induction false} RecordedIsNeverApplied(l: Limits, systems: seq<System>, events: seq<Event>, id: nat, n: nat)
    requires Stretch(l, systems, events) && n < |systems| && id in systems[0].gateway.commands
    ensures id in systems[n].gateway.commands
    ensures Times(systems[n].gateway, id) == Times(systems[0].gateway, id)
  {
    if n > 0 {
      RecordedIsNeverApplied(l, systems, events, id, n - 1);
      StepApplies(l, systems[n - 1], events[n - 1]);
    }
  }

  /** However the run goes on after event `e`, command `id` reaches the device at most once, `e` included. */
  ghost predicate AtMostOnceFrom(l: Limits, w: System, e: Event, id: nat) {
    forall systems: seq<System>, events: seq<Event>, n: nat |
      Stretch(l, systems, events) && n < |systems| && systems[0] == w && events != [] && events[0] == e ::
      Times(systems[n].gateway, id) <= Times(w.gateway, id) + 1
  }

  lemma RoomMeansAtMostOnceFrom(l: Limits, w: System, e: Event, systems: seq<System>, events: seq<Event>, n: nat)
    requires Stretch(l, systems, events) && n < |systems| && systems[0] == w && events != [] && events[0] == e
    requires ChangesDevice(l, w.gateway, e) && |w.gateway.queue| < l.maximumTasks
    ensures Times(systems[n].gateway, e.command.id) <= Times(w.gateway, e.command.id) + 1
  {
    StepApplies(l, w, e);
    if n > 0 {
      assert systems[1] == Next(l, systems[0], events[0]);
      var rest, later := systems[1..], events[1..];
      forall i | 0 <= i < |later| ensures Enabled(rest[i], later[i]) && rest[i + 1] == Next(l, rest[i], later[i]) {
        assert rest[i] == systems[i + 1] && later[i] == events[i + 1];
      }
      RecordedIsNeverApplied(l, rest, later, e.command.id, n - 1);
    }
  }

  /** Without a free task the same dispatch, sent again at once, changes the device a second time. */
  lemma FullClockRepeats(l: Limits, w: System, e: Event)
    requires ChangesDevice(l, w.gateway, e) && |w.gateway.queue| >= l.maximumTasks
    ensures !AtMostOnceFrom(l, w, e, e.command.id)
  {
    var once := Next(l, w, e);
    StepApplies(l, w, e);
    assert ChangesDevice(l, once.gateway, e);
    StepApplies(l, once, e);
    var systems, events := [w, once, Next(l, once, e)], [e, e];
    assert Stretch(l, systems, events) && systems[0] == w && events[0] == e && 2 < |systems|;
    assert systems[2].gateway.applied == w.gateway.applied + [e.command.id] + [e.command.id];
    assert Times(systems[2].gateway, e.command.id) > Times(w.gateway, e.command.id) + 1;
  }

  /**
   * In every state: from a dispatch that changes the device on, the command reaches the device at most
   * once whatever follows, if and only if the clock has a free task at that dispatch.
   */
  lemma AtMostOnceNeedsRoom(l: Limits, w: System, e: Event)
    requires ChangesDevice(l, w.gateway, e)
    ensures AtMostOnceFrom(l, w, e, e.command.id) <==> |w.gateway.queue| < l.maximumTasks
  {
    if |w.gateway.queue| < l.maximumTasks {
      forall systems: seq<System>, events: seq<Event>, n: nat |
        Stretch(l, systems, events) && n < |systems| && systems[0] == w && events != [] && events[0] == e
        ensures Times(systems[n].gateway, e.command.id) <= Times(w.gateway, e.command.id) + 1
      {
        RoomMeansAtMostOnceFrom(l, w, e, systems, events, n);
      }
    } else {
      FullClockRepeats(l, w, e);
    }
  }

  /** The bounded delivery queue, fed by this simulator in any order and with any repeats, never sees a conflict. */
  lemma EmittedCallbacksNeverConflict(
    l: Limits, systems: seq<System>, events: seq<Event>, n: nat,
    journals: seq<DeliveryRuns.Journal>, deliveries: seq<DeliveryRuns.Event>, maximum: nat, i: nat)
    requires Run(l, systems, events) && n < |systems|
    requires DeliveryRuns.Run(journals, deliveries, maximum) && i < |journals|
    requires forall d <- deliveries | d.EnqueueEvent? ::
             d.fingerprint in systems[n].gateway.emitted && d.id == d.fingerprint.callback.id
    ensures journals[i].conflicts == 0
  {
    RunKeeps(l, systems, events, n);
    forall a, b | 0 <= a < |deliveries| && 0 <= b < |deliveries| && deliveries[a].EnqueueEvent?
      && deliveries[b].EnqueueEvent?
      ensures deliveries[a].id == deliveries[b].id ==> deliveries[a].fingerprint == deliveries[b].fingerprint
    {
      EmittedOncePerCommand(systems[n].gateway, deliveries[a].fingerprint, deliveries[b].fingerprint);
    }
    DeliveryRuns.ConsistentSendersNeverConflict(journals, deliveries, maximum, i);
  }

  // ---------------------------------------------------------------- a clock without room

  const ONE_TASK := Limits(0, 1)
  const OTHER := Command(1, 0, 0, 0, None)
  const COMMAND := Command(2, 0, 0, 0, None)

  lemma OtherFillsTheClock()
    ensures var (s, r) := Dispatch(ONE_TASK, Fresh(0, NoFault).gateway, OTHER, Admits, Refuses(DeviceOffline, false));
            && s.queue == [Scheduled(0, 0, Capture(OTHER, CallbackFailed, 0, 1, 0))]
            && s.applied == [] && s.commands.Keys == {1} && s.profile == NoFault && s.cells == map[]
  {}

  lemma FullClockThrows(s: State)
    requires |s.queue| == 1 && s.profile == NoFault && COMMAND.id !in s.commands
    ensures Dispatch(ONE_TASK, s, COMMAND, Admits, Applies) ==
              (s.(applied := s.applied + [COMMAND.id], aborted := s.aborted + {COMMAND.id}), None)
  {}

  lemma ClockDrains(s: State) returns (t: State)
    requires s.queue == [Scheduled(0, 0, Capture(OTHER, CallbackFailed, 0, 1, 0))]
    ensures t == RunNext(ONE_TASK, s, 0, 0) && t.queue != []
    ensures var u := RunNext(ONE_TASK, t, 0, 0);
            u.queue == [] && u.commands == s.commands && u.applied == s.applied && u.profile == s.profile
  {
    t := RunNext(ONE_TASK, s, 0, 0);
    var captured := s.(queue := [], now := 0, cells := t.cells);
    FirstCopyOnly(ONE_TASK, captured, 0);
    assert t == ScheduleCopies(ONE_TASK, captured, 0, 0, 0, 1);
  }

  lemma FirstCopyOnly(l: Limits, s: State, cell: nat)
    requires s.queue == [] && l.maximumTasks > 0
    ensures var t := ScheduleCopies(l, s, cell, 0, 0, 1);
            && t.queue == [Scheduled(s.now, s.next, Deliver(cell))]
            && t == s.(queue := t.queue, next := t.next)
  {
    var t := ScheduleAfter(l, s, 0, Deliver(cell)).value;
    assert ScheduleCopies(l, s, cell, 0, 0, 1) == ScheduleCopies(l, t, cell, 0, 0, 0);
  }

  lemma RunOn(systems: seq<System>, events: seq<Event>, e: Event) returns (more: seq<System>, after: seq<Event>)
    requires Run(ONE_TASK, systems, events) && Enabled(systems[|systems| - 1], e)
    ensures Run(ONE_TASK, more, after)
    ensures more[|more| - 1] == Next(ONE_TASK, systems[|systems| - 1], e)
  {
    more := systems + [Next(ONE_TASK, systems[|systems| - 1], e)];
    after := events + [e];
    forall i | 0 <= i < |after| ensures Enabled(more[i], after[i]) && more[i + 1] == Next(ONE_TASK, more[i], after[i]) {
      if i < |events| {
        assert after[i] == events[i];
      }
    }
  }

  lemma RunIntoTheBound() returns (systems: seq<System>, events: seq<Event>)
    ensures Run(ONE_TASK, systems, events)
    ensures var g := systems[|systems| - 1].gateway;
            && g.applied == [2] && 2 !in g.commands && g.profile == NoFault
            && g.queue == [Scheduled(0, 0, Capture(OTHER, CallbackFailed, 0, 1, 0))]
  {
    systems, events := [Fresh(0, NoFault)], [];
    OtherFillsTheClock();
    var other := DispatchEvent(OTHER, Admits, Refuses(DeviceOffline, false));
    systems, events := RunOn(systems, events, other);
    FullClockThrows(systems[|systems| - 1].gateway);
    var command := DispatchEvent(COMMAND, Admits, Applies);
    systems, events := RunOn(systems, events, command);
  }

  /**
   * "At most once" fails for a clock without room: the device is changed, the dispatch throws, the
   * retry changes it again.
   */
  lemma FullClockAppliesTwice()
    ensures exists systems: seq<System>, events: seq<Event> ::
              Run(ONE_TASK, systems, events) && systems[|systems| - 1].gateway.applied == [COMMAND.id, COMMAND.id]
  {
    var systems, events := RunIntoTheBound();
    var drained := ClockDrains(systems[|systems| - 1].gateway);
    systems, events := RunOn(systems, events, RunTask(0, 0));
    systems, events := RunOn(systems, events, RunTask(0, 0));
    var retry := DispatchEvent(COMMAND, Admits, Applies);
    assert Dispatch(ONE_TASK, systems[|systems| - 1].gateway, COMMAND, Admits, Applies).0.applied == [2] + [2];
    systems, events := RunOn(systems, events, retry);
    assert Run(ONE_TASK, systems, events) && systems[|systems| - 1].gateway.applied == [COMMAND.id, COMMAND.id];
  }
}
