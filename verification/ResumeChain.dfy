/**
 * The chain of resume jobs: a job whose mission must be retried stores its successor, under an id
 * computed from its own, before it is acknowledged. Jobs are delivered at least once; workers crash
 * and responses get lost anywhere.
 */
module ResumeChain {
  import opened Optional

  /** Successor ids are an injective hash of topic and predecessor; published ids are random ones. */
  datatype JobId = Published(number: nat) | Successor(topic: nat, predecessor: JobId)

  datatype JobState = Waiting | Active | Completed | DeadLettered

  datatype Job = Job(mission: nat, state: JobState)

  datatype ResumeOutcome = Retry | Settled

  /** How far one delivery of a job has come in its worker. */
  datatype Stage = Resuming | Resumed(outcome: ResumeOutcome) | Sent(answered: bool)

  datatype Handling = Handling(job: JobId, mission: nat, stage: Stage)

  datatype Acknowledged = Acknowledged(job: JobId, outcome: ResumeOutcome)

  /** `stored` remembers every job ever inserted, `inserted` in which order. */
  datatype System = System(
    queue: map<JobId, Job>, workers: map<nat, Handling>, inserted: seq<JobId>, missions: map<JobId, nat>,
    acked: seq<Acknowledged>)

  const TOPIC: nat := 0
  const EMPTY := System(map[], map[], [], map[], [])

  datatype Event =
    | PublishEvent(number: nat, mission: nat)
    | Fetch(w: nat, job: JobId)
    | Redeliver(job: JobId)
    | Finish(w: nat, outcome: ResumeOutcome)
    | Send(w: nat)
    | Answer(w: nat)
    | Crash(w: nat)
    | Ack(w: nat)
    | GiveUp(job: JobId)
    | Retire(job: JobId)

  /** The queue ignores a job under an id it holds. */
  function Store(s: System, id: JobId, mission: nat): System {
    if id in s.queue then s
    else s.(queue := s.queue[id := Job(mission, Waiting)], inserted := s.inserted + [id],
            missions := if id in s.missions then s.missions else s.missions[id := mission])
  }

  function SetState(s: System, id: JobId, state: JobState): System
    requires id in s.queue
  {
    s.(queue := s.queue[id := s.queue[id].(state := state)])
  }

  function SetStage(s: System, w: nat, stage: Stage): System
    requires w in s.workers
  {
    s.(workers := s.workers[w := s.workers[w].(stage := stage)])
  }

  /** A handler may be acknowledged once it returned: after `retry` only with its successor's answer. */
  predicate Returned(stage: Stage) {
    stage == Resumed(Settled) || stage == Sent(true)
  }

  predicate Enabled(s: System, e: Event) {
    match e
    case PublishEvent(_, _) => true
    case Fetch(w, job) => w !in s.workers && job in s.queue && s.queue[job].state == Waiting
    case Redeliver(job) => job in s.queue && s.queue[job].state == Active
    case Finish(w, _) => w in s.workers && s.workers[w].stage == Resuming
    case Send(w) => w in s.workers && s.workers[w].stage in {Resumed(Retry), Sent(false)}
    case Answer(w) => w in s.workers && s.workers[w].stage == Sent(false)
    case Crash(w) => w in s.workers
    case Ack(w) => w in s.workers && Returned(s.workers[w].stage)
    case GiveUp(job) => job in s.queue && s.queue[job].state == Active
    case Retire(job) => job in s.queue && s.queue[job].state in {Completed, DeadLettered}
  }

  function Next(s: System, e: Event): System
    requires Enabled(s, e)
  {
    match e
    case PublishEvent(number, mission) => Store(s, Published(number), mission)
    case Fetch(w, job) =>
      SetState(s, job, Active).(workers := s.workers[w := Handling(job, s.queue[job].mission, Resuming)])
    case Redeliver(job) => SetState(s, job, Waiting)
    case Finish(w, outcome) => SetStage(s, w, Resumed(outcome))
    case Send(w) => SetStage(Store(s, Successor(TOPIC, s.workers[w].job), s.workers[w].mission), w, Sent(false))
    case Answer(w) => SetStage(s, w, Sent(true))
    case Crash(w) => s.(workers := s.workers - {w})
    case Ack(w) =>
      var job := s.workers[w].job;
      var outcome := if s.workers[w].stage.Sent? then Retry else Settled;
      s.(workers := s.workers - {w}, acked := s.acked + [Acknowledged(job, outcome)],
         queue := if job in s.queue then s.queue[job := s.queue[job].(state := Completed)] else s.queue)
    case GiveUp(job) => SetState(s, job, DeadLettered)
    case Retire(job) => s.(queue := s.queue - {job})
  }

  ghost predicate Run(systems: seq<System>, events: seq<Event>) {
    && |systems| == |events| + 1 && systems[0] == EMPTY
    && forall i | 0 <= i < |events| :: Enabled(systems[i], events[i]) && systems[i + 1] == Next(systems[i], events[i])
  }

  // ---------------------------------------------------------------- the queue adapter

  datatype SendResult = SendResult(jobId: Option<JobId>, duplicate: bool)

  class QueueAdapter {
    var queue: map<JobId, Job>
    var createdQueues: set<nat>

    constructor ()
      ensures queue == map[] && createdQueues == {}
    {
      queue, createdQueues := map[], {};
    }

    method EnsureQueue(topic: nat)
      modifies this`createdQueues
      ensures createdQueues == old(createdQueues) + {topic}
    {
      if topic !in createdQueues {
        createdQueues := createdQueues + {topic};
      }
    }

    /** publishSuccessor: the id depends on the predecessor alone, so a second send changes nothing. */
    method PublishSuccessor(topic: nat, mission: nat, predecessor: JobId) returns (r: SendResult)
      modifies this
      ensures createdQueues == old(createdQueues) + {topic}
      ensures r.duplicate <==> Successor(topic, predecessor) in old(queue)
      ensures r.jobId == if r.duplicate then None else Some(Successor(topic, predecessor))
      ensures queue == if r.duplicate then old(queue)
              else old(queue)[Successor(topic, predecessor) := Job(mission, Waiting)]
    {
      EnsureQueue(topic);
      var id := Successor(topic, predecessor);
      if id in queue {
        return SendResult(None, true);
      }
      queue := queue[id := Job(mission, Waiting)];
      r := SendResult(Some(id), false);
    }
  }

  // ---------------------------------------------------------------- lines of jobs

  /** The k-th job of the line that starts with published job `number`. */
  function Line(number: nat, k: nat): JobId {
    if k == 0 then Published(number) else Successor(TOPIC, Line(number, k - 1))
  }

  ghost predicate Sound(s: System) {
    && (forall id <- s.queue :: id in s.missions && s.queue[id].mission == s.missions[id])
    && (forall id :: id in s.inserted <==> id in s.missions)
    && (forall id <- s.missions ::
          id.Published?
          || (id.topic == TOPIC && id.predecessor in s.missions && s.missions[id] == s.missions[id.predecessor]))
    && (forall w <- s.workers ::
          var h := s.workers[w];
          h.job in s.missions && h.mission == s.missions[h.job]
            && (h.stage.Sent? ==> Successor(TOPIC, h.job) in s.missions))
    && (forall a <- s.acked :: a.job in s.missions && (a.outcome == Retry ==> Successor(TOPIC, a.job) in s.missions))
  }

  lemma StoreKeeps(s: System, id: JobId, mission: nat)
    requires Sound(s)
    requires id.Published? || (id.topic == TOPIC && id.predecessor in s.missions
                               && s.missions[id.predecessor] == mission)
    requires id in s.missions && id !in s.queue ==> s.missions[id] == mission
    ensures Sound(Store(s, id, mission)) && id in Store(s, id, mission).missions
    ensures forall k <- s.missions ::
            k in Store(s, id, mission).missions && Store(s, id, mission).missions[k] == s.missions[k]
  {
    var t := Store(s, id, mission);
    if id !in s.queue {
      forall k ensures k in t.inserted <==> k in t.missions {
        assert k in t.inserted <==> k in s.inserted || k == id;
      }
    }
  }

  lemma QueueStepKeeps(s: System, e: Event)
    requires Sound(s) && Enabled(s, e) && (e.Fetch? || e.Redeliver? || e.GiveUp? || e.Retire?)
    ensures Sound(Next(s, e)) && Next(s, e).missions == s.missions
  {}

  lemma WorkerStepKeeps(s: System, e: Event)
    requires Sound(s) && Enabled(s, e) && (e.Finish? || e.Answer? || e.Crash? || e.Ack?)
    ensures Sound(Next(s, e)) && Next(s, e).missions == s.missions
  {}

  lemma SendKeeps(s: System, e: Event)
    requires Sound(s) && Enabled(s, e) && e.Send?
    ensures Sound(Next(s, e))
    ensures forall id <- s.missions :: id in Next(s, e).missions && Next(s, e).missions[id] == s.missions[id]
  {
    StoreKeeps(s, Successor(TOPIC, s.workers[e.w].job), s.workers[e.w].mission);
  }

  lemma NextKeeps(s: System, e: Event)
    requires Sound(s) && Enabled(s, e)
    requires e.PublishEvent? && Published(e.number) in s.missions ==> s.missions[Published(e.number)] == e.mission
    ensures Sound(Next(s, e))
    ensures forall id <- s.missions :: id in Next(s, e).missions && Next(s, e).missions[id] == s.missions[id]
  {
    match e
    case PublishEvent(number, mission) => StoreKeeps(s, Published(number), mission);
    case Send(_) => SendKeeps(s, e);
    case Fetch(_, _) | Redeliver(_) | GiveUp(_) | Retire(_) => QueueStepKeeps(s, e);
    case _ => WorkerStepKeeps(s, e);
  }

  /** Published ids are drawn once: publishing one again means publishing the same mission. */
  ghost predicate FreshIds(systems: seq<System>, events: seq<Event>)
    requires |events| <= |systems|
  {
    forall i | 0 <= i < |events| && events[i].PublishEvent? && Published(events[i].number) in systems[i].missions ::
      systems[i].missions[Published(events[i].number)] == events[i].mission
  }

  lemma {:induction false} RunSound(systems: seq<System>, events: seq<Event>, n: nat)
    requires Run(systems, events) && FreshIds(systems, events) && n < |systems|
    ensures Sound(systems[n])
  {
    if n > 0 {
      RunSound(systems, events, n - 1);
      NextKeeps(systems[n - 1], events[n - 1]);
    }
  }

  function MissionOf(s: System, id: JobId): Option<nat> {
    if id in s.missions then Some(s.missions[id]) else None
  }

  function Number(id: JobId): nat {
    match id
    case Published(number) => number
    case Successor(_, predecessor) => Number(predecessor)
  }

  function Depth(id: JobId): nat {
    match id
    case Published(_) => 0
    case Successor(_, predecessor) => Depth(predecessor) + 1
  }

  lemma {:induction false} OnOneLine(s: System, id: JobId)
    requires Sound(s) && id in s.missions
    ensures id == Line(Number(id), Depth(id))
    ensures forall k | 0 <= k <= Depth(id) ::
            Line(Number(id), k) in s.missions && s.missions[Line(Number(id), k)] == s.missions[id]
    decreases id
  {
    match id
    case Published(_) =>
    case Successor(_, predecessor) => OnOneLine(s, predecessor);
  }

  /**
   * Every job ever stored lies on the line of one published job: the line has no gap before it, all of
   * it is for the same mission, and two jobs of a line at one depth, or after one job, are the same job.
   */
  lemma JobsFormLines(systems: seq<System>, events: seq<Event>, n: nat, a: JobId, b: JobId)
    requires Run(systems, events) && FreshIds(systems, events) && n < |systems|
    requires a in systems[n].inserted && b in systems[n].inserted
    ensures a == Line(Number(a), Depth(a))
    ensures forall k | 0 <= k <= Depth(a) ::
              Line(Number(a), k) in systems[n].inserted
                && MissionOf(systems[n], Line(Number(a), k)) == MissionOf(systems[n], a)
    ensures Number(a) == Number(b) && Depth(a) == Depth(b) ==> a == b
    ensures a.Successor? && b.Successor? && a.predecessor == b.predecessor ==> a == b
  {
    RunSound(systems, events, n);
    OnOneLine(systems[n], a);
    OnOneLine(systems[n], b);
  }

  /**
   * The jobs of one mission form one line if and only if a single job was published for it; every
   * further job published for the mission starts a line of its own.
   */
  lemma MissionHasOneLine(systems: seq<System>, events: seq<Event>, n: nat, mission: nat)
    requires Run(systems, events) && FreshIds(systems, events) && n < |systems|
    ensures var s := systems[n];
            (forall a, b | a in s.inserted && b in s.inserted && MissionOf(s, a) == MissionOf(s, b) == Some(mission) ::
             Number(a) == Number(b))
            <==> (forall x: nat, y: nat | Published(x) in s.inserted && Published(y) in s.inserted
                                && MissionOf(s, Published(x)) == MissionOf(s, Published(y)) == Some(mission) :: x == y)
  {
    var s := systems[n];
    RunSound(systems, events, n);
    forall a | a in s.inserted
      ensures Published(Number(a)) in s.inserted && MissionOf(s, Published(Number(a))) == MissionOf(s, a)
    {
      OnOneLine(s, a);
      assert Line(Number(a), 0) == Published(Number(a));
    }
    forall x: nat, y: nat | Published(x) in s.inserted && Published(y) in s.inserted
      ensures Number(Published(x)) == x {}
  }

  /** Two jobs published for one mission start two lines. */
  lemma SecondPublishStartsALine(mission: nat)
    ensures exists systems: seq<System>, events: seq<Event> ::
              && Run(systems, events) && FreshIds(systems, events) && |events| == 2
              && Published(0) in systems[2].inserted && Published(1) in systems[2].inserted
              && MissionOf(systems[2], Published(0)) == MissionOf(systems[2], Published(1)) == Some(mission)
  {
    var events := [PublishEvent(0, mission), PublishEvent(1, mission)];
    var one := Next(EMPTY, events[0]);
    var two := Next(one, events[1]);
    assert one.inserted == [Published(0)] && two.inserted == [Published(0), Published(1)];
    assert Run([EMPTY, one, two], events) && FreshIds([EMPTY, one, two], events);
  }

  /** A job acknowledged after `retry` already has its successor stored, for the same mission. */
  lemma RetriedJobsHaveSuccessors(systems: seq<System>, events: seq<Event>, n: nat, job: JobId)
    requires Run(systems, events) && FreshIds(systems, events) && n < |systems|
    requires Acknowledged(job, Retry) in systems[n].acked
    ensures Successor(TOPIC, job) in systems[n].inserted
    ensures MissionOf(systems[n], Successor(TOPIC, job)) == MissionOf(systems[n], job)
  {
    RunSound(systems, events, n);
  }

  /** No mission is dropped: the last job of a line is only ever acknowledged with a settled outcome. */
  lemma LastJobIsNotDropped(systems: seq<System>, events: seq<Event>, n: nat, a: Acknowledged)
    requires Run(systems, events) && FreshIds(systems, events) && n < |systems|
    requires a in systems[n].acked
    requires forall id <- systems[n].inserted :: Number(id) == Number(a.job) ==> Depth(id) <= Depth(a.job)
    ensures a.outcome == Settled
  {
    RunSound(systems, events, n);
    var successor := Successor(TOPIC, a.job);
    assert Number(successor) == Number(a.job) && Depth(successor) == Depth(a.job) + 1;
  }

  // ---------------------------------------------------------------- stored once

  ghost predicate Inserts(systems: seq<System>, i: nat, id: JobId)
    requires i + 1 < |systems|
  {
    systems[i + 1].inserted == systems[i].inserted + [id]
  }

  lemma StepKeepsJob(s: System, e: Event, id: JobId)
    requires Enabled(s, e) && id in s.queue && e != Retire(id)
    ensures id in Next(s, e).queue && Next(s, e).inserted != s.inserted + [id]
  {
    var t := Next(s, e);
    assert t.inserted == s.inserted || t.inserted == s.inserted + [t.inserted[|s.inserted|]];
  }

  lemma StepInserts(s: System, e: Event, id: JobId)
    requires Enabled(s, e) && Next(s, e).inserted == s.inserted + [id]
    ensures id in Next(s, e).queue
  {
    assert Next(s, e).inserted[|s.inserted|] == id;
  }

  lemma {:induction false} JobStaysUntilRetired(systems: seq<System>, events: seq<Event>, i: nat, j: nat, id: JobId)
    requires Run(systems, events) && i <= j < |systems| && id in systems[i].queue
    requires forall k | i <= k < j :: events[k] != Retire(id)
    ensures id in systems[j].queue
  {
    if i < j {
      JobStaysUntilRetired(systems, events, i, j - 1, id);
      StepKeepsJob(systems[j - 1], events[j - 1], id);
    }
  }

  /** An id is stored a second time only after the job stored under it was retired in between. */
  lemma SecondStoreNeedsRetire(systems: seq<System>, events: seq<Event>, i: nat, j: nat, id: JobId)
    requires Run(systems, events) && i < j < |events| && Inserts(systems, i, id) && Inserts(systems, j, id)
    ensures exists k | i < k < j :: events[k] == Retire(id)
  {
    if forall k | i < k < j :: events[k] != Retire(id) {
      StepInserts(systems[i], events[i], id);
      JobStaysUntilRetired(systems, events, i + 1, j, id);
      if events[j] == Retire(id) {
        assert systems[j + 1].inserted == systems[j].inserted;
      } else {
        StepKeepsJob(systems[j], events[j], id);
      }
    }
  }
}
