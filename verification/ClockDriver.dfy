/** The driver that ticks the virtual clock, and how far it can be from the ideal anchored time. */
module ClockDriver {
  import opened Optional

  const MINUTE: int := 60_000

  /** Instants are whole milliseconds; the clock's own task errors are an input of the tick. */
  datatype Options = Options(rate: int, realStartAt: Option<int>, advanceToOnStart: Option<int>)

  predicate Valid(options: Options) {
    1 <= options.rate <= MINUTE
  }

  /** `timer` and `startTimer` hold the instants they were set for. */
  datatype State = State(virtualNow: int, timer: Option<int>, startTimer: Option<int>, requested: bool, failed: bool)

  /** Where beginning at the real instant `instant` puts the clock; None if the clock cannot move back that far. */
  function Activation(o: Options, s: State, instant: int): Option<int>
    requires o.rate > 0
  {
    match o.advanceToOnStart
    case None => Some(s.virtualNow)
    case Some(at) =>
      var elapsed := if o.realStartAt.None? || instant < o.realStartAt.value then 0 else instant - o.realStartAt.value;
      var target := at + elapsed * MINUTE / o.rate;
      if target < s.virtualNow then None else Some(target)
  }

  function Begin(o: Options, s: State, instant: int): State
    requires o.rate > 0
  {
    if s.failed || s.timer.Some? then s
    else
      match Activation(o, s, instant)
      case None => s.(failed := true, startTimer := None)
      case Some(target) => s.(virtualNow := target, timer := Some(instant))
  }

  function Start(o: Options, s: State, instant: int): State
    requires o.rate > 0
  {
    if s.requested || s.failed then s
    else if o.realStartAt.Some? && o.realStartAt.value > instant then s.(requested := true, startTimer := o.realStartAt)
    else Begin(o, s.(requested := true), instant)
  }

  function Tick(s: State, ok: bool): State {
    if s.failed then s
    else if ok then s.(virtualNow := s.virtualNow + MINUTE)
    else s.(failed := true, timer := None, startTimer := None)
  }

  class VirtualClockDriver {
    const options: Options
    var virtualNow: int
    var timer: Option<int>
    var startTimer: Option<int>
    var startRequested: bool
    var failed: bool

    ghost function View(): State
      reads this
    {
      State(virtualNow, timer, startTimer, startRequested, failed)
    }

    constructor (options: Options, startsAt: int)
      requires Valid(options)
      ensures this.options == options && View() == State(startsAt, None, None, false, false)
    {
      this.options := options;
      virtualNow, timer, startTimer, startRequested, failed := startsAt, None, None, false, false;
    }

    method BeginAcceleratedTime(instant: int)
      requires Valid(options)
      modifies this
      ensures View() == Begin(options, old(View()), instant)
    {
      if failed || timer.Some? {
        return;
      }
      if options.advanceToOnStart.Some? {
        var elapsed := 0;
        if options.realStartAt.Some? && instant >= options.realStartAt.value {
          elapsed := instant - options.realStartAt.value;
        }
        var target := options.advanceToOnStart.value + elapsed * MINUTE / options.rate;
        if target < virtualNow {
          failed, startTimer := true, None;
          return;
        }
        virtualNow := target;
      }
      timer := Some(instant);
    }

    /** A failed driver's start throws; nothing changes. */
    method StartDriver(instant: int)
      requires Valid(options)
      modifies this
      ensures View() == Start(options, old(View()), instant)
    {
      if startRequested || failed {
        return;
      }
      startRequested := true;
      if options.realStartAt.Some? && options.realStartAt.value > instant {
        startTimer := options.realStartAt;
        return;
      }
      BeginAcceleratedTime(instant);
    }

    method StartTimerFires(instant: int)
      requires Valid(options) && startTimer.Some?
      modifies this
      ensures View() == Begin(options, old(View()).(startTimer := None), instant)
    {
      startTimer := None;
      BeginAcceleratedTime(instant);
    }

    method AdvanceOneVirtualMinute(ok: bool)
      modifies this
      ensures View() == Tick(old(View()), ok)
    {
      if failed {
        return;
      }
      if ok {
        virtualNow := virtualNow + MINUTE;
      } else {
        failed := true;
        Stop();
      }
    }

    method Stop()
      modifies this
      ensures View() == old(View()).(timer := None, startTimer := None)
    {
      timer, startTimer := None, None;
    }
  }

  // ---------------------------------------------------------------- driven time

  /** The state after `count` successful interval ticks. */
  function Ticked(s: State, count: nat): State {
    if count == 0 then s else Tick(Ticked(s, count - 1), true)
  }

  lemma {:induction false} TickedAdvances(s: State, count: nat)
    requires !s.failed
    ensures Ticked(s, count) == s.(virtualNow := s.virtualNow + count * MINUTE)
  {
    if count > 0 {
      TickedAdvances(s, count - 1);
    }
  }

  /** The clock at `instant`, begun at `began`, with every interval tick on time. */
  function Driven(o: Options, s: State, began: int, instant: int): State
    requires o.rate > 0 && began <= instant
  {
    Ticked(Begin(o, s, began), (instant - began) / o.rate)
  }

  /** rate times the ideal anchored time minus rate times the driven one: how far the clock trails. */
  function Trail(o: Options, s: State, began: int, instant: int): int
    requires o.rate > 0 && began <= instant && o.realStartAt.Some? && o.advanceToOnStart.Some?
  {
    o.rate * o.advanceToOnStart.value + (instant - o.realStartAt.value) * MINUTE
    - o.rate * Driven(o, s, began, instant).virtualNow
  }

  /** A driver that has not begun, with a clock that can still reach its activation. */
  ghost predicate Anchored(o: Options, s: State, began: int) {
    && o.rate > 0 && o.realStartAt.Some? && o.advanceToOnStart.Some?
    && o.realStartAt.value <= began
    && !s.failed && s.timer == None && s.virtualNow <= o.advanceToOnStart.value
  }

  /** What is lost to rounding: the jump's floor, and the part of an interval that has not ticked yet. */
  lemma TrailIsRounding(o: Options, s: State, began: int, instant: int)
    requires Anchored(o, s, began) && began <= instant
    ensures Trail(o, s, began, instant)
            == (began - o.realStartAt.value) * MINUTE % o.rate + ((instant - began) % o.rate) * MINUTE
  {
    var late, since := began - o.realStartAt.value, instant - began;
    QuotientNonnegative(late * MINUTE, o.rate);
    QuotientNonnegative(since, o.rate);
    TickedAdvances(Begin(o, s, began), since / o.rate);
    DivisionIdentity(late * MINUTE, o.rate);
    DivisionIdentity(since, o.rate);
    RoundingAlgebra(o.rate, o.advanceToOnStart.value, late, since, late * MINUTE / o.rate, since / o.rate,
                    late * MINUTE % o.rate, since % o.rate);
  }

  lemma QuotientNonnegative(x: int, r: int)
    requires x >= 0 && r > 0
    ensures x / r >= 0
  {}

  lemma DivisionIdentity(x: int, r: int)
    requires r > 0
    ensures x == r * (x / r) + x % r && 0 <= x % r < r
  {}

  lemma RoundingAlgebra(r: int, at: int, late: int, since: int, q: int, k: int, lateRest: int, sinceRest: int)
    requires late * MINUTE == r * q + lateRest && since == r * k + sinceRest
    ensures r * at + (late + since) * MINUTE - r * (at + q + k * MINUTE) == lateRest + sinceRest * MINUTE
  {
    assert r * (at + q + k * MINUTE) == r * at + r * q + r * k * MINUTE;
  }

  /** For every late start and later instant: never ahead, and less than one virtual minute behind. */
  lemma DrivenClockTrailsByLessThanAMinute(o: Options, s: State, began: int, instant: int)
    requires Anchored(o, s, began) && Valid(o) && began <= instant
    ensures 0 <= Trail(o, s, began, instant) < o.rate * MINUTE
  {
    TrailIsRounding(o, s, began, instant);
    DivisionIdentity((began - o.realStartAt.value) * MINUTE, o.rate);
    DivisionIdentity(instant - began, o.rate);
  }

  /** The bound holds for every late start exactly when the rate is within the constructor's limit. */
  lemma BoundNeedsTheRateLimit(o: Options, s: State)
    requires o.realStartAt.Some? && Anchored(o, s, o.realStartAt.value)
    ensures o.rate <= MINUTE <==>
              forall began, instant | o.realStartAt.value <= began <= instant ::
                0 <= Trail(o, s, began, instant) < o.rate * MINUTE
  {
    if o.rate <= MINUTE {
      forall began, instant | o.realStartAt.value <= began <= instant
        ensures 0 <= Trail(o, s, began, instant) < o.rate * MINUTE
      {
        DrivenClockTrailsByLessThanAMinute(o, s, began, instant);
      }
    } else {
      var began := o.realStartAt.value + 1;
      var instant := began + o.rate - 1;
      TrailIsRounding(o, s, began, instant);
      SmallRemainder(MINUTE, o.rate);
      SmallRemainder(o.rate - 1, o.rate);
      assert Trail(o, s, began, instant) == o.rate * MINUTE;
    }
  }

  lemma SmallRemainder(x: int, r: int)
    requires 0 <= x < r
    ensures x % r == x
  {}

  /** Two drivers of the same anchor, begun at any times, never differ by a virtual minute or more. */
  lemma SharedAnchorKeepsClocksTogether(o: Options, a: State, b: State, beganA: int, beganB: int, instant: int)
    requires Anchored(o, a, beganA) && Anchored(o, b, beganB) && Valid(o) && beganA <= instant && beganB <= instant
    ensures -MINUTE < Driven(o, a, beganA, instant).virtualNow - Driven(o, b, beganB, instant).virtualNow < MINUTE
  {
    DrivenClockTrailsByLessThanAMinute(o, a, beganA, instant);
    DrivenClockTrailsByLessThanAMinute(o, b, beganB, instant);
    TrailsApart(o.rate, o.rate * o.advanceToOnStart.value + (instant - o.realStartAt.value) * MINUTE,
                Driven(o, a, beganA, instant).virtualNow, Driven(o, b, beganB, instant).virtualNow);
  }

  lemma TrailsApart(r: int, ideal: int, x: int, y: int)
    requires r > 0 && 0 <= ideal - r * x < r * MINUTE && 0 <= ideal - r * y < r * MINUTE
    ensures -MINUTE < x - y < MINUTE
  {
    Spread(r, x, y);
    Cancel(r, x - y);
  }

  lemma Spread(r: int, x: int, y: int)
    ensures r * (x - y) == r * x - r * y
  {}

  lemma Cancel(r: int, d: int)
    requires r > 0
    ensures -(r * MINUTE) < r * d < r * MINUTE ==> -MINUTE < d < MINUTE
  {
    if d >= MINUTE {
      assert r * d >= r * MINUTE;
    }
    if d <= -MINUTE {
      assert r * d <= r * (-MINUTE);
    }
  }
}
