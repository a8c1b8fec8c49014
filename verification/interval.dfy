/**
 The timer rule that drives the tub while a button is held: the interval is
 scheduled exactly while the tub is moving, and each firing dispatches one
 step in the current direction. User input is an arbitrary sequence of
 dispatched actions; durations are abstracted to one firing per step.
 */
module Interval {
  import opened Tub
  import opened Reducer

  /** The period, in milliseconds, handed to the interval while it is active. */
  const Period: int := 2000

  /** The delay argument of the interval: the period while the tub moves,
      `null` (no timer) while it idles. */
  function Delay(st: TubStatus): Option<int>
  {
    if st != IDLING then Some(Period) else None
  }

  predicate Active(st: TubStatus)
  {
    Delay(st).Some?
  }

  /** The action the interval's callback dispatches: increase while filling,
      decrease otherwise. */
  function TickAction(st: TubStatus): Action
  {
    if st == INCREASING then IncreaseWaterLevel else DecreaseWaterLevel
  }

  /** What one firing of the interval dispatches in state `s`, if a timer is
      scheduled at all. */
  function Tick(s: TubState): (r: Option<Action>)
    ensures r.Some? <==> s.status != IDLING
    ensures r.Some? ==> (r.value == IncreaseWaterLevel <==> s.status == INCREASING)
    ensures r != Some(StopPlayingWithWater)
  {
    if Active(s.status) then Some(TickAction(s.status)) else None
  }

  /** The interval is scheduled, always with period 2000, exactly when the
      status is not idling. */
  lemma DelayIffMoving(st: TubStatus)
    ensures Active(st) <==> st != IDLING
    ensures Active(st) ==> Delay(st) == Some(2000)
    ensures !Active(st) ==> Delay(st) == None
  {
  }

  /** Something that can happen to the page: the user's gestures dispatch an
      action, or the interval fires. */
  datatype Event = Dispatch(action: Action) | TimerFired

  /** One event. A firing while idle cannot happen, since no timer is then
      scheduled; treating it as a no-op is equivalent. */
  function Step(s: TubState, e: Event): TubState
  {
    match e
    case Dispatch(a) => Reduce(s, a)
    case TimerFired =>
      match Tick(s)
      case None => s
      case Some(a) => Reduce(s, a)
  }

  function RunEvents(s: TubState, evs: seq<Event>): TubState
    decreases |evs|
  {
    if |evs| == 0 then s else RunEvents(Step(s, evs[0]), evs[1..])
  }

  /** The actions the events dispatch, in order: every gesture dispatch, and
      a timer firing only while the timer is scheduled. */
  function Dispatched(s: TubState, evs: seq<Event>): (acts: seq<Action>)
    ensures |acts| <= |evs|
    decreases |evs|
  {
    if |evs| == 0 then []
    else
      var head := match evs[0]
        case Dispatch(a) => [a]
        case TimerFired => match Tick(s) case None => [] case Some(a) => [a];
      head + Dispatched(Step(s, evs[0]), evs[1..])
  }

  /** With no timer firings among them, the user's dispatches reach the
      reducer unchanged, one for one and in order. */
  lemma {:induction false} UserDispatchesPassThrough(s: TubState, evs: seq<Event>)
    requires forall i :: 0 <= i < |evs| ==> evs[i].Dispatch?
    ensures Dispatched(s, evs) == seq(|evs|, i requires 0 <= i < |evs| => evs[i].action)
    decreases |evs|
  {
    if |evs| > 0 {
      UserDispatchesPassThrough(Step(s, evs[0]), evs[1..]);
    }
  }

  /** Interleaving timer firings with user input is the same as dispatching
      the actions they produce through the reducer: the timer adds no other
      way of changing the state. */
  lemma {:induction false} EventsAreDispatches(s: TubState, evs: seq<Event>)
    ensures RunEvents(s, evs) == Run(s, Dispatched(s, evs))
    decreases |evs|
  {
    if |evs| > 0 {
      var s' := Step(s, evs[0]);
      var rest := Dispatched(s', evs[1..]);
      EventsAreDispatches(s', evs[1..]);
      match evs[0]
      case Dispatch(a) =>
        assert Dispatched(s, evs) == [a] + rest;
        assert ([a] + rest)[1..] == rest;
      case TimerFired =>
        match Tick(s)
        case None =>
          assert Dispatched(s, evs) == [] + rest;
          assert [] + rest == rest;
        case Some(a) =>
          assert Dispatched(s, evs) == [a] + rest;
          assert ([a] + rest)[1..] == rest;
    }
  }

  /** Any interleaving of user input and timer firings from the mounted state
      keeps the level within [0, 5]. */
  lemma EventsKeepLevelBounded(evs: seq<Event>)
    ensures Valid(RunEvents(InitialState, evs))
    ensures Floor <= RunEvents(InitialState, evs).level <= Ceiling
  {
    EventsAreDispatches(InitialState, evs);
    InitialStateValid();
    RunPreservesValid(InitialState, Dispatched(InitialState, evs));
  }

  /** Once an action idles the tub (a bound was hit, or the button was
      released), the interval is unscheduled and further firings change nothing. */
  lemma IdleStopsTicks(s: TubState, a: Action, n: nat)
    requires Reduce(s, a).status == IDLING
    ensures Tick(Reduce(s, a)) == None
    ensures RunTicks(Reduce(s, a), n) == Reduce(s, a)
  {
    IdleIsQuiescent(Reduce(s, a), n);
  }

  /** `n` consecutive firings of the interval, with no user input between them. */
  function RunTicks(s: TubState, n: nat): TubState
    decreases n
  {
    if n == 0 then s else RunTicks(Step(s, TimerFired), n - 1)
  }

  lemma {:induction false} IdleIsQuiescent(s: TubState, n: nat)
    requires s.status == IDLING
    ensures RunTicks(s, n) == s
    decreases n
  {
    if n > 0 {
      IdleIsQuiescent(Step(s, TimerFired), n - 1);
    }
  }

  /** How many firings a moving tub takes to come to rest on its own: a
      filling tub climbs to the ceiling and needs one more firing there to
      idle; a draining tub likewise at the floor. */
  function TicksUntilIdle(s: TubState): nat
    requires Valid(s)
  {
    match s.status
    case IDLING => 0
    case INCREASING => Ceiling - s.level + 1
    case DECRESING => s.level - Floor + 1
  }

  /** Where a tub left to the timer comes to rest. */
  function RestingLevel(s: TubState): int
  {
    match s.status
    case IDLING => s.level
    case INCREASING => Ceiling
    case DECRESING => Floor
  }

  /** Before it idles, each firing of a filling tub raises it by one and keeps it filling. */
  lemma {:induction false} FillingTicks(s: TubState, n: nat)
    requires Valid(s) && s.status == INCREASING && s.level + n <= Ceiling
    ensures RunTicks(s, n) == TubState(s.level + n, INCREASING)
    decreases n
  {
    if n > 0 {
      FillingTicks(Step(s, TimerFired), n - 1);
    }
  }

  lemma {:induction false} DrainingTicks(s: TubState, n: nat)
    requires Valid(s) && s.status == DECRESING && s.level - n >= Floor
    ensures RunTicks(s, n) == TubState(s.level - n, DECRESING)
    decreases n
  {
    if n > 0 {
      DrainingTicks(Step(s, TimerFired), n - 1);
    }
  }

  /** The timer alone drives a moving tub to its bound and then stops: after
      `TicksUntilIdle(s)` firings the tub idles at its resting level, and
      every earlier firing found the timer still scheduled. */
  lemma TimerDrivesToBound(s: TubState)
    requires Valid(s)
    ensures RunTicks(s, TicksUntilIdle(s)) == TubState(RestingLevel(s), IDLING)
    ensures forall n: nat :: n < TicksUntilIdle(s) ==> Tick(RunTicks(s, n)).Some?
  {
    match s.status
    case IDLING =>
    case INCREASING =>
      var k := Ceiling - s.level;
      forall n: nat | n < TicksUntilIdle(s)
        ensures Tick(RunTicks(s, n)).Some?
      {
        FillingTicks(s, n);
      }
      FillingTicks(s, k);
      RunTicksSplit(s, k, 1);
    case DECRESING =>
      var k := s.level - Floor;
      forall n: nat | n < TicksUntilIdle(s)
        ensures Tick(RunTicks(s, n)).Some?
      {
        DrainingTicks(s, n);
      }
      DrainingTicks(s, k);
      RunTicksSplit(s, k, 1);
  }

  lemma {:induction false} RunTicksSplit(s: TubState, m: nat, n: nat)
    ensures RunTicks(s, m + n) == RunTicks(RunTicks(s, m), n)
    decreases m
  {
    if m > 0 {
      RunTicksSplit(Step(s, TimerFired), m - 1, n);
    }
  }

  /** Holding increase from an empty tub: after the long press dispatches one
      increase, four firings fill the tub to the ceiling and the fifth idles
      it there, unscheduling the interval. */
  lemma HoldIncreaseFromEmpty()
    ensures RunTicks(Reduce(InitialState, IncreaseWaterLevel), 4) == TubState(Ceiling, INCREASING)
    ensures RunTicks(Reduce(InitialState, IncreaseWaterLevel), 5) == TubState(Ceiling, IDLING)
    ensures Tick(RunTicks(Reduce(InitialState, IncreaseWaterLevel), 5)) == None
  {
    var s := Reduce(InitialState, IncreaseWaterLevel);
    FillingTicks(s, 4);
    TimerDrivesToBound(s);
  }
}
