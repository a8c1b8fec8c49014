/**
 The page's reducer: the one transition function through which every change
 of the tub's state flows, its fold over a sequence of dispatched actions,
 and the properties it keeps.
 */
module Reducer {
  import opened Tub

  /** One reducer step. Increase fills by one below the ceiling and decrease
      drains by one above the floor; at the bound either leaves the level
      alone and idles. Stop idles. */
  function Reduce(s: TubState, a: Action): (r: TubState)
    // a step moves the level by at most one
    ensures s.level - 1 <= r.level <= s.level + 1
    // the resulting status records the direction of the step just taken
    ensures r.status == IDLING <==> r.level == s.level
    ensures r.status == INCREASING <==> r.level == s.level + 1
    ensures r.status == DECRESING <==> r.level == s.level - 1
    // increase never lowers the level, decrease never raises it
    ensures a == IncreaseWaterLevel ==> r.level >= s.level
    ensures a == DecreaseWaterLevel ==> r.level <= s.level
  {
    match a
    case IncreaseWaterLevel =>
      if s.level < Ceiling then s.(status := INCREASING, level := s.level + 1)
      else s.(status := IDLING)
    case DecreaseWaterLevel =>
      if s.level > Floor then s.(status := DECRESING, level := s.level - 1)
      else s.(status := IDLING)
    case StopPlayingWithWater =>
      s.(status := IDLING)
  }

  /** The reducer as the page writes it, switching on the action's string tag:
      a tag that is none of the three falls to the default branch and leaves
      the state unchanged. */
  function ReduceTagged(s: TubState, t: string): (r: TubState)
    // a string that is no action's tag leaves the state unchanged
    ensures (forall a: Action :: Tag(a) != t) ==> r == s
    // an action's tag reduces that action
    ensures forall a: Action :: Tag(a) == t ==> r == Reduce(s, a)
  {
    ParseTagComplete(t);
    match ParseTag(t)
    case None => s
    case Some(a) => Reduce(s, a)
  }

  /** Dispatching an action through its tag is the same as reducing the action. */
  lemma ReduceTaggedOfTag(s: TubState, a: Action)
    ensures ReduceTagged(s, Tag(a)) == Reduce(s, a)
  {
    ParseTagOfTag(a);
  }

  lemma IncreaseBelowCeiling(s: TubState)
    requires s.level < Ceiling
    ensures Reduce(s, IncreaseWaterLevel) == TubState(s.level + 1, INCREASING)
  {
  }

  lemma IncreaseAtCeiling(s: TubState)
    requires s.level >= Ceiling
    ensures Reduce(s, IncreaseWaterLevel) == TubState(s.level, IDLING)
  {
  }

  lemma DecreaseAboveFloor(s: TubState)
    requires s.level > Floor
    ensures Reduce(s, DecreaseWaterLevel) == TubState(s.level - 1, DECRESING)
  {
  }

  lemma DecreaseAtFloor(s: TubState)
    requires s.level <= Floor
    ensures Reduce(s, DecreaseWaterLevel) == TubState(s.level, IDLING)
  {
  }

  /** Stop idles from any status without touching the level, and a second
      Stop changes nothing more. */
  lemma StopIdles(s: TubState)
    ensures Reduce(s, StopPlayingWithWater) == TubState(s.level, IDLING)
    ensures Reduce(Reduce(s, StopPlayingWithWater), StopPlayingWithWater)
         == Reduce(s, StopPlayingWithWater)
  {
  }

  /** Inside the bounds, a decrease undoes an increase and an increase undoes
      a decrease, as far as the level goes. */
  lemma IncreaseThenDecrease(s: TubState)
    requires Floor <= s.level < Ceiling
    ensures Reduce(Reduce(s, IncreaseWaterLevel), DecreaseWaterLevel) == TubState(s.level, DECRESING)
  {
  }

  lemma DecreaseThenIncrease(s: TubState)
    requires Floor < s.level <= Ceiling
    ensures Reduce(Reduce(s, DecreaseWaterLevel), IncreaseWaterLevel) == TubState(s.level, INCREASING)
  {
  }

  /** A reference definition of one step inside the bounds: the new level is
      the old one moved by the action's intended change and clamped to
      [Floor, Ceiling], and the status names the direction actually moved. */
  function Delta(a: Action): int
  {
    match a
    case IncreaseWaterLevel => 1
    case DecreaseWaterLevel => -1
    case StopPlayingWithWater => 0
  }

  function Clamp(x: int): int
  {
    if x < Floor then Floor else if x > Ceiling then Ceiling else x
  }

  function Direction(moved: int): TubStatus
  {
    if moved > 0 then INCREASING else if moved < 0 then DECRESING else IDLING
  }

  function ClampedStep(s: TubState, a: Action): TubState
  {
    var l := Clamp(s.level + Delta(a));
    TubState(l, Direction(l - s.level))
  }

  lemma ReduceIsClampedStep(s: TubState, a: Action)
    requires Floor <= s.level <= Ceiling
    ensures Reduce(s, a) == ClampedStep(s, a)
  {
  }

  /** The reducer keeps the reachable-state invariant. */
  lemma ReducePreservesValid(s: TubState, a: Action)
    requires Valid(s)
    ensures Valid(Reduce(s, a))
  {
  }

  /** The state after dispatching `acts` in order, as `useReducer` applies them. */
  function Run(s: TubState, acts: seq<Action>): TubState
    decreases |acts|
  {
    if |acts| == 0 then s else Run(Reduce(s, acts[0]), acts[1..])
  }

  /** Dispatching two batches one after the other is dispatching their concatenation. */
  lemma {:induction false} RunAppend(s: TubState, xs: seq<Action>, ys: seq<Action>)
    ensures Run(s, xs + ys) == Run(Run(s, xs), ys)
    decreases |xs|
  {
    if |xs| == 0 {
      assert xs + ys == ys;
    } else {
      assert (xs + ys)[1..] == xs[1..] + ys;
      RunAppend(Reduce(s, xs[0]), xs[1..], ys);
    }
  }

  /** Any sequence of dispatched actions keeps the invariant. */
  lemma {:induction false} RunPreservesValid(s: TubState, acts: seq<Action>)
    requires Valid(s)
    ensures Valid(Run(s, acts))
    decreases |acts|
  {
    if |acts| > 0 {
      ReducePreservesValid(s, acts[0]);
      RunPreservesValid(Reduce(s, acts[0]), acts[1..]);
    }
  }

  /** Whatever the user and the timer dispatch, starting from the mounted
      state the level stays within [0, 5]. */
  lemma LevelBounded(acts: seq<Action>)
    ensures Floor <= Run(InitialState, acts).level <= Ceiling
  {
    InitialStateValid();
    RunPreservesValid(InitialState, acts);
  }

  /** After `n` actions the level has moved by at most `n`. */
  lemma {:induction false} RunMovesAtMostLength(s: TubState, acts: seq<Action>)
    ensures s.level - |acts| <= Run(s, acts).level <= s.level + |acts|
    decreases |acts|
  {
    if |acts| > 0 {
      RunMovesAtMostLength(Reduce(s, acts[0]), acts[1..]);
    }
  }

  /** Along any run, each dispatched action moves the level by at most one:
      the states after `i` and after `i + 1` actions differ by at most one. */
  lemma EachStepMovesAtMostOne(s: TubState, acts: seq<Action>, i: nat)
    requires i < |acts|
    ensures Run(s, acts[..i]).level - 1 <= Run(s, acts[..i + 1]).level <= Run(s, acts[..i]).level + 1
  {
    assert acts[..i + 1] == acts[..i] + [acts[i]];
    RunAppend(s, acts[..i], [acts[i]]);
  }

  /** A Stop anywhere in a run leaves an idle tub at the level it had reached. */
  lemma StopInRunIdles(s: TubState, xs: seq<Action>)
    ensures Run(s, xs + [StopPlayingWithWater]) == TubState(Run(s, xs).level, IDLING)
  {
    RunAppend(s, xs, [StopPlayingWithWater]);
  }
}
