/**
 The reachable states of the tub, characterised exactly: a state can be
 produced from the mounted state by some sequence of dispatched actions if
 and only if it satisfies `Valid`.
 */
module Reachability {
  import opened Tub
  import opened Reducer

  ghost predicate Reachable(s: TubState)
  {
    exists acts :: Run(InitialState, acts) == s
  }

  /** `n` copies of one action. */
  function Repeat(a: Action, n: nat): (r: seq<Action>)
    ensures |r| == n
    ensures forall i :: 0 <= i < n ==> r[i] == a
  {
    if n == 0 then [] else [a] + Repeat(a, n - 1)
  }

  /** Holding increase for `k` steps from a level with room for them fills
      the tub by exactly `k` and leaves it filling. */
  lemma {:induction false} RunIncreases(s: TubState, k: nat)
    requires k >= 1 && Floor <= s.level && s.level + k <= Ceiling
    ensures Run(s, Repeat(IncreaseWaterLevel, k)) == TubState(s.level + k, INCREASING)
    decreases k
  {
    var s' := Reduce(s, IncreaseWaterLevel);
    assert Repeat(IncreaseWaterLevel, k)[1..] == Repeat(IncreaseWaterLevel, k - 1);
    if k > 1 {
      RunIncreases(s', k - 1);
    }
  }

  /** An action sequence that leads from the mounted state to `s`: fill to
      the target (one higher when the target is draining), then stop or
      take one step down. */
  function Witness(s: TubState): (acts: seq<Action>)
    requires Valid(s)
  {
    match s.status
    case IDLING => Repeat(IncreaseWaterLevel, s.level) + [StopPlayingWithWater]
    case INCREASING => Repeat(IncreaseWaterLevel, s.level)
    case DECRESING => Repeat(IncreaseWaterLevel, s.level + 1) + [DecreaseWaterLevel]
  }

  lemma WitnessReaches(s: TubState)
    requires Valid(s)
    ensures Run(InitialState, Witness(s)) == s
  {
    match s.status
    case IDLING =>
      var fill := Repeat(IncreaseWaterLevel, s.level);
      RunAppend(InitialState, fill, [StopPlayingWithWater]);
      if s.level > 0 {
        RunIncreases(InitialState, s.level);
      }
    case INCREASING =>
      RunIncreases(InitialState, s.level);
    case DECRESING =>
      var fill := Repeat(IncreaseWaterLevel, s.level + 1);
      RunAppend(InitialState, fill, [DecreaseWaterLevel]);
      RunIncreases(InitialState, s.level + 1);
  }

  /** Both directions: every reachable state is valid, and every valid state
      is reached by some sequence of actions. */
  lemma ReachableIffValid(s: TubState)
    ensures Reachable(s) <==> Valid(s)
  {
    if Reachable(s) {
      var acts :| Run(InitialState, acts) == s;
      InitialStateValid();
      RunPreservesValid(InitialState, acts);
    }
    if Valid(s) {
      WitnessReaches(s);
    }
  }

  /** Scenario of five increases from the mounted state: the fifth lands on
      the ceiling still filling, and a sixth idles the tub there. */
  lemma FillToCeiling()
    ensures Run(InitialState, Repeat(IncreaseWaterLevel, 5)) == TubState(Ceiling, INCREASING)
    ensures Run(InitialState, Repeat(IncreaseWaterLevel, 6)) == TubState(Ceiling, IDLING)
  {
    RunIncreases(InitialState, 5);
    assert Repeat(IncreaseWaterLevel, 6) == Repeat(IncreaseWaterLevel, 5) + [IncreaseWaterLevel];
    RunAppend(InitialState, Repeat(IncreaseWaterLevel, 5), [IncreaseWaterLevel]);
  }
}
