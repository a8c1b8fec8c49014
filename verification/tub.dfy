/**
 The data model of the bathtub page: the tub's state (a water level and a
 three-valued status), its initial value, and the three actions the page
 dispatches, together with the string tags those actions carry.
 */
module Tub {

  /** The conventional Some/None datatype, used where the page passes `null`. */
  datatype Option<+T> = None | Some(value: T)

  /** The direction the water is moving in. The spelling of `DECRESING`
      follows the page's own enumeration. */
  datatype TubStatus = IDLING | INCREASING | DECRESING

  /** The level is a JavaScript number; only whole numbers are ever produced,
      so it is modelled as an unbounded integer. */
  datatype TubState = TubState(level: int, status: TubStatus)

  /** The lowest and the highest level the reducer lets the water reach. */
  const Floor: int := 0
  const Ceiling: int := 5

  /** The state the page mounts with: an empty tub that is not moving. */
  const InitialState: TubState := TubState(0, IDLING)

  /** The three actions the page dispatches. The page wraps each kind in a
      `{ type: kind }` object; the wrapper adds nothing, so an action is its kind. */
  datatype Action = IncreaseWaterLevel | DecreaseWaterLevel | StopPlayingWithWater

  /** The string value each action kind carries at run time. */
  function Tag(a: Action): string
  {
    match a
    case IncreaseWaterLevel => "INCREASE"
    case DecreaseWaterLevel => "DECREASE"
    case StopPlayingWithWater => "STOP"
  }

  /** Recognises one of the three tags; any other string is no action kind. */
  function ParseTag(t: string): (r: Option<Action>)
    ensures r.Some? ==> Tag(r.value) == t
  {
    if t == "INCREASE" then Some(IncreaseWaterLevel)
    else if t == "DECREASE" then Some(DecreaseWaterLevel)
    else if t == "STOP" then Some(StopPlayingWithWater)
    else None
  }

  /** Every action's tag is recognised as that action, so the three tags are distinct. */
  lemma ParseTagOfTag(a: Action)
    ensures ParseTag(Tag(a)) == Some(a)
  {
  }

  /** A string is recognised exactly when it is some action's tag, and then
      as that action. */
  lemma ParseTagComplete(t: string)
    ensures ParseTag(t).None? <==> forall a: Action :: Tag(a) != t
    ensures forall a: Action :: Tag(a) == t ==> ParseTag(t) == Some(a)
  {
    forall a: Action
      ensures Tag(a) == t ==> ParseTag(t) == Some(a)
    {
      ParseTagOfTag(a);
    }
    if ParseTag(t).Some? {
      assert Tag(ParseTag(t).value) == t;
    }
  }

  lemma TagInjective(a: Action, b: Action)
    ensures Tag(a) == Tag(b) <==> a == b
  {
    ParseTagOfTag(a);
    ParseTagOfTag(b);
  }

  /** The states reachable from `InitialState`: the level lies in
      [Floor, Ceiling], a tub that is filling has just risen (so it is above
      the floor), and a tub that is draining has just fallen (so it is below
      the ceiling). */
  predicate Valid(s: TubState)
  {
    && Floor <= s.level <= Ceiling
    && (s.status == INCREASING ==> s.level > Floor)
    && (s.status == DECRESING ==> s.level < Ceiling)
  }

  lemma InitialStateValid()
    ensures Valid(InitialState)
    ensures InitialState.level == Floor && InitialState.status == IDLING
  {
  }
}
