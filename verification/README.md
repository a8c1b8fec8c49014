# Bathtub water level — a Dafny model

The page is a simulated bathtub. Two buttons, each behind a long-press
detector, make the water rise or fall. While a button is held, a repeating
interval moves the level by one unit per firing. Every change of state goes
through one reducer, `waterReducer`. Its state is an integer `level` and a
status `IDLING`, `INCREASING` or `DECRESING` (spelled as the page spells it).

This project models that reducer, the mounted initial state, the rule that
schedules the interval and picks what each firing dispatches, and the
readout and block stack drawn for a state. It proves:

- the exact effect of each action;
- that the level stays in [0, 5] whatever is dispatched;
- that the reachable states are exactly those satisfying `Tub.Valid`. `Valid` means the level is in [0, 5], a filling tub is above 0, and a draining tub is below 5;
- that timer firings add no way of changing the state beyond dispatching actions;
- that the timer alone carries a moving tub to its bound and then unschedules itself;
- that the readout equals the height of the drawn stack.

Modules:

- `Tub` (`tub.dfy`): the state, the status, the actions and their string tags, the initial state, and the invariant `Valid`.
- `Reducer` (`reducer.dfy`): `Reduce` and its fold `Run` over a sequence of dispatched actions.
- `Reachability` (`reachability.dfy`): reachable states are exactly the valid ones.
- `Interval` (`interval.dfy`): the interval's delay, the tick action, and events interleaving user dispatches with timer firings.
- `Display` (`display.dfy`): the readout and the drawn blocks.

The long-press and interval hooks are not part of this model. Their only effect
on the state is the actions they dispatch, so user input is an arbitrary
sequence of actions. An interval firing is the abstract event `TimerFired`.

Reaching a bound does not itself idle the tub. The reducer checks
`level < 5` before it increments (src/pages/index.tsx:46-52), so the fifth
increase from an empty tub takes the level from 4 to 5 and leaves the status
`INCREASING`. Only a sixth increase idles the tub at the ceiling
(`Reachability.FillToCeiling`).

## Model

| member | source | states |
|---|---|---|
| Tub.ParseTag | src/pages/index.tsx:19-23 | A recognised tag is the tag of the action it is recognised as |
| Tub.ParseTagOfTag | src/pages/index.tsx:19-23 | Every action's tag parses back to that action |
| Tub.ParseTagComplete | src/pages/index.tsx:19-23 | A string is recognised exactly when it is one of the three tags, and then as that tag's action |
| Tub.TagInjective | src/pages/index.tsx:19-23 | Two actions have the same tag exactly when they are the same action |
| Tub.InitialStateValid | src/pages/index.tsx:17 | The mounted state is level 0, idling, and satisfies the reachable-state invariant |
| Reducer.Reduce | src/pages/index.tsx:41-74 | One step moves the level by at most one; the resulting status is IDLING, INCREASING or DECRESING exactly when the level stayed, rose by one or fell by one; increase never lowers and decrease never raises the level |
| Reducer.ReduceTagged | src/pages/index.tsx:41-74 | Switching on the tag: a string that is none of "INCREASE", "DECREASE", "STOP" (the default branch) leaves the state unchanged; each action's tag reduces that action |
| Reducer.ReduceTaggedOfTag | src/pages/index.tsx:41-74 | Dispatching an action through its tag is the same as reducing the action |
| Reducer.IncreaseBelowCeiling | src/pages/index.tsx:46-51 | Below 5, increase gives level + 1 and status INCREASING |
| Reducer.IncreaseAtCeiling | src/pages/index.tsx:52 | At or above 5, increase keeps the level and idles |
| Reducer.DecreaseAboveFloor | src/pages/index.tsx:55-60 | Above 0, decrease gives level - 1 and status DECRESING |
| Reducer.DecreaseAtFloor | src/pages/index.tsx:61-64 | At or below 0, decrease keeps the level and idles |
| Reducer.StopIdles | src/pages/index.tsx:65-69 | Stop idles from any status with the level unchanged; Stop twice equals Stop once |
| Reducer.IncreaseThenDecrease | src/pages/index.tsx:45-64 | Inside the bounds, a decrease after an increase restores the level |
| Reducer.DecreaseThenIncrease | src/pages/index.tsx:45-64 | Inside the bounds, an increase after a decrease restores the level |
| Reducer.ReduceIsClampedStep | src/pages/index.tsx:41-74 | For levels in [0, 5] the reducer agrees with a reference step: the level plus the action's intended change, clamped to [0, 5], with the status naming the direction moved |
| Reducer.ReducePreservesValid | src/pages/index.tsx:41-74 | Every action keeps the reachable-state invariant |
| Reducer.RunAppend | src/pages/index.tsx:77 | Actions are applied strictly in dispatch order: two batches in turn equal their concatenation |
| Reducer.RunPreservesValid | src/pages/index.tsx:41-74 | Any finite sequence of actions keeps the invariant |
| Reducer.LevelBounded | src/pages/index.tsx:17 | From the mounted state, any sequence of actions keeps 0 <= level <= 5 |
| Reducer.RunMovesAtMostLength | src/pages/index.tsx:41-74 | After n actions the level has moved by at most n |
| Reducer.EachStepMovesAtMostOne | src/pages/index.tsx:41-74 | Along any run, consecutive states differ in level by at most one |
| Reducer.StopInRunIdles | src/pages/index.tsx:65-69 | A Stop at the end of any run leaves an idle tub at the level reached |
| Reachability.RunIncreases | src/pages/index.tsx:46-51 | k increases with room for them fill by exactly k and leave the tub filling |
| Reachability.WitnessReaches | src/pages/index.tsx:17 | Every valid state is reached from the mounted state by an explicit action sequence |
| Reachability.ReachableIffValid | src/pages/index.tsx:41-74 | A state is reachable from the mounted state if and only if it is valid |
| Reachability.FillToCeiling | src/pages/index.tsx:46-52 | Five increases from empty reach level 5 still INCREASING; a sixth idles at 5 |
| Interval.Tick | src/pages/index.tsx:79-85 | A firing dispatches something exactly when the status is not IDLING; it is increase exactly when INCREASING (decrease otherwise), never Stop |
| Interval.DelayIffMoving | src/pages/index.tsx:84 | The interval is scheduled, with period 2000, exactly when the status is not IDLING, and null otherwise |
| Interval.Dispatched | src/pages/index.tsx:79-85 | The events dispatch no more actions than there are events |
| Interval.UserDispatchesPassThrough | src/pages/index.tsx:77-85 | Without timer firings, the user's dispatches reach the reducer unchanged, one for one and in order |
| Interval.EventsAreDispatches | src/pages/index.tsx:77-85 | Any interleaving of user input and timer firings equals running the actions they dispatch through the reducer |
| Interval.EventsKeepLevelBounded | src/pages/index.tsx:77-85 | Any interleaving of user input and timer firings from the mounted state keeps the invariant and 0 <= level <= 5 |
| Interval.IdleStopsTicks | src/pages/index.tsx:79-85 | Once an action idles the tub, the interval is unscheduled and further firings change nothing |
| Interval.IdleIsQuiescent | src/pages/index.tsx:84 | An idle tub is unchanged by any number of firings |
| Interval.FillingTicks | src/pages/index.tsx:79-85 | Firings on a filling tub raise it by one each, keeping it filling, up to the ceiling |
| Interval.DrainingTicks | src/pages/index.tsx:79-85 | Firings on a draining tub lower it by one each, keeping it draining, down to the floor |
| Interval.TimerDrivesToBound | src/pages/index.tsx:79-85 | From any valid state, the timer alone idles the tub at its bound after exactly TicksUntilIdle firings, with the timer scheduled at every earlier one |
| Interval.RunTicksSplit | src/pages/index.tsx:79-85 | m firings then n firings equal m + n firings |
| Interval.HoldIncreaseFromEmpty | src/pages/index.tsx:79-85 | A long press on increase from empty, then four firings, reaches 5 still filling; the fifth firing idles it and unschedules the interval |
| Display.Blocks | src/pages/index.tsx:130-132 | For a level in [0, 2^32 - 1] the page draws exactly `level` blocks keyed 0, 1, ... of height 20; otherwise building the array fails |
| Display.UniformStackHeight | src/pages/index.tsx:130-132 | A stack of blocks of equal height h is |stack| * h tall |
| Display.DisplayConsistent | src/pages/index.tsx:128-132 | In every valid state exactly `level` blocks are drawn, and the readout `level * 20` equals the stack's height, a multiple of 20 in [0, 100] |
| Display.ReadoutFollowsStatus | src/pages/index.tsx:128 | The readout rises by 20 on a filling step, falls by 20 on a draining step, and is unchanged on an idling step |

## Left out

- The long-press hook (`../hooks/useLongPress`) is not part of this model. Its only effect on the state is dispatching increase or decrease on a long press and Stop on release, so user input is modelled as an arbitrary sequence of actions.
- The interval hook (`../hooks/useInterval`) is not part of this model. Its timer handling is reduced to the event `TimerFired`, which dispatches the tick action while a timer is scheduled.
- Durations are not modelled. That covers the 2000 ms long-press delay and the 2000 ms period; `Interval.Period` is only the value the delay argument carries.
- React rendering and `useReducer` internals are not modelled: styles, layout and re-rendering. The reducer's serial application of dispatched actions is modelled as the fold `Reducer.Run`.
- Non-integer levels are not modelled. The level is a JavaScript number, but from the initial 0 the reducer only adds or subtracts 1, so only integers occur. JavaScript number overflow cannot arise within [0, 5].
- The reducer's `default` branch cannot be reached with the closed `Action` datatype. It is modelled only through `Reducer.ReduceTagged`, on raw string tags.
