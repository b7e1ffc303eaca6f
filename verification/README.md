# Sample context: a verified model of its state machine

The sample context is a small React state container. It has a four-field
state record (`count`, `text`, `color`, `isGood`) and a closed set of four
actions (`SET_COUNT`, `SET_TEXT`, `SET_COLOR`, `TOGGLE_GOOD`). A pure
`reducer` maps a state and an action to the next state. A provider seeds the
state with `{count: 1, text: "hi", color: yellow, isGood: false}` and
publishes two things through two context channels: the current state and a
dispatch handle. Two accessor hooks read those channels and throw
"Cannot find SampleProvider" when no provider encloses the caller.

The model consists of four Dafny modules:

- `Wrappers` (`wrappers.dfy`) has `Option`, `Result` and the thrown `Error`
  (its message).
- `SampleState` (`sample_state.dfy`) has `Color`, `State` and `Action`, the
  seed `Init`, and `Reducer`. It proves the reducer's per-field frame, the
  toggle's involution, last-write-wins for setters, and that actions on
  different fields commute.
- `SampleRun` (`sample_run.dfy`) treats dispatch as a fold. `Replay` applies
  the reducer to each action in order, and `Run` replays from the seed. This
  module proves what every field holds after any sequence of dispatches. A
  setter field holds the payload of its last setter, or the seed value if it
  was never set. `isGood` records whether the number of toggles was odd.
- `SampleProvider` (`sample_provider.dfy`) models the provider as a value
  holding its current state. It publishes a `Scope`: the state channel and the
  dispatch channel, each `None` for the `null` default. The module defines the
  two accessors over those `Option`s, plus an imperative dispatch loop that
  agrees with the fold.

The reducer's `default: throw new Error('Unhandled action')` branch has no
counterpart. `Action` is a closed datatype, and the match in `Reducer` is
exhaustive. So every action is handled, and the throwing branch cannot be
reached by any well-typed action. The reducer is total: its result type is
`State`, not a `Result`.

## Model

| member | source | states |
|---|---|---|
| SampleState.Reducer | src/SampleContext.tsx:29-42 | `count`, `text` and `color` each take the action's payload when the action addresses that field and otherwise keep their old value; `isGood` is negated by `TOGGLE_GOOD` and otherwise kept; defined for every action, so the unhandled-action branch is never taken |
| SampleState.ReducerFrame | src/SampleContext.tsx:29-41 | every field the action does not address agrees between input and output; a setter's field holds its payload; the toggle always changes `isGood` |
| SampleState.ReducerFixpoint | src/SampleContext.tsx:31-38 | a transition returns an equal state exactly when it is a setter whose payload is already the current value; `TOGGLE_GOOD` never does |
| SampleState.ToggleGoodInvolution | src/SampleContext.tsx:37-38 | toggling twice restores the original state, and a single toggle always changes it |
| SampleState.SetterOverrides | src/SampleContext.tsx:31-36 | two setters of the same field in a row have the effect of the second alone |
| SampleState.IndependentActionsCommute | src/SampleContext.tsx:31-38 | two actions addressing different fields may be applied in either order with the same result |
| SampleRun.ReplaySnoc | src/SampleContext.tsx:49-54 | dispatching one more action to a provider applies the reducer to the state reached so far |
| SampleRun.ReplayConcat | src/SampleContext.tsx:49-54 | dispatching one batch of actions and then another is the same as dispatching their concatenation |
| SampleRun.ReplayLastWrite | src/SampleContext.tsx:31-36 | after any sequence, a field no action addressed keeps its starting value, and a field holds the payload of the last setter that addressed it |
| SampleRun.ReplayToggleParity | src/SampleContext.tsx:37-38 | after any sequence, `isGood` differs from its start exactly when the number of `TOGGLE_GOOD` actions is odd |
| SampleRun.RunCount | src/SampleContext.tsx:31-54 | from the seed, `count` is the payload of the last `SET_COUNT`, or 1 when there was none |
| SampleRun.RunText | src/SampleContext.tsx:33-54 | from the seed, `text` is the payload of the last `SET_TEXT`, or "hi" when there was none |
| SampleRun.RunColor | src/SampleContext.tsx:35-54 | from the seed, `color` is the payload of the last `SET_COLOR`, or yellow when there was none |
| SampleRun.RunGood | src/SampleContext.tsx:37-54 | from the seed, `isGood` is true exactly when an odd number of toggles was dispatched |
| SampleRun.RunScenario | src/SampleContext.tsx:49-54 | the seed is `{1, "hi", yellow, false}`; `SET_COLOR(orange)` gives `{1, "hi", orange, false}` and a following `TOGGLE_GOOD` gives `{1, "hi", orange, true}` |
| SampleProvider.Mount | src/SampleContext.tsx:48-54 | a freshly mounted provider holds count 1, text "hi", colour yellow and `isGood` false |
| SampleProvider.Dispatch | src/SampleContext.tsx:49-58 | sending an action through the published handle leaves the provider in the state that replaying that one action gives |
| SampleProvider.UseSampleState | src/SampleContext.tsx:66-71 | succeeds exactly when a provider published a state, returning that state unchanged; otherwise fails with "Cannot find SampleProvider" |
| SampleProvider.UseSampleDispatch | src/SampleContext.tsx:73-78 | succeeds exactly when a provider published a dispatch handle, returning it unchanged; otherwise fails with "Cannot find SampleProvider" |
| SampleProvider.AccessorsInsideProvider | src/SampleContext.tsx:56-71 | inside a provider, the state accessor returns the provider's current state and the dispatch accessor succeeds |
| SampleProvider.AccessorsOutsideProvider | src/SampleContext.tsx:25-26 | with the `null` channel defaults, both accessors fail with "Cannot find SampleProvider" and never return a default value |
| SampleProvider.DispatchEach | src/SampleContext.tsx:49-60 | dispatching actions one at a time through the handle read from the published scope yields the state of the fold over those actions |
| SampleProvider.Session | src/SampleContext.tsx:48-71 | mounting, dispatching a sequence, then reading the state accessor yields exactly the fold of the reducer over that sequence from the seed |

## Left out

- React machinery (`createContext`, `useContext`, `useReducer` scheduling, the JSX tree, re-rendering): framework glue. It appears here only as "seed, then fold" and as an `Option` read by the accessors.
- Nested providers and the nearest-enclosing lookup: a consumer's scope is given as the two `Option`s it would read.
- Independence of separate provider instances: this follows from React's component lifecycle, not from this code.
- JavaScript truthiness in `if(!state)` / `if(!dispatch)`: a published state object or dispatch function is always truthy, so absence is exactly `None`.
- The floating-point `number` behind `count`: the reducer only copies it, so it is an unbounded `int`.
- The `Unhandled action` error for an action tag outside the closed set: such an action cannot be written as an `Action` value, so the throwing branch and its "no state change" outcome have no model.
- Dispatch handle identity: the handle is a single token that always feeds the reducer. Its reference identity across renders is not modelled.
- Determinism and non-mutation of the input state: Dafny functions over immutable datatypes have both properties by construction, so no separate statement is made.
