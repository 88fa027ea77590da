# Timers context: the timer store reducer

This project models the state container of the timer app's context. The store
holds a flag `isRunning` and an ordered list of timers, each a `name` and a
`duration`. Three actions change the store through the pure reducer
`timersReducer`:

- `ADD_TIMER` appends a copy of its payload to the list.
- `START_TIMERS` sets the flag.
- `STOP_TIMERS` clears it.

Any other action leaves the state as it is. The store starts running and with
no timers. The provider applies the actions it is sent one after another.

In Dafny (module `TimersContext`, file `timers_context.dfy`):

- `Timer`, `State` and `Action` are datatypes.
- `Reduce` is the reducer and `Initial` the initial state.
- `Run` folds `Reduce` over a sequence of actions. This is what the provider's
  `useReducer` does with the actions dispatched to it.

The multi-step properties are stated about `Run`. Two reference definitions
give them something to be compared with:

- `Payloads` lists the `ADD_TIMER` payloads in dispatch order.
- The last toggle is picked out by its index in the action sequence.

`Action` has a fourth constructor, `Unrecognised`. It stands for an action
object whose `type` is none of the three tags, and it is what the reducer's
`default` arm handles. The TypeScript union type rules such objects out at
compile time, and the provider never dispatches one.

## Model

| member | source | states |
|---|---|---|
| `TimersContext.Initial` | src/context/timers-context.tsx:13-16 | the initial state is running and holds no timers |
| `TimersContext.Reduce` | src/context/timers-context.tsx:54-80 | the old list is always a prefix of the new one. `ADD_TIMER` grows the list by exactly one, with the payload at the end. Every other action leaves the list equal. `START_TIMERS` makes the flag true and `STOP_TIMERS` makes it false. Every non-toggle action keeps the flag. An unrecognised action returns the state unchanged |
| `TimersContext.StartIdempotent` | src/context/timers-context.tsx:67-71 | applying `START_TIMERS` twice gives the same state as applying it once |
| `TimersContext.StopIdempotent` | src/context/timers-context.tsx:72-76 | applying `STOP_TIMERS` twice gives the same state as applying it once |
| `TimersContext.ToggleCommutesWithAdd` | src/context/timers-context.tsx:56-76 | a start or stop and an addition give the same state in either order, so the flag and the list are independent |
| `TimersContext.Run` | src/context/timers-context.tsx:54-80 | applying any sequence of actions never removes or moves an entry: the starting list is a prefix of the result |
| `TimersContext.Payloads` | src/context/timers-context.tsx:56-66 | the reference list of added timers. A timer is in it exactly when an `ADD_TIMER` with that payload occurs in the actions |
| `TimersContext.RunAppend` | src/context/timers-context.tsx:54-80 | applying two batches of actions one after the other is the same as applying their concatenation |
| `TimersContext.RunTimers` | src/context/timers-context.tsx:54-80 | after any actions, the list is the old list followed by the `ADD_TIMER` payloads in dispatch order |
| `TimersContext.RunFromInitialTimers` | src/context/timers-context.tsx:13-16 | from the initial state, the list is exactly the `ADD_TIMER` payloads in dispatch order |
| `TimersContext.RunHistoryNeverShrinks` | src/context/timers-context.tsx:54-80 | the list after any prefix of a history is an initial segment of the list after the whole history |
| `TimersContext.RunKeepsFlagWithoutToggle` | src/context/timers-context.tsx:54-80 | actions that include no start or stop leave the flag as it was |
| `TimersContext.RunFlagIsLastToggle` | src/context/timers-context.tsx:67-76 | last write wins: after any actions, the flag is true exactly when the last start or stop among them is a start |
| `TimersContext.RunFromInitialWithoutToggle` | src/context/timers-context.tsx:13-16 | from the initial state, the timers are running after any actions that include no start or stop |
| `TimersContext.StudyScenario` | src/context/timers-context.tsx:54-66 | adding "Study" with duration 600 to a fresh store gives a running store holding just that timer |
| `TimersContext.BreakScenario` | src/context/timers-context.tsx:54-76 | stop, then add "Break" with duration 300, then start gives a running store holding just that timer |

## Left out

- The provider component and its `useReducer` wiring (src/context/timers-context.tsx:82-101) are React plumbing. The framework holds that state. The model takes `Run` as what the hook does with the sequence of dispatched actions.
- The `addTimer`, `startTimers` and `stopTimers` closures on the context value (src/context/timers-context.tsx:87-99) each dispatch one action. They are the three non-`Unrecognised` constructors of `Action`.
- The context object and `useTimersContext` (src/context/timers-context.tsx:24-33) throw when no provider encloses the caller. That is dependency injection of the framework; there is no store state involved.
- JSX, `ReactNode` and the props type (src/context/timers-context.tsx:35-37) are UI types.
- `duration` is a JavaScript floating-point number. The reducer only copies it, so it is modelled as an `int`, and NaN and infinities are not represented.
- Object identity is not modelled. The reducer builds a fresh state and a fresh copy of the payload on every step. As values, the copy equals the payload.
- The non-null assertion `action.payload!` is not modelled. The type of `ADD_TIMER` actions always carries a payload.
