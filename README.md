# Flow store dispatch pipeline, in Dafny

Flow is a small unidirectional state container written in Swift. A `Store` owns the
application state and a reducer. Every action goes through a chain of middleware and
then reaches the core reduction step. That step refuses reentry, runs the reducer once,
and then runs the returned commands. A command's only capability is `sendAsync`, which
puts a later `send` on the main queue.

The model has three modules:

- `Seqs` (seqs.dfy): `reversed()` and `reduce` on sequences, which `buildSendFunction` uses.
- `Flow` (flow.dfy): the store itself.
  - A send function is a function value. It maps an action and a `Snapshot` of the store
    (state, `isSending` flag, actions waiting on the main queue) to an `Outcome`.
  - `InternalSend` is the guarded reduction step, and `Execute`/`ExecuteAll` run the commands.
  - `BuildSendFunction` is the fold that composes the middleware.
  - A middleware the store accepts is given as a `Handler`. For each action, a handler
    describes what the closure does: call `next`, call the `send` capability, or branch
    on what `getState` returns at that moment. `Intercept` turns a handler into the
    curried middleware closure.
  - The `Store` class holds `state`, `isSending`, the main `queue` and the composed
    `sendFunction`. Its methods write each outcome back.
- `FlowScenarios` (scenarios.dfy): concrete stores over an integer counter.

The central result is `StoreSendWellBehaved`. It says that a store's send function,
started outside a reduction, never fails the reentrancy check and leaves the flag
down. It also keeps every queued action in place and in order, adding new ones behind
them. So commands cannot cause a nested reduction, and `Store.Send` and `Store.RunNext`
promise `status != Reentered`.

## Model

| member | source | states |
|---|---|---|
| `Seqs.Reversed` | Sources/Flow/Flow.swift:60 | `reversed()` keeps the length and puts element `i` at position `n-1-i` |
| `Seqs.FoldLeft` | Sources/Flow/Flow.swift:60-66 | `reduce`: the seed combined with each element, first to last; its contract-level property is `Seqs.FoldLeftAppend` |
| `Seqs.FoldLeftAppend` | Sources/Flow/Flow.swift:60-66 | `reduce` over a concatenation continues from the first part's result |
| `Flow.ScheduleSend` | Sources/Flow/Flow.swift:39-43 | `sendAsync` puts the action at the back of the main queue and runs nothing; stated by `Flow.Execute` and `Flow.Store.SendAsync` |
| `Flow.Execute` | Sources/Flow/Flow.swift:55 | a command given `sendAsync` (Flow.swift:39-43) appends exactly its sends to the queue, in call order; state and flag unchanged |
| `Flow.ExecuteAll` | Sources/Flow/Flow.swift:54-56 | running the commands in list order appends all their actions, command by command, and changes nothing else |
| `Flow.CommandList` | Sources/Flow/Flow.swift:51 | a nil command list counts as empty; stated by `Flow.InternalSend` and `Flow.NilCommandsScheduleNothing` |
| `Flow.InternalSend` | Sources/Flow/Flow.swift:45-57 | with `isSending` set, the step fails with the snapshot unchanged; otherwise the state is the reducer's result (one reduction), the flag is down again, and the queue gains the commands' actions (nil is treated as empty) |
| `Flow.CoreSend` | Sources/Flow/Flow.swift:60-61 | the innermost link is `internalSend` as a send function; stated by `Flow.EmptyChainIsInternalSend` and `Flow.CoreSendWellBehaved` |
| `Flow.NilCommandsScheduleNothing` | Sources/Flow/Flow.swift:51 | a nil command list updates the state and schedules nothing |
| `Flow.Link` | Sources/Flow/Flow.swift:62-65 | one fold step applies the middleware, given `send` and `getState`, to the chain built so far; stated by `Flow.BuildSendFunctionNests` |
| `Flow.BuildSendFunction` | Sources/Flow/Flow.swift:59-67 | the reversed fold over the middleware with `internalSend` as seed; its nested form is `Flow.BuildSendFunctionNests` |
| `Flow.BuildSendFunctionNests` | Sources/Flow/Flow.swift:59-67 | the reversed fold gives exactly `mw[0](mw[1](... mw[n](internalSend)))` |
| `Flow.EmptyChainIsInternalSend` | Sources/Flow/Flow.swift:59-61 | with no middleware the fold returns its seed, the innermost link |
| `Flow.NestSplit` | Sources/Flow/Flow.swift:59-66 | the middleware before any position wrap the chain built from the rest, so earlier middleware sees every action first |
| `Flow.Interceptors` | Sources/Flow/Flow.swift:28 | the middleware list has one closure per handler, in the given order |
| `Flow.Perform` | Sources/Flow/Flow.swift:62-65 | what a middleware closure does with an action: call `next`, call `send`, read `getState`; stated by `Flow.NoForwardIgnoresNext` and `Flow.PerformSettles` |
| `Flow.Intercept` | Sources/Flow/Flow.swift:65 | a handler as the curried `(send, getState) -> next -> send function` closure; stated by `Flow.ShortCircuit` and `Flow.PassThroughChain` |
| `Flow.NoForwardIgnoresNext` | Sources/Flow/Flow.swift:65 | a middleware that never calls `next` gives the same result whatever `next` is |
| `Flow.ShortCircuit` | Sources/Flow/Flow.swift:59-66 | if the first middleware does not forward an action, the chain's result does not depend on the links inside it; later middleware and the reducer never see that action as `next` (they can still be reached through `send`) |
| `Flow.PassThroughChain` | Sources/Flow/Flow.swift:59-66 | a chain of middleware that only forward answers exactly as its innermost link |
| `Flow.GetState` | Sources/Flow/Flow.swift:64 | `getState` returns the store's current state; stated by `FlowScenarios.StateReadAtCallTime` |
| `Flow.StoreSendFunction` | Sources/Flow/Flow.swift:59-65 | the store's `sendFunction`, whose `send` capability is that same function; stated by `Flow.CapabilityIsStoreSend` and `Flow.StoreSendWellBehaved` |
| `Flow.CapabilityIsStoreSend` | Sources/Flow/Flow.swift:59-65 | every middleware's `send` capability is the store's whole send function, not the partial chain inside that middleware |
| `Flow.NoMiddlewareSend` | Sources/Flow/Flow.swift:31-37 | a store without middleware sends straight to `internalSend` |
| `Flow.DroppedActionChangesNothing` | Sources/Flow/Flow.swift:59-66 | an action the first middleware drops leaves state, flag and queue unchanged, and the reducer does not run |
| `Flow.CoreSendWellBehaved` | Sources/Flow/Flow.swift:45-57 | the innermost link, started outside a reduction, settles: no reentry, flag down, queue only extended |
| `Flow.PerformSettles` | Sources/Flow/Flow.swift:63-65 | a middleware whose `send` and `next` settle settles too, whatever it does with them and with `getState` |
| `Flow.ChainWellBehaved` | Sources/Flow/Flow.swift:59-67 | a chain of such middleware around a settling link settles |
| `Flow.StoreSendWellBehaved` | Sources/Flow/Flow.swift:45-67 | the store's send function never reenters the reducer, always lowers the flag, and keeps the queued actions in order ahead of new ones |
| `Flow.PerformMono` | Sources/Flow/Flow.swift:63-65 | a middleware whose `send` and `next` answer as other ones wherever they do not run out answers as it would with those others, unless it runs out itself |
| `Flow.NestMono` | Sources/Flow/Flow.swift:59-66 | a chain whose shared `send` capability refines another answers as the chain with the other capability wherever it does not run out |
| `Flow.StoreSendMono` | Sources/Flow/Flow.swift:59-65 | unfolding the late-bound `send` one level more changes no outcome that did not already end `Exhausted` |
| `Flow.StoreSendDepthIndependent` | Sources/Flow/Flow.swift:59-65 | an outcome that does not end `Exhausted` at one depth is the outcome at every greater depth, so the store's results do not depend on the bound |
| `Flow.Store.constructor` | Sources/Flow/Flow.swift:28-33 | the store starts from the initial state and sends the initial action through the built chain; with no middleware, the state is the reducer's result, the flag is down, and the queue holds exactly the initial commands' actions |
| `Flow.Store.Send` | Sources/Flow/Flow.swift:35-37 | the new store is what the composed chain returns; never a reentry; the queue is only extended; with no middleware, exactly one reduction |
| `Flow.Store.SendAsync` | Sources/Flow/Flow.swift:39-43 | the action joins the back of the main queue; nothing else changes and nothing runs |
| `Flow.Store.RunNext` | Sources/Flow/Flow.swift:39-43 | one turn of the main queue sends the oldest action through the whole chain and keeps the rest queued ahead of anything new; an empty queue changes nothing |
| `FlowScenarios.GuardChain` | Sources/Flow/Flow.swift:59-66 | a guard middleware drops `Blocked` without any change and hands every other action to `internalSend` |
| `FlowScenarios.CounterScenario` | Sources/Flow/Flow.swift:28-37 | three sends of `Increment` after construction give the counter 3 |
| `FlowScenarios.ShortCircuitScenario` | Sources/Flow/Flow.swift:59-66 | a dropped `Blocked` leaves the counter unchanged, and `Increment` still reaches the reducer |
| `FlowScenarios.CommandRoundTripScenario` | Sources/Flow/Flow.swift:39-56 | `Start` queues `Finished` without reducing it; one turn of the queue reduces `Finished` exactly once |
| `FlowScenarios.CapabilityEntersAtOutermost` | Sources/Flow/Flow.swift:63 | an action sent through the capability of the second middleware enters at the first one; the partial chain would have counted it instead |
| `FlowScenarios.StateReadAtCallTime` | Sources/Flow/Flow.swift:64 | `getState` called after `next` returns sees the state the reducer just produced |

## Left out

- Observation with Combine, `ObservableObject` and `@Published` (Flow.swift:2, 20-21): `state` is a plain field.
- `DispatchQueue.main` and threads (Flow.swift:40): the main queue is the `queue` field. `RunNext` takes one turn of it. No executor runs turns by itself.
- Atomicity of `isSending` (the TODO at Flow.swift:49): the model is single-threaded.
- `weak` and `unowned` captures (Flow.swift:60, 63-64): the store is assumed alive. `getState` always returns `Some`, and the "store gone, send does nothing" case is not modelled.
- `fatalError` (Flow.swift:47): it is the `Reentered` status, not a process halt. The reducer is a pure function, so a synchronous send from inside the reducer cannot be written in the model.
  - The guard is proved on `InternalSend` for every snapshot.
  - In the store the check never fails, so the halt never happens (`StoreSendWellBehaved`).
- Commands are abstracted to the actions they hand `sendAsync` while executing. Other effects are left out, and so is keeping the capability to call it later.
- `Flow.Interceptors`: a middleware is given by what it does with each action (a `Handler`). Four things follow:
  - no state of its own across calls;
  - no work when the chain is built;
  - the actions it forwards or sends are chosen from the action it received, with the state it reads used only to choose a branch;
  - it runs to completion inside the dispatch that called it. A Swift middleware can keep `next` or `send` and call them later, for example from a `DispatchQueue.main.async` block; a `next` called then enters only the part of the chain inside it and skips the outer middleware. A handler cannot hold on to either.
- `Flow.StoreSendFunction`: the store's own send function, which the capability calls, is unfolded `depth` times.
  - A synchronous send through the capability nested deeper ends with status `Exhausted`.
  - Swift would recurse further, or overflow its stack.
  - `depth` is a constructor parameter of the model only.
  - The bound changes no result that does not run out: `StoreSendMono` and `StoreSendDepthIndependent` prove that an outcome other than `Exhausted` at one depth is the outcome at every greater depth.
- `Flow.Store.Send`: returns the outcome's status. The Swift method returns nothing.
- Determinism of replaying actions: every send function is a Dafny function, so the same inputs always give the same outcome. No separate lemma states it.
- `Flow.ExecuteAll`: the loop over commands (Flow.swift:54-56) is a recursion, not a `while` loop. It runs inside `internalSend`, the innermost link of a composed function value, and a function value cannot call a method.
