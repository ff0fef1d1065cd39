# MyPromise in Dafny

This project models the `MyPromise` class of `MyPromise.js`. That class is a hand-written promise library:

- a per-promise state machine (`state`, a write-once `value`, and the two handler lists `thenHandlers` and `catchHandlers`);
- settlement, which `_resolve`/`_reject` post through `#updateState` as a microtask;
- `then`/`catch`/`finally` chaining;
- the constructor's executor, and the static `resolve`/`reject`;
- the combinators `all`, `allSettled`, `race` and `any`.

The model has three layers:

- **Data** (`promise_data.dfy`, `tally.dfy`). The values that flow through promises are `Val`. A MyPromise instance is a `PromiseRef`, and a JS array is an index map. The record of one instance is `PromiseRec`. The locals that a combinator's callbacks share are `Agg`: the `results`/`errors` array and the counter. Callables are data (`Callback`):
  - a caller's side-effect-free function `Val -> Outcome`, which returns or throws;
  - another promise's `_resolve` or `_reject`;
  - the two `finally` wrappers;
  - the closures of the combinators.

  The microtask queue is an explicit FIFO of `Task(id, value, state)`, exactly what `#updateState` posts.
- **Specification functions** (`promise_core.dfy`, `combinators.dfy`). These are functions over a `World`, which holds all instances, all combinator locals and the queue. `Step` runs the task at the head of the queue.
- **Runtime** (`runtime.dfy`). The class `Runtime` holds the same three collections as fields and updates them in place. Each method is proved to take `State()` exactly where the specification function its `ensures` names takes it. For most methods that function has the method's own name. `UpdateState`, `Resolve` and `Reject` are proved against `Enqueue`. `Allocate` is proved against `Combinators.Prepared`. `All`, `AllSettled`, `Race` and `Any` are proved against `Combinators.Combine`. `#runHandlers` and the combinators' `forEach` are loops with invariants.

The laws are proved about the functions in four modules:

- `SettlementLaws` covers first settlement wins, the uncaught-rejection condition, handler order, `then` on pending and settled parents, and adoption.
- `ChainingLaws` runs short programs to their outcome.
- `CombinatorLaws` covers what each combinator registers, how an input's outcome reaches the combined promise in `race`, `any` and `all`, and when a counter posts the final settlement.
- `PendingForever` proves that `all([])`, `allSettled([])`, `race([])` and `any([])` never settle.

Behaviour of the code that the model keeps on purpose:

- `then(f)` with no reject callback still pushes a catch handler (`MyPromise.js:95`). Any `then` therefore suppresses the uncaught-rejection error on its parent, and the rejection moves to the child (`ChainingLaws.ThenWithoutCatchPassesRejectionOn`).
- The uncaught-rejection error is raised before `state` and `value` are assigned, so the promise stays pending. A later `resolve` in the same executor then takes effect (`ChainingLaws.UncaughtRejectionLetsLaterResolveWin`). "First settlement wins" holds for every task that actually settles (`SettlementLaws.FirstSettlementWins`).
- `then` on an already settled parent calls the new handler synchronously, inside `then` (`MyPromise.js:115`). Only the child's settlement is deferred. A general description of a promise library would defer the callback itself; the model follows the code (`SettlementLaws.ThenOnSettledParentRunsAtOnce`).
- `allSettled` stores a rejection under the field `reason` (`MyPromise.js:183`), and the model's `RejectedRecord(reason)` follows it.
- In `race` and `all`, an input's rejection reaches the combined promise one microtask after a fulfilment would, because it passes through the promise `then` returned (`CombinatorLaws.WireInputOnPendingInput`, `CombinatorLaws.RejectedInputSettlesCombined`). In `race` an earlier rejection can therefore lose to a later fulfilment. In `all` it cannot: only the callback that brings `count` to `promises.length` fulfils the combined promise, and an input that rejected never runs that callback.
- Nothing ever compares a counter for an empty input list, so `all([])`, `allSettled([])` and `any([])` stay pending forever (`PendingForever.EmptyCombinatorNeverSettles`).
- Settling a promise with itself registers its own `_resolve`/`_reject` on itself, and it waits on itself (`SettlementLaws.AdoptionWaitsForInner` with inner = outer).

## Model

| member | source | states |
|---|---|---|
| PromiseCore.Allocated | MyPromise.js:11-15 | a new instance (pending, value undefined, both lists empty) keeps every reference in the world valid |
| PromiseCore.RunThunk | MyPromise.js:191-196 | calling a `finally` callback (a caller's, or the counter of `allSettled`) changes no promise record, adds no locals, only appends to the queue, and returns a value that refers only to existing promises |
| PromiseCore.Invoke | MyPromise.js:145-225 | calling a callable (a caller's function, `_resolve`/`_reject`, a `finally` wrapper or a combinator closure) changes no promise record, adds no locals, only appends to the queue, and returns a value that refers only to existing promises |
| PromiseCore.Deliver | MyPromise.js:77-112 | a handler closure changes no promise record and only appends to the queue: its child settles later, through a task |
| PromiseCore.RunList | MyPromise.js:62-64 | running a handler list changes no promise record and only appends to the queue |
| PromiseCore.RunHandlers | MyPromise.js:56-67 | a no-op while pending; otherwise the result is the world with both lists of that promise cleared, after the matching list ran |
| PromiseCore.Pushed | MyPromise.js:77-95 | exactly one handler appended to each list of the parent, nothing else changes |
| PromiseCore.Then | MyPromise.js:74-117 | returns a fresh pending child, the next id; the parent's state and value and every other existing record are unchanged; the queue only grows; a settled promise again holds no handlers afterwards |
| PromiseCore.ExecutorTasks | MyPromise.js:17-21 | each executor call posts its task in call order; a synchronous throw is posted last, as a rejection |
| PromiseCore.Construct | MyPromise.js:11-22 | construction keeps the world valid |
| PromiseCore.Enqueue | MyPromise.js:35 | definition of `queueMicrotask`; `Runtime.UpdateState`, `Resolve` and `Reject` are proved equal to it |
| PromiseCore.EnqueueRunsLast | MyPromise.js:35 | the queue is first in, first out: the new task comes after every task already queued, and nothing else changes |
| PromiseCore.ClearHandlers | MyPromise.js:69-72 | definition of `#clearHandlers`; `Runtime.ClearHandlers` is proved equal to it |
| PromiseCore.ClearHandlersEmptiesLists | MyPromise.js:69-72 | both lists of the promise become empty; its state and value, every other promise, the locals and the queue are unchanged |
| PromiseCore.Catch | MyPromise.js:119-121 | definition: `then(null, cb)`; `Runtime.Catch` is proved equal to it, and ChainingLaws.CatchRecoversRejection runs it |
| PromiseCore.Finally | MyPromise.js:123-135 | definition: `then` with the two wrappers; `Runtime.Finally` is proved equal to it, and SettlementLaws.DeliverPostsHandlerTasks states what the wrappers post |
| PromiseCore.CallTask | MyPromise.js:24-30 | a call of `_resolve` posts a fulfilment and a call of `_reject` a rejection, for the same promise and with the same value, never a pending state |
| PromiseCore.ResolvedWith | MyPromise.js:137-139 | `MyPromise.resolve(v)` adds one fresh pending promise and queues exactly one fulfilment of it with `v` |
| PromiseCore.RejectedWith | MyPromise.js:141-143 | `MyPromise.reject(e)` adds one fresh pending promise and queues exactly one rejection of it with `e` |
| PromiseCore.Step | MyPromise.js:35-53 | running the oldest task keeps the world valid and never removes a promise or combinator |
| Combinators.WireInput | MyPromise.js:149-159 | wiring one input keeps the world valid, adds no combinator locals, and only appends to the queue |
| Combinators.WireInputs | MyPromise.js:149 | the `forEach` over the inputs keeps the world valid and only appends to the queue |
| Combinators.Prepared | MyPromise.js:146-148 | the combined promise is a fresh pending instance, with fresh locals (counter 0, no results) unless the combinator is `race` |
| Combinators.Combine | MyPromise.js:145-225 | returns the next id as the combined promise, adds one set of locals except for `race`, keeps the world valid |
| Tally.Record | MyPromise.js:152-153 | definition of `results[i] = resp; count++` (and of `failures++; errors[i] = error`, MyPromise.js:217-218) |
| Tally.RecordWritesOneSlot | MyPromise.js:152-153 | one report writes slot `i` with its value, keeps every other slot, and counts one more |
| Tally.Put | MyPromise.js:170-184 | definition of the `allSettled` record write |
| Tally.Bump | MyPromise.js:192 | definition of `completed++` |
| Tally.PutThenBumpIsRecord | MyPromise.js:170-192 | the `allSettled` write keeps the count, the bump keeps the slots, and together they are the `Record` of `all` |
| Tally.Complete | MyPromise.js:154 | definition of `count === promises.length` (and its `completed`, `failures` twins at :193 and :219) |
| Tally.Below | MyPromise.js:149 | the input positions are exactly 0 .. promises.length-1 |
| Tally.RecordAll | MyPromise.js:152-153 | recording results never changes which promise the locals settle nor the input count |
| Tally.AtMostOneDeliveryPerInput | MyPromise.js:152-154 | when each input reports at most once, at most promises.length reports arrive |
| Tally.RecordAllCounts | MyPromise.js:152-153 | after a run of reports the counter has grown by their number and the keys are the reported indices |
| Tally.RecordAllSlots | MyPromise.js:152 | when each input reports at most once, each reported index holds what was reported there |
| Tally.RecordAllTallies | MyPromise.js:152-153 | after a run of reports the counter equals the number of reports and each index holds what was reported there |
| Tally.CompletesExactlyWhenEveryIndexIsFilled | MyPromise.js:154 | `count === promises.length` holds exactly when every input has reported, and exactly when the results array has no hole |
| SettlementLaws.Run | MyPromise.js:35 | any number of microtasks keeps the world valid and never removes a promise or combinator |
| SettlementLaws.SettlementRecordsOutcome | MyPromise.js:49-51 | a settling task records its state and value, empties both lists, and changes no other record |
| SettlementLaws.LateSettlementIsIgnored | MyPromise.js:36 | a task for an already settled promise only leaves the queue |
| SettlementLaws.StepKeepsSettled | MyPromise.js:36 | one microtask never changes a settled promise's state or value |
| SettlementLaws.SettlementIsFinal | MyPromise.js:36-52 | a settled promise keeps its state and value through any number of microtasks |
| SettlementLaws.FirstSettlementWins | MyPromise.js:36-52 | the first task that settles a promise fixes its state and value for good; later resolve/reject are no-ops |
| SettlementLaws.UncaughtRejectionExactly | MyPromise.js:45-47 | the uncaught-rejection error is raised if and only if a rejection reaches a pending promise with no catch handler; it carries the rejection value and the promise stays as it was |
| SettlementLaws.DeliverPostsHandlerTasks | MyPromise.js:79-134 | a handler closure follows the rules of `then`/`finally`: pass-through without a callable, return resolves, throw rejects, `finally` passes the value or rethrows unless its callback throws |
| SettlementLaws.RunListPostsInOrder | MyPromise.js:62-64 | every handler of the list runs exactly once, in registration order |
| SettlementLaws.SettlementPostsHandlersInOrder | MyPromise.js:49-66 | settlement runs the list matching the outcome, and no handler of the other list, in order, then empties both lists |
| SettlementLaws.ThenOnPendingParentRegisters | MyPromise.js:74-116 | on a pending parent `then` appends one handler per list, each settling the new child, and runs nothing |
| SettlementLaws.ThenOnSettledParentRunsAtOnce | MyPromise.js:114-115 | on a settled parent `then` runs the matching new handler at once and leaves the parent's lists empty again |
| SettlementLaws.AdoptionWaitsForInner | MyPromise.js:39-42 | settling with a promise changes neither the outer state nor its value; the outer `_resolve`/`_reject` are registered on the inner promise, or, if it is settled, its outcome is posted for the outer at once |
| ChainingLaws.StaticResolveFulfils | MyPromise.js:137-139 | `MyPromise.resolve(v)` is fulfilled with `v` by the next microtask |
| ChainingLaws.StaticRejectWithoutCatchIsUncaught | MyPromise.js:141-143 | `MyPromise.reject(e)` with no catch registered raises the uncaught-rejection error with `e` and stays pending |
| ChainingLaws.CatchRecoversRejection | MyPromise.js:119-121 | `reject(e).catch(f)`: `f`'s return fulfils the returned promise (recovery), its throw rejects it |
| ChainingLaws.ThenWithoutCatchPassesRejectionOn | MyPromise.js:95-101 | `reject(e).then(f)` does not call `f`; the rejection passes unchanged to the child, which raises the uncaught error |
| ChainingLaws.ExecutorFirstResolveWins | MyPromise.js:17-18 | an executor whose first call is `resolve(v)` ends fulfilled with `v`, whatever it calls or throws afterwards |
| ChainingLaws.UncaughtRejectionLetsLaterResolveWin | MyPromise.js:45-50 | `reject(e); resolve(v)` with no catch handler: the first task raises the uncaught error, and the second fulfils with `v` |
| CombinatorLaws.OnFulfil | MyPromise.js:151-216 | definition: the callable each combinator passes to `then` |
| CombinatorLaws.OnReject | MyPromise.js:158-222 | definition: the callable each combinator passes to `catch` |
| CombinatorLaws.CallablesTouchLocalsExactly | MyPromise.js:151-222 | only `race` and `any` pass `oResolve` itself to `then`, and only `race` and `all` pass `oReject` itself to `catch`; every other callable writes the shared locals |
| CombinatorLaws.WireInputOnPendingInput | MyPromise.js:149-223 | on a pending input each combinator registers exactly its then callable and a pass-through, its catch callable behind a pass-through on the promise `then` returned, and for `allSettled` the `finally` counter |
| SettlementLaws.RunListExtendsPrefix | MyPromise.js:62-64 | the tasks a prefix of a handler list posts come first in what the whole list posts |
| SettlementLaws.RunListPostsHandler | MyPromise.js:62-64 | every handler of a list that does not touch combinator locals posts its tasks while the list runs, whatever the other handlers are |
| SettlementLaws.SettledHandlerPosts | MyPromise.js:49-64 | when a task settles a promise, every handler of the matching list that does not touch combinator locals posts its tasks during that same microtask |
| CombinatorLaws.InputFulfilmentResolvesRaceAndAny | MyPromise.js:201-216 | in `race` and `any`, the microtask that fulfils an input posts the combined promise's fulfilment with the input's value |
| CombinatorLaws.InputRejectionPassesToThenChild | MyPromise.js:95-101 | the microtask that rejects an input posts the same rejection for the promise that the combinator's `then` returned |
| CombinatorLaws.ThenChildRejectionRejectsRaceAndAll | MyPromise.js:145-207 | in `race` and `all`, when that rejection reaches the promise `then` returned, the catch callable posts the combined rejection with the same error |
| SettlementLaws.OnlyTaskRunsOnlyHandler | MyPromise.js:49-66 | a settling task that is the only one queued, on a promise whose matching list is one handler that does not touch combinator locals, leaves exactly that handler's tasks in the queue |
| CombinatorLaws.ResolverPassesFulfilment | MyPromise.js:201-216 | an input fulfilled with `v` whose then handler is `oResolve`: the next microtask posts `oResolve(v)` first, and a pending combined promise ends fulfilled with `v` |
| CombinatorLaws.FulfilledInputSettlesCombined | MyPromise.js:201-225 | `race` or `any` wired to a fresh input fulfilled with `v`: the combined promise ends fulfilled with `v` for good |
| CombinatorLaws.RejecterPassesRejection | MyPromise.js:95-112 | an input rejected with `e`, through the pass-through child to `oReject`: the combined rejection is posted one microtask later, and a pending combined promise with a catch handler ends rejected with `e` |
| CombinatorLaws.RejectedInputSettlesCombined | MyPromise.js:145-207 | `race` or `all` wired to a fresh input rejected with `e`: after a one-microtask lag the combined promise ends rejected with `e` for good |
| CombinatorLaws.ReportOne | MyPromise.js:151-221 | one input's callbacks change no promise record and only append to the queue |
| CombinatorLaws.ReportAll | MyPromise.js:149-221 | any run of input callbacks changes no promise record and only appends to the queue |
| CombinatorLaws.ReportOneRecords | MyPromise.js:151-221 | one report writes its value or record at its own index, bumps the counter, and posts the final settlement exactly when the counter reaches promises.length |
| CombinatorLaws.CounterFiresOnceAllReported | MyPromise.js:145-225 | the counter posts the combined settlement exactly once, at the last of promises.length reports, and never for an empty input list; the locals hold every report |
| CombinatorLaws.FinalArrayHoldsEveryReport | MyPromise.js:154-220 | when it posts, the array carried holds exactly one entry per input position, each what that input reported |
| PendingForever.InvokeSpares | MyPromise.js:151-221 | a callable that does not aim at a promise posts no task for it |
| PendingForever.RunListSpares | MyPromise.js:62-64 | running handlers that spare a promise posts no task for it |
| PendingForever.ThenSpares | MyPromise.js:74-117 | registering callables that spare a promise keeps it untargeted |
| PendingForever.StepSpares | MyPromise.js:35-53 | a microtask keeps an untargeted promise untargeted and its state and value unchanged |
| PendingForever.UntargetedNeverChanges | MyPromise.js:35-53 | an untargeted promise keeps its state and value forever |
| PendingForever.FreshPromiseIsUntargeted | MyPromise.js:146 | nothing can settle a freshly allocated combined promise until inputs are wired to it |
| PendingForever.EmptyCombinatorNeverSettles | MyPromise.js:145-225 | `all([])`, `allSettled([])`, `race([])` and `any([])` stay pending with value undefined forever |
| PromiseRuntime.Runtime.UpdateState | MyPromise.js:32-35 | `#updateState` appends exactly one task (id, value, state) to the queue |
| PromiseRuntime.Runtime.Resolve | MyPromise.js:24-26 | `_resolve` posts a fulfilment task |
| PromiseRuntime.Runtime.Reject | MyPromise.js:28-30 | `_reject` posts a rejection task |
| PromiseRuntime.Runtime.Construct | MyPromise.js:11-22 | in-place construction equals `PromiseCore.Construct` |
| PromiseRuntime.Runtime.ResolvedWith | MyPromise.js:137-139 | `MyPromise.resolve` is construction with an executor that calls `resolve(value)` |
| PromiseRuntime.Runtime.RejectedWith | MyPromise.js:141-143 | `MyPromise.reject` is construction with an executor that calls `reject(value)` |
| PromiseRuntime.Runtime.RunThunk | MyPromise.js:191-196 | in place, equals `PromiseCore.RunThunk` |
| PromiseRuntime.Runtime.Invoke | MyPromise.js:145-225 | in place, equals `PromiseCore.Invoke` |
| PromiseRuntime.Runtime.Deliver | MyPromise.js:77-112 | in place, equals `PromiseCore.Deliver` |
| PromiseRuntime.Runtime.ClearHandlers | MyPromise.js:69-72 | both lists of the promise become empty, nothing else changes |
| PromiseRuntime.Runtime.RunHandlers | MyPromise.js:56-67 | the loop over the handler list ends where `PromiseCore.RunHandlers` does |
| PromiseRuntime.Runtime.Then | MyPromise.js:74-117 | the two pushes and `#runHandlers` in place equal `PromiseCore.Then` |
| PromiseRuntime.Runtime.Catch | MyPromise.js:119-121 | `catch(cb)` is `then(null, cb)` |
| PromiseRuntime.Runtime.Finally | MyPromise.js:123-135 | `finally(cb)` is `then` with the two wrappers |
| PromiseRuntime.Runtime.Step | MyPromise.js:35-53 | the microtask in place equals `PromiseCore.Step` and keeps the runtime valid |
| PromiseRuntime.Runtime.Allocate | MyPromise.js:146-148 | allocates the combined promise and its locals as `Combinators.Prepared` does |
| PromiseRuntime.Runtime.WireInput | MyPromise.js:149-159 | one `forEach` callback in place equals `Combinators.WireInput` |
| PromiseRuntime.Runtime.Combine | MyPromise.js:145-225 | the `forEach` loop in place equals `Combinators.Combine` |
| PromiseRuntime.Runtime.All | MyPromise.js:145-161 | `MyPromise.all` equals `Combinators.Combine` for `all` |
| PromiseRuntime.Runtime.AllSettled | MyPromise.js:163-199 | `MyPromise.allSettled` equals `Combinators.Combine` for `allSettled` |
| PromiseRuntime.Runtime.Race | MyPromise.js:201-207 | `MyPromise.race` equals `Combinators.Combine` for `race` |
| PromiseRuntime.Runtime.Any | MyPromise.js:209-225 | `MyPromise.any` equals `Combinators.Combine` for `any` |

## Left out

- The host event loop (`queueMicrotask`, `MyPromise.js:35`) is replaced by the explicit FIFO queue and `Step`. `SettlementLaws.Run` runs it a given number of times. No method drains the queue, because the source has no such loop.
- The uncaught-rejection error reaches the host as the step result `UncaughtPromiseError(value)`. The error classes `ExtendableError` and `UncaughtPromiseError`, and stack capture (`MyPromise.js:228-244`), are not modelled.
- The `AggregateError` object and its message (`MyPromise.js:220`) are not modelled. `any` rejects with `AggregateError(errors)`, the errors indexed by input position.
- JS dynamic typing is not modelled. `typeof cb !== "function"` becomes `None`, and `instanceof MyPromise` becomes `PromiseRef`. Values are the `Val` datatype, not every JS value.
- User callbacks are side-effect-free functions from a value to a return or a throw. A callback cannot call `resolve`, `then` or the combinators while it runs. A `finally` callback is the fixed outcome of its call.
- Combinator inputs must be MyPromise instances (`InputsExist`); the source calls `.then` on each input. `promises` is a sequence of ids, not an arbitrary iterable.
- The results array is passed to `oResolve` by reference in the source. The model posts a copy of it. The copy is taken when the counter reaches `promises.length`, and after that point nothing writes to the array.
- `module.exports`, the tutorial links, and the commented-out counting code in `allSettled` (`MyPromise.js:1-3, 174-189, 246-249`) are not modelled.
- SettlementLaws.DeliverPostsHandlerTasks, SettlementLaws.RunListPostsInOrder, SettlementLaws.SettlementPostsHandlersInOrder, SettlementLaws.ThenOnSettledParentRunsAtOnce, SettlementLaws.RunListPostsHandler, SettlementLaws.SettledHandlerPosts and SettlementLaws.OnlyTaskRunsOnlyHandler are stated only for handlers that do not touch combinator locals. The combinator closures are covered by CombinatorLaws.
- CombinatorLaws.WireInputOnPendingInput states the registrations for a pending input only. On an already settled input, `then` runs the new handler at once, as SettlementLaws.ThenOnSettledParentRunsAtOnce states for one `then`.
- CombinatorLaws.CounterFiresOnceAllReported applies an input's callbacks directly, without running the microtasks in between. For `allSettled` it takes an input's record write and its counter bump as adjacent. In the runtime they are two microtasks apart on fulfilment: the write comes when the input settles, then a pass-through hop through the promise `then` returned, then the bump. They are one microtask apart on rejection. Because each input's write precedes its own bump, the final array is the same.
- CombinatorLaws.InputFulfilmentResolvesRaceAndAny, CombinatorLaws.InputRejectionPassesToThenChild and CombinatorLaws.ThenChildRejectionRejectsRaceAndAll hold in any valid world. They say that the combined task is posted in that microtask, not where it lands among the tasks that the input's other handlers post.
- CombinatorLaws.FulfilledInputSettlesCombined and CombinatorLaws.RejectedInputSettlesCombined run to the end a single fresh input whose settlement is the only queued task. With several inputs, "the first delivered outcome decides" follows from the one-microtask lemmas and SettlementLaws.FirstSettlementWins. No lemma follows the promise `then` returned across arbitrary interleaved microtasks.
