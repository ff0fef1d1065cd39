/** The values and records of the MyPromise state machine. */
module PromiseData {

  /** A promise is named by its position in the runtime's table of promises. */
  type PromiseId = nat

  /** A combinator's shared locals (results or errors, and a counter) are named
      by their position in the runtime's table of aggregates. */
  type AggId = nat

  datatype Option<T> = None | Some(value: T)

  /** The three entries of `promiseStates`. */
  datatype Status = Pending | Fulfilled | Rejected

  /** The JavaScript values that flow through promises. `PromiseRef` is a
      `MyPromise` instance: `v.PromiseRef?` is the `instanceof` test. A JS
      array is an index map, because the combinators write `results[i]` into
      an initially empty array and leave holes where nothing was written. */
  datatype Val =
    | Undefined
    | Num(n: int)
    | Str(s: string)
    | Arr(slots: map<nat, Val>)
    | FulfilledRecord(value: Val)            // { status: "fulfilled", value }
    | RejectedRecord(reason: Val)            // { status: "rejected", reason }
    | AggregateError(errors: map<nat, Val>)  // what `any` rejects with
    | PromiseRef(id: PromiseId)

  /** How a synchronous JS call ends: it returns a value or throws one. */
  datatype Outcome = Returned(value: Val) | Threw(value: Val)

  /** The body of a zero-argument callback given to `finally`. */
  datatype Thunk =
    | UserThunk(result: Outcome)   // a caller's cb(): returns (result ignored) or throws
    | SettledCount(agg: AggId)     // allSettled: completed++, resolve when all are done

  /** A callable passed to `then` as `thenCB` or `catchCB`. */
  datatype Callback =
    | User(f: Val -> Outcome)              // a caller's function without side effects
    | Resolver(target: PromiseId)          // target._resolve
    | Rejecter(target: PromiseId)          // target._reject
    | FinallyFulfil(cb: Thunk)             // (value) => { cb(); return value; }
    | FinallyReject(cb: Thunk)             // (value) => { cb(); throw value; }
    | AllStore(agg: AggId, index: nat)     // all: results[i] = resp; count++; ...
    | SettledValue(agg: AggId, index: nat) // allSettled: results[i] = {status, value}
    | SettledReason(agg: AggId, index: nat)// allSettled: results[i] = {status, reason}
    | AnyFail(agg: AggId, index: nat)      // any: failures++; errors[i] = error; ...

  /** One closure pushed by `then`: it settles `child`, the promise `then`
      returned, either by passing the parent's outcome through (no callable)
      or through the callback. */
  datatype Handler = Handler(child: PromiseId, cb: Option<Callback>)

  /** The fields of one MyPromise instance. `value` starts as `undefined`. */
  datatype PromiseRec = PromiseRec(
    state: Status,
    value: Val,
    thenHandlers: seq<Handler>,
    catchHandlers: seq<Handler>)

  /** The fields a freshly constructed promise has before its executor runs. */
  function NewPromise(): PromiseRec
  {
    PromiseRec(Pending, Undefined, [], [])
  }

  /** The locals a combinator's executor shares with its callbacks: the
      `results`/`errors` array, the counter (`count`, `completed` or
      `failures`), `promises.length` and the promise that oResolve/oReject
      settle. */
  datatype Agg = Agg(target: PromiseId, size: nat, slots: map<nat, Val>, counter: nat)

  /** The task `#updateState` posts to the microtask queue. */
  datatype Task = Task(id: PromiseId, value: Val, state: Status)

  /** One call an executor makes synchronously on its capabilities. */
  datatype Call = Resolve(value: Val) | Reject(value: Val)

  /** What a constructor's executor does: a list of calls to resolve/reject,
      then either a normal return or a synchronous throw. */
  datatype Executor = Executor(calls: seq<Call>, throws: Option<Val>)

  /** Everything the promises of one program share: the instances, the
      combinator locals, and the FIFO microtask queue. */
  datatype World = World(promises: seq<PromiseRec>, aggs: seq<Agg>, queue: seq<Task>)

  /** What running one microtask produces. */
  datatype StepResult =
    | Idle                            // the queue was empty
    | Ran                             // the task ran to completion
    | UncaughtPromiseError(error: Val) // the task threw the uncaught-rejection error
}
