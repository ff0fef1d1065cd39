/** The MyPromise state machine as functions over a `World`: settlement
    (`#updateState`), handler runs (`#runHandlers`, `#clearHandlers`),
    registration (`then`, `catch`, `finally`) and construction. These
    functions specify the `Runtime` methods: most the method of the same
    name, `Enqueue` the methods `UpdateState`, `Resolve` and `Reject`. */
module PromiseCore {
  import opened PromiseData
  import opened Tally

  // ---------------------------------------------------------------------
  // Well-formedness: every promise and aggregate a record mentions exists.
  // ---------------------------------------------------------------------

  ghost predicate Known(v: Val, np: nat)
  {
    v.PromiseRef? ==> v.id < np
  }

  ghost predicate ThunkOk(t: Thunk, np: nat, na: nat)
  {
    match t
    case UserThunk(o) => Known(o.value, np)
    case SettledCount(a) => a < na
  }

  ghost predicate CallbackOk(cb: Callback, np: nat, na: nat)
  {
    match cb
    case User(f) => forall x :: Known(f(x).value, np)
    case Resolver(t) => t < np
    case Rejecter(t) => t < np
    case FinallyFulfil(th) => ThunkOk(th, np, na)
    case FinallyReject(th) => ThunkOk(th, np, na)
    case AllStore(a, _) => a < na
    case SettledValue(a, _) => a < na
    case SettledReason(a, _) => a < na
    case AnyFail(a, _) => a < na
  }

  ghost predicate OptCallbackOk(cb: Option<Callback>, np: nat, na: nat)
  {
    cb.Some? ==> CallbackOk(cb.value, np, na)
  }

  ghost predicate HandlerOk(h: Handler, np: nat, na: nat)
  {
    h.child < np && OptCallbackOk(h.cb, np, na)
  }

  ghost predicate HandlersOk(hs: seq<Handler>, np: nat, na: nat)
  {
    forall k :: 0 <= k < |hs| ==> HandlerOk(hs[k], np, na)
  }

  /** A promise's value is never itself a promise: `#updateState` adopts
      such a value instead of storing it. */
  ghost predicate RecOk(p: PromiseRec, np: nat, na: nat)
  {
    HandlersOk(p.thenHandlers, np, na) && HandlersOk(p.catchHandlers, np, na) && !p.value.PromiseRef?
  }

  /** `#updateState` is only ever called with FULFILLED or REJECTED. */
  ghost predicate TaskOk(t: Task, np: nat)
  {
    t.id < np && Known(t.value, np) && t.state != Pending
  }

  ghost predicate RefsBelow(w: World, np: nat, na: nat)
  {
    && (forall id :: 0 <= id < |w.promises| ==> RecOk(w.promises[id], np, na))
    && (forall a :: 0 <= a < |w.aggs| ==> w.aggs[a].target < np)
    && (forall k :: 0 <= k < |w.queue| ==> TaskOk(w.queue[k], np))
  }

  ghost predicate WellFormed(w: World)
  {
    RefsBelow(w, |w.promises|, |w.aggs|)
  }

  /** Between microtasks a settled promise holds no handlers: settlement
      and a `then` on a settled promise both end with `#clearHandlers`. */
  ghost predicate Quiet(w: World)
  {
    forall id :: 0 <= id < |w.promises| && w.promises[id].state != Pending ==>
      w.promises[id].thenHandlers == [] && w.promises[id].catchHandlers == []
  }

  ghost predicate Valid(w: World)
  {
    WellFormed(w) && Quiet(w)
  }

  lemma CallbackGrows(cb: Callback, np: nat, na: nat, np2: nat, na2: nat)
    requires CallbackOk(cb, np, na) && np <= np2 && na <= na2
    ensures CallbackOk(cb, np2, na2)
  {
  }

  lemma OptCallbackGrows(cb: Option<Callback>, np: nat, na: nat, np2: nat, na2: nat)
    requires OptCallbackOk(cb, np, na) && np <= np2 && na <= na2
    ensures OptCallbackOk(cb, np2, na2)
  {
    if cb.Some? {
      CallbackGrows(cb.value, np, na, np2, na2);
    }
  }

  lemma HandlersGrow(hs: seq<Handler>, np: nat, na: nat, np2: nat, na2: nat)
    requires HandlersOk(hs, np, na) && np <= np2 && na <= na2
    ensures HandlersOk(hs, np2, na2)
  {
    forall k | 0 <= k < |hs|
      ensures HandlerOk(hs[k], np2, na2)
    {
      if hs[k].cb.Some? {
        CallbackGrows(hs[k].cb.value, np, na, np2, na2);
      }
    }
  }

  lemma RefsGrow(w: World, np: nat, na: nat, np2: nat, na2: nat)
    requires RefsBelow(w, np, na) && np <= np2 && na <= na2
    ensures RefsBelow(w, np2, na2)
  {
    forall id | 0 <= id < |w.promises|
      ensures RecOk(w.promises[id], np2, na2)
    {
      HandlersGrow(w.promises[id].thenHandlers, np, na, np2, na2);
      HandlersGrow(w.promises[id].catchHandlers, np, na, np2, na2);
    }
  }

  /** Allocating a promise (`new MyPromise`) keeps every reference valid. */
  lemma AllocateKeepsRefs(w: World)
    requires WellFormed(w)
    ensures WellFormed(w.(promises := w.promises + [NewPromise()]))
  {
    var np := |w.promises|;
    RefsGrow(w, np, |w.aggs|, np + 1, |w.aggs|);
    var w1 := w.(promises := w.promises + [NewPromise()]);
    forall id | 0 <= id < |w1.promises|
      ensures RecOk(w1.promises[id], np + 1, |w.aggs|)
    {
      if id < np {
        assert w1.promises[id] == w.promises[id];
      }
    }
  }

  /** The world after `new MyPromise` initialised one more instance. */
  function Allocated(w: World): (r: World)
    requires WellFormed(w)
    ensures WellFormed(r)
  {
    AllocateKeepsRefs(w);
    w.(promises := w.promises + [NewPromise()])
  }

  /** Allocating a combinator's locals keeps every reference valid. */
  lemma AddAggKeepsRefs(w: World, g: Agg)
    requires WellFormed(w) && g.target < |w.promises|
    ensures WellFormed(w.(aggs := w.aggs + [g]))
  {
    RefsGrow(w, |w.promises|, |w.aggs|, |w.promises|, |w.aggs| + 1);
  }

  // ---------------------------------------------------------------------
  // The microtask queue and the callbacks handlers call.
  // ---------------------------------------------------------------------

  /** `queueMicrotask`: the task runs after every task already queued. */
  function Enqueue(w: World, t: Task): World
  {
    w.(queue := w.queue + [t])
  }

  /** The queue is first in, first out: the new task runs after every task
      already queued, and nothing else changes. */
  lemma EnqueueRunsLast(w: World, t: Task)
    ensures var r := Enqueue(w, t);
      && |r.queue| == |w.queue| + 1 && r.queue[..|w.queue|] == w.queue && r.queue[|w.queue|] == t
      && r.promises == w.promises && r.aggs == w.aggs
  {
  }

  /** Calls the zero-argument callback given to `finally`. */
  function RunThunk(w: World, th: Thunk): (r: (World, Outcome))
    requires WellFormed(w) && ThunkOk(th, |w.promises|, |w.aggs|)
    ensures WellFormed(r.0) && Known(r.1.value, |w.promises|)
    ensures r.0.promises == w.promises && |r.0.aggs| == |w.aggs| && w.queue <= r.0.queue
  {
    match th
    case UserThunk(o) => (w, o)
    case SettledCount(a) =>
      var g := Bump(w.aggs[a]);
      var w1 := w.(aggs := w.aggs[a := g]);
      (if Complete(g) then Enqueue(w1, Task(g.target, Arr(g.slots), Fulfilled)) else w1, Returned(Undefined))
  }

  /** Calls a callable given to `then` with the parent's settled value `v`;
      the callbacks of the combinators update their shared locals and may
      post the combined promise's settlement. */
  function Invoke(w: World, cb: Callback, v: Val): (r: (World, Outcome))
    requires WellFormed(w) && CallbackOk(cb, |w.promises|, |w.aggs|) && !v.PromiseRef?
    ensures WellFormed(r.0) && Known(r.1.value, |w.promises|)
    ensures r.0.promises == w.promises && |r.0.aggs| == |w.aggs| && w.queue <= r.0.queue
  {
    match cb
    case User(f) => (w, f(v))
    case Resolver(t) => (Enqueue(w, Task(t, v, Fulfilled)), Returned(Undefined))
    case Rejecter(t) => (Enqueue(w, Task(t, v, Rejected)), Returned(Undefined))
    case FinallyFulfil(th) =>
      var (w1, o) := RunThunk(w, th);
      (w1, if o.Threw? then o else Returned(v))
    case FinallyReject(th) =>
      var (w1, o) := RunThunk(w, th);
      (w1, if o.Threw? then o else Threw(v))
    case AllStore(a, i) =>
      var g := Record(w.aggs[a], i, v);
      var w1 := w.(aggs := w.aggs[a := g]);
      (if Complete(g) then Enqueue(w1, Task(g.target, Arr(g.slots), Fulfilled)) else w1, Returned(Undefined))
    case SettledValue(a, i) =>
      (w.(aggs := w.aggs[a := Put(w.aggs[a], i, FulfilledRecord(v))]), Returned(Undefined))
    case SettledReason(a, i) =>
      (w.(aggs := w.aggs[a := Put(w.aggs[a], i, RejectedRecord(v))]), Returned(Undefined))
    case AnyFail(a, i) =>
      var g := Record(w.aggs[a], i, v);
      var w1 := w.(aggs := w.aggs[a := g]);
      (if Complete(g) then Enqueue(w1, Task(g.target, AggregateError(g.slots), Rejected)) else w1, Returned(Undefined))
  }

  /** One closure pushed by `then`, called by `#runHandlers` with the value
      of a parent in state `s` (`s` is Fulfilled on `thenHandlers`, Rejected
      on `catchHandlers`). Without a callable it passes the outcome to the
      child unchanged; otherwise the callback's return resolves the child
      and its throw rejects it. */
  function Deliver(w: World, h: Handler, s: Status, v: Val): (r: World)
    requires WellFormed(w) && HandlerOk(h, |w.promises|, |w.aggs|) && s != Pending && !v.PromiseRef?
    ensures WellFormed(r) && r.promises == w.promises && |r.aggs| == |w.aggs| && w.queue <= r.queue
  {
    match h.cb
    case None => Enqueue(w, Task(h.child, v, s))
    case Some(cb) =>
      var (w1, o) := Invoke(w, cb, v);
      Enqueue(w1, Task(h.child, o.value, if o.Returned? then Fulfilled else Rejected))
  }

  /** The `for (const handler of handlers)` loop: the handlers run in order. */
  function RunList(w: World, hs: seq<Handler>, s: Status, v: Val): (r: World)
    requires WellFormed(w) && HandlersOk(hs, |w.promises|, |w.aggs|) && s != Pending && !v.PromiseRef?
    ensures WellFormed(r) && r.promises == w.promises && |r.aggs| == |w.aggs| && w.queue <= r.queue
    decreases |hs|
  {
    if hs == [] then w
    else
      var w1 := RunList(w, hs[..|hs| - 1], s, v);
      Deliver(w1, hs[|hs| - 1], s, v)
  }

  /** `#clearHandlers`. */
  function ClearHandlers(w: World, id: PromiseId): World
    requires id < |w.promises|
  {
    w.(promises := w.promises[id := w.promises[id].(thenHandlers := [], catchHandlers := [])])
  }

  /** `#clearHandlers` empties both lists of one promise and changes
      nothing else: not its state or value, no other promise, no task. */
  lemma ClearHandlersEmptiesLists(w: World, id: PromiseId)
    requires id < |w.promises|
    ensures var r := ClearHandlers(w, id);
      && |r.promises| == |w.promises| && r.aggs == w.aggs && r.queue == w.queue
      && r.promises[id].thenHandlers == [] && r.promises[id].catchHandlers == []
      && r.promises[id].state == w.promises[id].state && r.promises[id].value == w.promises[id].value
      && forall j :: 0 <= j < |w.promises| && j != id ==> r.promises[j] == w.promises[j]
  {
  }

  /** `#runHandlers`: nothing while pending; otherwise the list matching the
      state runs and both lists are cleared. */
  function RunHandlers(w: World, id: PromiseId): (r: World)
    requires WellFormed(w) && id < |w.promises|
    ensures WellFormed(r) && |r.aggs| == |w.aggs| && w.queue <= r.queue
    ensures w.promises[id].state == Pending ==> r == w
    ensures w.promises[id].state != Pending ==> r.promises == ClearHandlers(w, id).promises
  {
    var p := w.promises[id];
    if p.state == Pending then w
    else
      var hs := if p.state == Fulfilled then p.thenHandlers else p.catchHandlers;
      ClearHandlers(RunList(w, hs, p.state, p.value), id)
  }

  // ---------------------------------------------------------------------
  // Registration: then, catch, finally.
  // ---------------------------------------------------------------------

  /** The two `push` calls of `then`. */
  function Pushed(w: World, parent: PromiseId, h1: Handler, h2: Handler): (r: World)
    requires WellFormed(w) && parent < |w.promises|
    requires HandlerOk(h1, |w.promises|, |w.aggs|) && HandlerOk(h2, |w.promises|, |w.aggs|)
    ensures WellFormed(r) && |r.promises| == |w.promises| && r.aggs == w.aggs && r.queue == w.queue
    ensures r.promises[parent].thenHandlers == w.promises[parent].thenHandlers + [h1]
    ensures r.promises[parent].catchHandlers == w.promises[parent].catchHandlers + [h2]
    ensures r.promises[parent].state == w.promises[parent].state
    ensures r.promises[parent].value == w.promises[parent].value
    ensures forall id :: 0 <= id < |w.promises| && id != parent ==> r.promises[id] == w.promises[id]
  {
    var p := w.promises[parent];
    var r := w.(promises := w.promises[parent := p.(thenHandlers := p.thenHandlers + [h1],
                                                    catchHandlers := p.catchHandlers + [h2])]);
    assert RecOk(r.promises[parent], |w.promises|, |w.aggs|) by {
      assert RecOk(p, |w.promises|, |w.aggs|);
    }
    r
  }

  /** `then(thenCB, catchCB)`: a new pending promise (the child), one
      handler pushed on each list of the parent, then `#runHandlers`, which
      runs them at once when the parent is already settled. */
  function Then(w: World, parent: PromiseId, onFulfil: Option<Callback>, onReject: Option<Callback>): (r: (World, PromiseId))
    requires WellFormed(w) && parent < |w.promises|
    requires OptCallbackOk(onFulfil, |w.promises|, |w.aggs|) && OptCallbackOk(onReject, |w.promises|, |w.aggs|)
    ensures WellFormed(r.0) && (Quiet(w) ==> Quiet(r.0))
    ensures r.1 == |w.promises| && |r.0.promises| == |w.promises| + 1 && r.0.promises[r.1] == NewPromise()
    ensures |r.0.aggs| == |w.aggs| && w.queue <= r.0.queue
    ensures r.0.promises[parent].state == w.promises[parent].state
    ensures r.0.promises[parent].value == w.promises[parent].value
    ensures forall id :: 0 <= id < |w.promises| && id != parent ==> r.0.promises[id] == w.promises[id]
  {
    var np := |w.promises|;
    var w1 := Allocated(w);
    OptCallbackGrows(onFulfil, np, |w.aggs|, np + 1, |w.aggs|);
    OptCallbackGrows(onReject, np, |w.aggs|, np + 1, |w.aggs|);
    var w2 := Pushed(w1, parent, Handler(np, onFulfil), Handler(np, onReject));
    (RunHandlers(w2, parent), np)
  }

  /** `catch(cb)` is `then(null, cb)`. */
  function Catch(w: World, parent: PromiseId, onReject: Option<Callback>): (World, PromiseId)
    requires WellFormed(w) && parent < |w.promises| && OptCallbackOk(onReject, |w.promises|, |w.aggs|)
  {
    Then(w, parent, None, onReject)
  }

  /** `finally(cb)`: `then` with two wrappers that call `cb` and then return
      the value or rethrow the error. */
  function Finally(w: World, parent: PromiseId, cb: Thunk): (World, PromiseId)
    requires WellFormed(w) && parent < |w.promises| && ThunkOk(cb, |w.promises|, |w.aggs|)
  {
    Then(w, parent, Some(FinallyFulfil(cb)), Some(FinallyReject(cb)))
  }

  // ---------------------------------------------------------------------
  // Construction.
  // ---------------------------------------------------------------------

  /** The task posted by one call of `_resolve` or `_reject`. */
  function CallTask(id: PromiseId, c: Call): (t: Task)
    ensures t.id == id && t.value == c.value && t.state != Pending
    ensures t.state == Fulfilled <==> c.Resolve?
  {
    Task(id, c.value, if c.Resolve? then Fulfilled else Rejected)
  }

  /** The tasks an executor posts, in order; a synchronous throw is caught by
      the constructor and posted last through `_reject`. */
  function ExecutorTasks(id: PromiseId, ex: Executor): (ts: seq<Task>)
    ensures |ts| == |ex.calls| + (if ex.throws.Some? then 1 else 0)
    ensures forall k :: 0 <= k < |ex.calls| ==> ts[k] == CallTask(id, ex.calls[k])
    ensures ex.throws.Some? ==> ts[|ts| - 1] == Task(id, ex.throws.value, Rejected)
  {
    seq(|ex.calls|, k requires 0 <= k < |ex.calls| => CallTask(id, ex.calls[k]))
      + (match ex.throws case None => [] case Some(e) => [Task(id, e, Rejected)])
  }

  ghost predicate ExecutorOk(ex: Executor, np: nat)
  {
    && (forall k :: 0 <= k < |ex.calls| ==> Known(ex.calls[k].value, np))
    && (ex.throws.Some? ==> Known(ex.throws.value, np))
  }

  /** `new MyPromise(callback)`. */
  function Construct(w: World, ex: Executor): (r: (World, PromiseId))
    requires Valid(w) && ExecutorOk(ex, |w.promises|)
    ensures Valid(r.0)
  {
    var id := |w.promises|;
    var w1 := Allocated(w);
    (w1.(queue := w1.queue + ExecutorTasks(id, ex)), id)
  }

  /** `MyPromise.resolve(value)`. */
  function ResolvedWith(w: World, v: Val): (r: (World, PromiseId))
    requires Valid(w) && Known(v, |w.promises|)
    ensures Valid(r.0) && r.1 == |w.promises| && r.0.promises == w.promises + [NewPromise()] && r.0.aggs == w.aggs
    ensures r.0.queue == w.queue + [Task(r.1, v, Fulfilled)]
  {
    Construct(w, Executor([Resolve(v)], None))
  }

  /** `MyPromise.reject(value)`. */
  function RejectedWith(w: World, e: Val): (r: (World, PromiseId))
    requires Valid(w) && Known(e, |w.promises|)
    ensures Valid(r.0) && r.1 == |w.promises| && r.0.promises == w.promises + [NewPromise()] && r.0.aggs == w.aggs
    ensures r.0.queue == w.queue + [Task(r.1, e, Rejected)]
  {
    Construct(w, Executor([Reject(e)], None))
  }

  // ---------------------------------------------------------------------
  // Settlement: the microtask posted by #updateState.
  // ---------------------------------------------------------------------

  /** Runs the task at the head of the queue. */
  function Step(w: World): (r: (World, StepResult))
    requires Valid(w)
    ensures Valid(r.0) && |r.0.promises| >= |w.promises| && |r.0.aggs| == |w.aggs|
  {
    if w.queue == [] then (w, Idle)
    else
      var t := w.queue[0];
      var w0 := w.(queue := w.queue[1..]);
      var p := w0.promises[t.id];
      if p.state != Pending then
        (w0, Ran)
      else if t.value.PromiseRef? then
        (Then(w0, t.value.id, Some(Resolver(t.id)), Some(Rejecter(t.id))).0, Ran)
      else if t.state == Rejected && p.catchHandlers == [] then
        (w0, UncaughtPromiseError(t.value))
      else
        var w1 := w0.(promises := w0.promises[t.id := p.(state := t.state, value := t.value)]);
        (RunHandlers(w1, t.id), Ran)
  }
}
