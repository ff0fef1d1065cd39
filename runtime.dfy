/** The promises of one program and their microtask queue, updated in place.
    Every method is proved to take the runtime's `State()` exactly where the
    specification function its `ensures` names takes it: for most methods
    the function of the same name in PromiseCore or Combinators; `Enqueue`
    for `UpdateState`, `Resolve` and `Reject`; `Prepared` for `Allocate`;
    `Combine` for `All`, `AllSettled`, `Race` and `Any`. */
module PromiseRuntime {
  import opened PromiseData
  import opened Tally
  import opened PromiseCore
  import opened Combinators

  class Runtime {
    /** The fields of every MyPromise instance, indexed by PromiseId. */
    var promises: seq<PromiseRec>
    /** The locals of every combinator executor, indexed by AggId. */
    var aggs: seq<Agg>
    /** The microtask queue, oldest task first. */
    var queue: seq<Task>

    function State(): World
      reads this
    {
      World(promises, aggs, queue)
    }

    ghost predicate Valid()
      reads this
    {
      PromiseCore.Valid(State())
    }

    constructor ()
      ensures Valid() && State() == World([], [], [])
    {
      promises, aggs, queue := [], [], [];
    }

    /** `#updateState(value, state)`: posts the settlement task. */
    method UpdateState(id: PromiseId, v: Val, s: Status)
      requires WellFormed(State()) && id < |promises| && Known(v, |promises|) && s != Pending
      modifies this
      ensures WellFormed(State())
      ensures State() == Enqueue(old(State()), Task(id, v, s))
    {
      queue := queue + [Task(id, v, s)];
    }

    /** `_resolve(value)`, called by whoever holds the capability. */
    method Resolve(id: PromiseId, v: Val)
      requires Valid() && id < |promises| && Known(v, |promises|)
      modifies this
      ensures Valid() && State() == Enqueue(old(State()), Task(id, v, Fulfilled))
    {
      UpdateState(id, v, Fulfilled);
    }

    /** `_reject(value)`. */
    method Reject(id: PromiseId, v: Val)
      requires Valid() && id < |promises| && Known(v, |promises|)
      modifies this
      ensures Valid() && State() == Enqueue(old(State()), Task(id, v, Rejected))
    {
      UpdateState(id, v, Rejected);
    }

    /** `new MyPromise(callback)`: the fields are initialised, then the
        executor's calls and a synchronous throw (through `_reject`) post
        their tasks. */
    method Construct(ex: Executor) returns (id: PromiseId)
      requires Valid() && ExecutorOk(ex, |promises|)
      modifies this
      ensures Valid() && (State(), id) == PromiseCore.Construct(old(State()), ex)
    {
      id := |promises|;
      promises := promises + [NewPromise()];
      queue := queue + ExecutorTasks(id, ex);
    }

    /** `MyPromise.resolve(value)`. */
    method ResolvedWith(v: Val) returns (id: PromiseId)
      requires Valid() && Known(v, |promises|)
      modifies this
      ensures Valid() && (State(), id) == PromiseCore.ResolvedWith(old(State()), v)
    {
      id := Construct(Executor([Call.Resolve(v)], None));
    }

    /** `MyPromise.reject(value)`. */
    method RejectedWith(e: Val) returns (id: PromiseId)
      requires Valid() && Known(e, |promises|)
      modifies this
      ensures Valid() && (State(), id) == PromiseCore.RejectedWith(old(State()), e)
    {
      id := Construct(Executor([Call.Reject(e)], None));
    }

    /** The callback given to `finally`. */
    method RunThunk(th: Thunk) returns (o: Outcome)
      requires WellFormed(State()) && ThunkOk(th, |promises|, |aggs|)
      modifies this
      ensures (State(), o) == PromiseCore.RunThunk(old(State()), th)
    {
      match th
      case UserThunk(result) =>
        o := result;
      case SettledCount(a) =>
        var g := Bump(aggs[a]);
        aggs := aggs[a := g];
        if Complete(g) {
          UpdateState(g.target, Arr(g.slots), Fulfilled);
        }
        o := Returned(Undefined);
    }

    /** A callable passed to `then`, called with the parent's value. */
    method Invoke(cb: Callback, v: Val) returns (o: Outcome)
      requires WellFormed(State()) && CallbackOk(cb, |promises|, |aggs|) && !v.PromiseRef?
      modifies this
      ensures (State(), o) == PromiseCore.Invoke(old(State()), cb, v)
    {
      match cb
      case User(f) =>
        o := f(v);
      case Resolver(t) =>
        UpdateState(t, v, Fulfilled);
        o := Returned(Undefined);
      case Rejecter(t) =>
        UpdateState(t, v, Rejected);
        o := Returned(Undefined);
      case FinallyFulfil(th) =>
        o := RunThunk(th);
        if !o.Threw? {
          o := Returned(v);
        }
      case FinallyReject(th) =>
        o := RunThunk(th);
        if !o.Threw? {
          o := Threw(v);
        }
      case AllStore(a, i) =>
        var g := Record(aggs[a], i, v);
        aggs := aggs[a := g];
        if Complete(g) {
          UpdateState(g.target, Arr(g.slots), Fulfilled);
        }
        o := Returned(Undefined);
      case SettledValue(a, i) =>
        aggs := aggs[a := Put(aggs[a], i, FulfilledRecord(v))];
        o := Returned(Undefined);
      case SettledReason(a, i) =>
        aggs := aggs[a := Put(aggs[a], i, RejectedRecord(v))];
        o := Returned(Undefined);
      case AnyFail(a, i) =>
        var g := Record(aggs[a], i, v);
        aggs := aggs[a := g];
        if Complete(g) {
          UpdateState(g.target, AggregateError(g.slots), Rejected);
        }
        o := Returned(Undefined);
    }

    /** One handler closure pushed by `then`, for a parent in state `s`. */
    method Deliver(h: Handler, s: Status, v: Val)
      requires WellFormed(State()) && HandlerOk(h, |promises|, |aggs|) && s != Pending && !v.PromiseRef?
      modifies this
      ensures State() == PromiseCore.Deliver(old(State()), h, s, v)
    {
      match h.cb
      case None =>
        UpdateState(h.child, v, s);
      case Some(cb) =>
        var o := Invoke(cb, v);
        if o.Returned? {
          UpdateState(h.child, o.value, Fulfilled);
        } else {
          UpdateState(h.child, o.value, Rejected);
        }
    }

    /** `#clearHandlers`. */
    method ClearHandlers(id: PromiseId)
      requires id < |promises|
      modifies this
      ensures State() == PromiseCore.ClearHandlers(old(State()), id)
    {
      promises := promises[id := promises[id].(thenHandlers := [], catchHandlers := [])];
    }

    /** `#runHandlers`. */
    method RunHandlers(id: PromiseId)
      requires WellFormed(State()) && id < |promises|
      modifies this
      ensures State() == PromiseCore.RunHandlers(old(State()), id)
    {
      var p := promises[id];
      if p.state == Pending {
        return;
      }
      var hs := if p.state == Fulfilled then p.thenHandlers else p.catchHandlers;
      ghost var w0 := State();
      assert HandlersOk(hs, |promises|, |aggs|);
      for i := 0 to |hs|
        invariant HandlersOk(hs[..i], |w0.promises|, |w0.aggs|)
        invariant State() == RunList(w0, hs[..i], p.state, p.value)
      {
        assert hs[..i + 1][..i] == hs[..i];
        Deliver(hs[i], p.state, p.value);
      }
      assert hs[..|hs|] == hs;
      ClearHandlers(id);
    }

    /** `then(thenCB, catchCB)`. */
    method Then(parent: PromiseId, onFulfil: Option<Callback>, onReject: Option<Callback>) returns (child: PromiseId)
      requires WellFormed(State()) && parent < |promises|
      requires OptCallbackOk(onFulfil, |promises|, |aggs|) && OptCallbackOk(onReject, |promises|, |aggs|)
      modifies this
      ensures (State(), child) == PromiseCore.Then(old(State()), parent, onFulfil, onReject)
    {
      AllocateKeepsRefs(State());
      OptCallbackGrows(onFulfil, |promises|, |aggs|, |promises| + 1, |aggs|);
      OptCallbackGrows(onReject, |promises|, |aggs|, |promises| + 1, |aggs|);
      child := |promises|;
      promises := promises + [NewPromise()];
      var p := promises[parent];
      promises := promises[parent := p.(thenHandlers := p.thenHandlers + [Handler(child, onFulfil)],
                                        catchHandlers := p.catchHandlers + [Handler(child, onReject)])];
      RunHandlers(parent);
    }

    /** `catch(cb)`. */
    method Catch(parent: PromiseId, onReject: Option<Callback>) returns (child: PromiseId)
      requires WellFormed(State()) && parent < |promises| && OptCallbackOk(onReject, |promises|, |aggs|)
      modifies this
      ensures (State(), child) == PromiseCore.Catch(old(State()), parent, onReject)
    {
      child := Then(parent, None, onReject);
    }

    /** `finally(cb)`. */
    method Finally(parent: PromiseId, cb: Thunk) returns (child: PromiseId)
      requires WellFormed(State()) && parent < |promises| && ThunkOk(cb, |promises|, |aggs|)
      modifies this
      ensures (State(), child) == PromiseCore.Finally(old(State()), parent, cb)
    {
      child := Then(parent, Some(FinallyFulfil(cb)), Some(FinallyReject(cb)));
    }

    /** The microtask posted by `#updateState`, applied to the oldest task. */
    method Step() returns (r: StepResult)
      requires Valid()
      modifies this
      ensures Valid() && (State(), r) == PromiseCore.Step(old(State()))
    {
      if |queue| == 0 {
        return Idle;
      }
      var t := queue[0];
      queue := queue[1..];
      var p := promises[t.id];
      if p.state != Pending {
        return Ran;
      }
      if t.value.PromiseRef? {
        var _ := Then(t.value.id, Some(Resolver(t.id)), Some(Rejecter(t.id)));
        return Ran;
      }
      if t.state == Rejected && |p.catchHandlers| == 0 {
        return UncaughtPromiseError(t.value);
      }
      promises := promises[t.id := p.(state := t.state, value := t.value)];
      RunHandlers(t.id);
      r := Ran;
    }

    // -------------------------------------------------------------------
    // Combinators: each allocates the combined promise and its locals, then
    // runs the `forEach` loop over the inputs.
    // -------------------------------------------------------------------

    /** Allocates the combined promise and, except for `race`, the locals of
        its executor. */
    method Allocate(kind: Kind, n: nat) returns (outer: PromiseId, a: AggId)
      requires Valid()
      modifies this
      ensures outer == old(|promises|) && a == old(|aggs|)
      ensures Valid() && State() == Prepared(old(State()), kind, n)
    {
      AllocateKeepsRefs(State());
      outer := |promises|;
      promises := promises + [NewPromise()];
      a := |aggs|;
      if kind != Kind.Race {
        aggs := aggs + [FreshAgg(outer, n)];
      }
    }

    /** The body of one combinator's `forEach` callback for input `p` at
        position `i`. */
    method WireInput(kind: Kind, outer: PromiseId, a: AggId, i: nat, p: PromiseId)
      requires WellFormed(State()) && p < |promises| && outer < |promises| && (kind != Kind.Race ==> a < |aggs|)
      modifies this
      ensures State() == Combinators.WireInput(old(State()), kind, outer, a, i, p)
    {
      match kind
      case All =>
        var c1 := Then(p, Some(AllStore(a, i)), None);
        var _ := Catch(c1, Some(Rejecter(outer)));
      case AllSettled =>
        var c1 := Then(p, Some(SettledValue(a, i)), None);
        var c2 := Catch(c1, Some(SettledReason(a, i)));
        var _ := Finally(c2, SettledCount(a));
      case Race =>
        var c1 := Then(p, Some(Resolver(outer)), None);
        var _ := Catch(c1, Some(Rejecter(outer)));
      case Any =>
        var c1 := Then(p, Some(Resolver(outer)), None);
        var _ := Catch(c1, Some(AnyFail(a, i)));
    }

    /** `MyPromise.all`, `allSettled`, `race` or `any` on `ps`: the
        executor allocates its locals and wires every input in order. */
    method Combine(kind: Kind, ps: seq<PromiseId>) returns (outer: PromiseId)
      requires Valid() && InputsExist(ps, |promises|)
      modifies this
      ensures Valid() && (State(), outer) == Combinators.Combine(old(State()), kind, ps)
    {
      var a;
      outer, a := Allocate(kind, |ps|);
      ghost var w0 := State();
      for i := 0 to |ps|
        invariant InputsExist(ps[..i], |w0.promises|)
        invariant State() == WireInputs(w0, kind, outer, a, ps[..i])
      {
        WireInputsStep(w0, kind, outer, a, ps, i);
        WireInput(kind, outer, a, i, ps[i]);
      }
      assert ps[..|ps|] == ps;
    }

    /** `MyPromise.all(promises)`. */
    method All(ps: seq<PromiseId>) returns (outer: PromiseId)
      requires Valid() && InputsExist(ps, |promises|)
      modifies this
      ensures Valid() && (State(), outer) == Combinators.Combine(old(State()), Kind.All, ps)
    {
      outer := Combine(Kind.All, ps);
    }

    /** `MyPromise.allSettled(promises)`. */
    method AllSettled(ps: seq<PromiseId>) returns (outer: PromiseId)
      requires Valid() && InputsExist(ps, |promises|)
      modifies this
      ensures Valid() && (State(), outer) == Combinators.Combine(old(State()), Kind.AllSettled, ps)
    {
      outer := Combine(Kind.AllSettled, ps);
    }

    /** `MyPromise.race(promises)`. */
    method Race(ps: seq<PromiseId>) returns (outer: PromiseId)
      requires Valid() && InputsExist(ps, |promises|)
      modifies this
      ensures Valid() && (State(), outer) == Combinators.Combine(old(State()), Kind.Race, ps)
    {
      outer := Combine(Kind.Race, ps);
    }

    /** `MyPromise.any(promises)`. */
    method Any(ps: seq<PromiseId>) returns (outer: PromiseId)
      requires Valid() && InputsExist(ps, |promises|)
      modifies this
      ensures Valid() && (State(), outer) == Combinators.Combine(old(State()), Kind.Any, ps)
    {
      outer := Combine(Kind.Any, ps);
    }
  }
}
