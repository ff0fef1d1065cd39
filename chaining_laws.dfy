/** Short programs of constructors, `then` and `catch` followed by the
    microtasks they post, each run to the outcome the source promises. */
module ChainingLaws {
  import opened PromiseData
  import opened PromiseCore
  import opened SettlementLaws

  lemma OneHandlerTasks(h: Handler, s: Status, v: Val)
    requires LocalFree(h.cb)
    ensures AllTasks([h], s, v) == HandlerTasks(h, s, v)
  {
    assert [h][..0] == [];
  }

  /** `MyPromise.resolve(v)` with nothing queued before it: the next
      microtask fulfils the promise with `v`. */
  lemma StaticResolveFulfils(w: World, v: Val)
    requires Valid(w) && w.queue == [] && !v.PromiseRef?
    ensures var (w1, id) := ResolvedWith(w, v);
      var (w2, r) := Step(w1);
      r == Ran && w2.promises[id] == PromiseRec(Fulfilled, v, [], []) && w2.queue == []
  {
    var (w1, id) := ResolvedWith(w, v);
    assert w1.queue == [Task(id, v, Fulfilled)];
    SettlementPostsHandlersInOrder(w1);
  }

  /** `MyPromise.reject(e)` before anyone has called `catch` on it: the next
      microtask raises the uncaught-rejection error with `e`, and the promise
      stays pending. */
  lemma StaticRejectWithoutCatchIsUncaught(w: World, e: Val)
    requires Valid(w) && w.queue == [] && !e.PromiseRef?
    ensures var (w1, id) := RejectedWith(w, e);
      var (w2, r) := Step(w1);
      r == UncaughtPromiseError(e) && w2.promises[id] == NewPromise() && w2.queue == []
  {
    var (w1, id) := RejectedWith(w, e);
    assert w1.queue == [Task(id, e, Rejected)];
    UncaughtRejectionExactly(w1);
  }

  /** `MyPromise.reject(e).catch(f)`: the rejection reaches `f`, and what `f`
      returns fulfils the promise `catch` returned (recovery); a throw from
      `f` rejects it. When `f` returns a promise, the posted task carries it,
      and the child adopts it later. */
  lemma CatchRecoversRejection(w: World, e: Val, f: Val -> Outcome)
    requires Valid(w) && w.queue == [] && !e.PromiseRef?
    requires forall x :: f(x).value.PromiseRef? ==> f(x).value.id < |w.promises|
    ensures var (w1, id) := RejectedWith(w, e);
      var (w2, c) := Catch(w1, id, Some(User(f)));
      var (w3, r) := Step(w2);
      && r == Ran
      && w3.promises[id] == PromiseRec(Rejected, e, [], [])
      && w3.queue == [Task(c, f(e).value, if f(e).Returned? then Fulfilled else Rejected)]
  {
    var (w1, id) := RejectedWith(w, e);
    assert CallbackOk(User(f), |w1.promises|, |w1.aggs|);
    ThenOnPendingParentRegisters(w1, id, None, Some(User(f)));
    var (w2, c) := Catch(w1, id, Some(User(f)));
    assert w2.promises[id].catchHandlers == [Handler(c, Some(User(f)))];
    OnlyTaskRunsOnlyHandler(w2, Handler(c, Some(User(f))));
  }

  /** `MyPromise.reject(e).then(f)`: the `then` registers a catch handler
      too, so the rejection is not reported on the parent; it passes to the
      child unchanged without calling `f`, and it is the child, which has no
      catch handler, that raises the uncaught-rejection error and stays
      pending. */
  lemma ThenWithoutCatchPassesRejectionOn(w: World, e: Val, f: Val -> Outcome)
    requires Valid(w) && w.queue == [] && !e.PromiseRef?
    requires forall x :: f(x).value.PromiseRef? ==> f(x).value.id < |w.promises|
    ensures var (w1, id) := RejectedWith(w, e);
      var (w2, c) := Then(w1, id, Some(User(f)), None);
      var (w3, r3) := Step(w2);
      var (w4, r4) := Step(w3);
      && r3 == Ran
      && w3.promises[id] == PromiseRec(Rejected, e, [], [])
      && w3.queue == [Task(c, e, Rejected)]
      && r4 == UncaughtPromiseError(e)
      && w4.promises[c] == NewPromise()
  {
    var (w1, id) := RejectedWith(w, e);
    assert CallbackOk(User(f), |w1.promises|, |w1.aggs|);
    ThenOnPendingParentRegisters(w1, id, Some(User(f)), None);
    var (w2, c) := Then(w1, id, Some(User(f)), None);
    assert w2.promises[id].catchHandlers == [Handler(c, None)];
    OneHandlerTasks(Handler(c, None), Rejected, e);
    SettlementPostsHandlersInOrder(w2);
    var w3 := Step(w2).0;
    UncaughtRejectionExactly(w3);
  }

  /** An executor whose first call is `resolve(v)` fulfils its promise with
      `v` however many microtasks run after the first: later calls, and a
      later synchronous throw, are ignored. */
  lemma ExecutorFirstResolveWins(w: World, ex: Executor, n: nat)
    requires Valid(w) && w.queue == [] && ExecutorOk(ex, |w.promises|)
    requires ex.calls != [] && ex.calls[0].Resolve? && !ex.calls[0].value.PromiseRef?
    ensures var (w1, id) := Construct(w, ex);
      Run(w1, n + 1).promises[id].state == Fulfilled && Run(w1, n + 1).promises[id].value == ex.calls[0].value
  {
    var (w1, id) := Construct(w, ex);
    assert w1.queue[0] == Task(id, ex.calls[0].value, Fulfilled);
    FirstSettlementWins(w1, n);
  }

  /** A consequence of raising the uncaught-rejection error before the
      assignments: `reject(e)` followed by `resolve(v)` in one executor,
      with no catch handler registered in between, ends fulfilled with `v`. */
  lemma UncaughtRejectionLetsLaterResolveWin(w: World, e: Val, v: Val)
    requires Valid(w) && w.queue == []
    requires !e.PromiseRef? && !v.PromiseRef?
    ensures var (w1, id) := Construct(w, Executor([Reject(e), Resolve(v)], None));
      var (w2, r2) := Step(w1);
      var (w3, r3) := Step(w2);
      && r2 == UncaughtPromiseError(e) && w2.promises[id] == NewPromise()
      && r3 == Ran && w3.promises[id] == PromiseRec(Fulfilled, v, [], [])
  {
    var (w1, id) := Construct(w, Executor([Reject(e), Resolve(v)], None));
    assert w1.queue == [Task(id, e, Rejected), Task(id, v, Fulfilled)];
    UncaughtRejectionExactly(w1);
    var w2 := Step(w1).0;
    assert w2.queue == [Task(id, v, Fulfilled)];
    SettlementPostsHandlersInOrder(w2);
  }
}
