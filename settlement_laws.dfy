/** What the state machine promises about settlement, handler runs and
    registration, stated over any number of microtasks. */
module SettlementLaws {
  import opened PromiseData
  import opened PromiseCore

  /** What settlement decides about a promise: its state and its value. */
  function Fate(p: PromiseRec): (Status, Val)
  {
    (p.state, p.value)
  }

  /** `n` microtasks, run one after another. */
  function Run(w: World, n: nat): (r: World)
    requires Valid(w)
    ensures Valid(r) && |r.promises| >= |w.promises| && |r.aggs| == |w.aggs|
    decreases n
  {
    if n == 0 then w else Run(Step(w).0, n - 1)
  }

  /** The task at the head of the queue settles its promise: the promise is
      pending, the value is not a promise, and it is not a rejection that
      nobody catches. */
  ghost predicate SettlesHead(w: World)
    requires Valid(w)
  {
    && w.queue != []
    && var t := w.queue[0];
    && var p := w.promises[t.id];
    && p.state == Pending
    && !t.value.PromiseRef?
    && !(t.state == Rejected && p.catchHandlers == [])
  }

  // ---------------------------------------------------------------------
  // First settlement wins.
  // ---------------------------------------------------------------------

  /** A settling task records the state and value and leaves both handler
      lists empty; no other promise changes state. */
  lemma SettlementRecordsOutcome(w: World)
    requires Valid(w) && SettlesHead(w)
    ensures Step(w).1 == Ran
    ensures Step(w).0.promises == w.promises[w.queue[0].id := PromiseRec(w.queue[0].state, w.queue[0].value, [], [])]
  {
    var t := w.queue[0];
    var w0 := w.(queue := w.queue[1..]);
    var p := w0.promises[t.id];
    var w1 := w0.(promises := w0.promises[t.id := p.(state := t.state, value := t.value)]);
    assert WellFormed(w1);
    assert Step(w) == (RunHandlers(w1, t.id), Ran);
  }

  /** A task for a promise that has already settled does nothing but leave
      the queue. */
  lemma LateSettlementIsIgnored(w: World)
    requires Valid(w) && w.queue != [] && w.promises[w.queue[0].id].state != Pending
    ensures Step(w) == (w.(queue := w.queue[1..]), Ran)
  {
  }

  /** The inductive step of `SettlementIsFinal`. */
  lemma FinalAfterStep(w: World, id: PromiseId, n: nat)
    requires Valid(w) && id < |w.promises| && w.promises[id].state != Pending && n > 0
    requires Fate(Run(Step(w).0, n - 1).promises[id]) == Fate(Step(w).0.promises[id])
    ensures Fate(Run(w, n).promises[id]) == Fate(w.promises[id])
  {
    StepKeepsSettled(w, id);
  }

  lemma StepKeepsSettled(w: World, id: PromiseId)
    requires Valid(w) && id < |w.promises| && w.promises[id].state != Pending
    ensures Fate(Step(w).0.promises[id]) == Fate(w.promises[id])
  {
    if w.queue != [] && SettlesHead(w) {
      assert w.queue[0].id != id;
    }
  }

  /** Once settled, a promise keeps its state and value through any number
      of later microtasks. */
  lemma {:induction false} SettlementIsFinal(w: World, id: PromiseId, n: nat)
    requires Valid(w) && id < |w.promises| && w.promises[id].state != Pending
    ensures Fate(Run(w, n).promises[id]) == Fate(w.promises[id])
    decreases n
  {
    if n > 0 {
      StepKeepsSettled(w, id);
      SettlementIsFinal(Step(w).0, id, n - 1);
      FinalAfterStep(w, id, n);
    }
  }

  /** The first task that settles a promise decides its state and value for
      good: every later resolve or reject is ignored. */
  lemma FirstSettlementWins(w: World, n: nat)
    requires Valid(w) && SettlesHead(w)
    ensures Run(w, n + 1).promises[w.queue[0].id].state == w.queue[0].state
    ensures Run(w, n + 1).promises[w.queue[0].id].value == w.queue[0].value
  {
    SettlementRecordsOutcome(w);
    SettlementIsFinal(Step(w).0, w.queue[0].id, n);
  }

  // ---------------------------------------------------------------------
  // Uncaught rejections and adoption.
  // ---------------------------------------------------------------------

  /** The uncaught-rejection error is raised exactly for a rejection task
      on a pending promise with no catch handler; the throw comes before the
      assignments, so the promise stays pending with its value unset. */
  lemma UncaughtRejectionExactly(w: World)
    requires Valid(w) && w.queue != []
    ensures Step(w).1.UncaughtPromiseError? <==>
      (var t := w.queue[0];
       var p := w.promises[t.id];
       p.state == Pending && !t.value.PromiseRef? && t.state == Rejected && p.catchHandlers == [])
    ensures Step(w).1.UncaughtPromiseError? ==>
      Step(w).1.error == w.queue[0].value && Step(w).0 == w.(queue := w.queue[1..])
  {
  }

  // ---------------------------------------------------------------------
  // Handler runs.
  // ---------------------------------------------------------------------

  /** Callables that do not touch the locals of a combinator. */
  predicate LocalFree(cb: Option<Callback>)
  {
    match cb
    case None => true
    case Some(c) =>
      || c.User? || c.Resolver? || c.Rejecter?
      || ((c.FinallyFulfil? || c.FinallyReject?) && c.cb.UserThunk?)
  }

  ghost predicate AllLocalFree(hs: seq<Handler>)
  {
    forall k :: 0 <= k < |hs| ==> LocalFree(hs[k].cb)
  }

  /** The tasks one handler closure posts when the parent settled in state
      `s` with value `v`, read off the rules of `then` and `finally`:
      - no callable: the child gets the parent's outcome unchanged;
      - a callable that returns resolves the child with the result (for the
        catch callback this is recovery), one that throws rejects it;
      - `_resolve`/`_reject` of another promise post that promise's task and
        return undefined, which then resolves the child;
      - the `finally` wrappers pass the value or rethrow the error, unless
        the callback itself throws. */
  function HandlerTasks(h: Handler, s: Status, v: Val): seq<Task>
    requires LocalFree(h.cb)
  {
    match h.cb
    case None => [Task(h.child, v, s)]
    case Some(User(f)) => [Task(h.child, f(v).value, if f(v).Returned? then Fulfilled else Rejected)]
    case Some(Resolver(t)) => [Task(t, v, Fulfilled), Task(h.child, Undefined, Fulfilled)]
    case Some(Rejecter(t)) => [Task(t, v, Rejected), Task(h.child, Undefined, Fulfilled)]
    case Some(FinallyFulfil(UserThunk(o))) =>
      if o.Threw? then [Task(h.child, o.value, Rejected)] else [Task(h.child, v, Fulfilled)]
    case Some(FinallyReject(UserThunk(o))) =>
      [Task(h.child, if o.Threw? then o.value else v, Rejected)]
  }

  /** The tasks of a handler list, in registration order. */
  function AllTasks(hs: seq<Handler>, s: Status, v: Val): seq<Task>
    requires AllLocalFree(hs)
    decreases |hs|
  {
    if hs == [] then [] else AllTasks(hs[..|hs| - 1], s, v) + HandlerTasks(hs[|hs| - 1], s, v)
  }

  /** A handler closure posts exactly the tasks the rules above give, and
      changes nothing else. */
  lemma DeliverPostsHandlerTasks(w: World, h: Handler, s: Status, v: Val)
    requires WellFormed(w) && HandlerOk(h, |w.promises|, |w.aggs|) && s != Pending && !v.PromiseRef?
    requires LocalFree(h.cb)
    ensures Deliver(w, h, s, v) == w.(queue := w.queue + HandlerTasks(h, s, v))
  {
    match h.cb
    case None =>
    case Some(cb) =>
      match cb
      case User(f) =>
      case Resolver(t) =>
      case Rejecter(t) =>
      case FinallyFulfil(th) =>
      case FinallyReject(th) =>
  }

  /** `for (const handler of handlers)`: each handler runs once, in
      registration order, and nothing but the queue changes. */
  lemma PrefixLocalFree(hs: seq<Handler>, np: nat, na: nat)
    requires HandlersOk(hs, np, na) && AllLocalFree(hs) && hs != []
    ensures HandlersOk(hs[..|hs| - 1], np, na) && AllLocalFree(hs[..|hs| - 1])
  {
    var init := hs[..|hs| - 1];
    forall k | 0 <= k < |init| ensures init[k] == hs[k] {}
  }

  lemma {:induction false} RunListPostsInOrder(w: World, hs: seq<Handler>, s: Status, v: Val)
    requires WellFormed(w) && HandlersOk(hs, |w.promises|, |w.aggs|) && s != Pending && !v.PromiseRef?
    requires AllLocalFree(hs)
    ensures RunList(w, hs, s, v) == w.(queue := w.queue + AllTasks(hs, s, v))
    decreases |hs|
  {
    if hs != [] {
      var init, last := hs[..|hs| - 1], hs[|hs| - 1];
      PrefixLocalFree(hs, |w.promises|, |w.aggs|);
      RunListPostsInOrder(w, init, s, v);
      var w1 := RunList(w, init, s, v);
      DeliverPostsHandlerTasks(w1, last, s, v);
      calc {
        RunList(w, hs, s, v);
        Deliver(w1, last, s, v);
        w1.(queue := w1.queue + HandlerTasks(last, s, v));
        { assert w1.queue + HandlerTasks(last, s, v) == w.queue + AllTasks(hs, s, v); }
        w.(queue := w.queue + AllTasks(hs, s, v));
      }
    }
  }

  /** A settling task runs the list that matches the outcome, and only that
      list, each handler once and in order, then empties both lists. */
  lemma SettlementPostsHandlersInOrder(w: World)
    requires Valid(w) && SettlesHead(w)
    requires var t := w.queue[0];
      AllLocalFree(if t.state == Fulfilled then w.promises[t.id].thenHandlers else w.promises[t.id].catchHandlers)
    ensures var t := w.queue[0];
      var hs := if t.state == Fulfilled then w.promises[t.id].thenHandlers else w.promises[t.id].catchHandlers;
      Step(w) == (World(w.promises[t.id := PromiseRec(t.state, t.value, [], [])], w.aggs,
                        w.queue[1..] + AllTasks(hs, t.state, t.value)), Ran)
  {
    var t := w.queue[0];
    var w0 := w.(queue := w.queue[1..]);
    var p := w0.promises[t.id];
    var w1 := w0.(promises := w0.promises[t.id := p.(state := t.state, value := t.value)]);
    var hs := if t.state == Fulfilled then p.thenHandlers else p.catchHandlers;
    assert WellFormed(w1);
    assert RecOk(w.promises[t.id], |w1.promises|, |w1.aggs|);
    RunListPostsInOrder(w1, hs, t.state, t.value);
    assert RunHandlers(w1, t.id) == ClearHandlers(RunList(w1, hs, t.state, t.value), t.id);
    assert p.(state := t.state, value := t.value).(thenHandlers := [], catchHandlers := [])
        == PromiseRec(t.state, t.value, [], []);
    assert w1.promises[t.id := PromiseRec(t.state, t.value, [], [])]
        == w.promises[t.id := PromiseRec(t.state, t.value, [], [])];
    assert Step(w) == (RunHandlers(w1, t.id), Ran);
  }

  /** Running a longer list only appends to what a prefix of it posted. */
  lemma {:induction false} RunListExtendsPrefix(w: World, hs: seq<Handler>, s: Status, v: Val, j: nat)
    requires WellFormed(w) && HandlersOk(hs, |w.promises|, |w.aggs|) && s != Pending && !v.PromiseRef?
    requires j <= |hs|
    ensures HandlersOk(hs[..j], |w.promises|, |w.aggs|)
    ensures RunList(w, hs[..j], s, v).queue <= RunList(w, hs, s, v).queue
    decreases |hs|
  {
    if j < |hs| {
      var init := hs[..|hs| - 1];
      assert init[..j] == hs[..j];
      RunListExtendsPrefix(w, init, s, v, j);
    } else {
      assert hs[..j] == hs;
    }
  }

  /** Every handler of a list that does not touch combinator locals posts
      its tasks while the list runs, whatever the other handlers are. */
  lemma RunListPostsHandler(w: World, hs: seq<Handler>, s: Status, v: Val, k: nat)
    requires WellFormed(w) && HandlersOk(hs, |w.promises|, |w.aggs|) && s != Pending && !v.PromiseRef?
    requires k < |hs| && LocalFree(hs[k].cb)
    ensures forall x :: x in HandlerTasks(hs[k], s, v) ==> x in RunList(w, hs, s, v).queue[|w.queue|..]
  {
    RunListExtendsPrefix(w, hs, s, v, k);
    RunListExtendsPrefix(w, hs, s, v, k + 1);
    var before := RunList(w, hs[..k], s, v);
    assert hs[..k + 1][..k] == hs[..k];
    assert RunList(w, hs[..k + 1], s, v) == Deliver(before, hs[k], s, v);
    DeliverPostsHandlerTasks(before, hs[k], s, v);
    var q := RunList(w, hs, s, v).queue;
    var ht := HandlerTasks(hs[k], s, v);
    assert before.queue + ht <= q;
    forall x | x in ht
      ensures x in q[|w.queue|..]
    {
      var m :| 0 <= m < |ht| && ht[m] == x;
      assert q[|before.queue| + m] == x;
      assert q[|w.queue|..][|before.queue| + m - |w.queue|] == x;
    }
  }

  /** When a task settles a promise, every handler of the matching list that
      does not touch combinator locals posts its tasks during that
      microtask, whatever the other handlers of the list are. */
  lemma SettledHandlerPosts(w: World, k: nat)
    requires Valid(w) && SettlesHead(w)
    requires var t := w.queue[0];
      k < |if t.state == Fulfilled then w.promises[t.id].thenHandlers else w.promises[t.id].catchHandlers|
    requires var t := w.queue[0];
      LocalFree((if t.state == Fulfilled then w.promises[t.id].thenHandlers else w.promises[t.id].catchHandlers)[k].cb)
    ensures Step(w).1 == Ran
    ensures var t := w.queue[0];
      var h := (if t.state == Fulfilled then w.promises[t.id].thenHandlers else w.promises[t.id].catchHandlers)[k];
      forall x :: x in HandlerTasks(h, t.state, t.value) ==> x in Step(w).0.queue[|w.queue| - 1..]
  {
    var t := w.queue[0];
    var w0 := w.(queue := w.queue[1..]);
    var p := w0.promises[t.id];
    var w1 := w0.(promises := w0.promises[t.id := p.(state := t.state, value := t.value)]);
    var hs := if t.state == Fulfilled then p.thenHandlers else p.catchHandlers;
    assert WellFormed(w1);
    assert RecOk(w.promises[t.id], |w1.promises|, |w1.aggs|);
    assert Step(w) == (RunHandlers(w1, t.id), Ran);
    assert RunHandlers(w1, t.id).queue == RunList(w1, hs, t.state, t.value).queue;
    RunListPostsHandler(w1, hs, t.state, t.value, k);
  }

  /** The only queued task settles a promise whose matching list holds the
      single handler `h`: afterwards the queue holds exactly `h`'s tasks. */
  lemma OnlyTaskRunsOnlyHandler(w: World, h: Handler)
    requires Valid(w) && SettlesHead(w) && |w.queue| == 1 && LocalFree(h.cb)
    requires var t := w.queue[0];
      (if t.state == Fulfilled then w.promises[t.id].thenHandlers else w.promises[t.id].catchHandlers) == [h]
    ensures var t := w.queue[0];
      Step(w) == (World(w.promises[t.id := PromiseRec(t.state, t.value, [], [])], w.aggs,
                        HandlerTasks(h, t.state, t.value)), Ran)
  {
    var t := w.queue[0];
    assert AllTasks([h], t.state, t.value) == HandlerTasks(h, t.state, t.value) by {
      assert [h][..0] == [];
    }
    SettlementPostsHandlersInOrder(w);
    assert w.queue[1..] == [];
  }

  // ---------------------------------------------------------------------
  // Registration.
  // ---------------------------------------------------------------------

  /** `then` on a pending parent appends one handler to each of its lists,
      both settling the new child, and runs nothing. */
  lemma ThenOnPendingParentRegisters(w: World, parent: PromiseId, onFulfil: Option<Callback>, onReject: Option<Callback>)
    requires WellFormed(w) && parent < |w.promises| && w.promises[parent].state == Pending
    requires OptCallbackOk(onFulfil, |w.promises|, |w.aggs|) && OptCallbackOk(onReject, |w.promises|, |w.aggs|)
    ensures var (r, c) := Then(w, parent, onFulfil, onReject);
      var p := w.promises[parent];
      && c == |w.promises|
      && r == w.(promises := (w.promises + [NewPromise()])[parent :=
                   p.(thenHandlers := p.thenHandlers + [Handler(c, onFulfil)],
                      catchHandlers := p.catchHandlers + [Handler(c, onReject)])])
  {
  }

  /** `then` on a settled parent runs the new handler that matches the
      parent's state at once, and leaves the parent's lists empty again. */
  lemma ThenOnSettledParentRunsAtOnce(w: World, parent: PromiseId, onFulfil: Option<Callback>, onReject: Option<Callback>)
    requires Valid(w) && parent < |w.promises| && w.promises[parent].state != Pending
    requires OptCallbackOk(onFulfil, |w.promises|, |w.aggs|) && OptCallbackOk(onReject, |w.promises|, |w.aggs|)
    requires LocalFree(onFulfil) && LocalFree(onReject)
    ensures var (r, c) := Then(w, parent, onFulfil, onReject);
      var p := w.promises[parent];
      && c == |w.promises|
      && r.promises == w.promises + [NewPromise()]
      && r.aggs == w.aggs
      && r.queue == w.queue + HandlerTasks(Handler(c, if p.state == Fulfilled then onFulfil else onReject), p.state, p.value)
  {
    var np := |w.promises|;
    var p := w.promises[parent];
    var w1 := Allocated(w);
    OptCallbackGrows(onFulfil, np, |w.aggs|, np + 1, |w.aggs|);
    OptCallbackGrows(onReject, np, |w.aggs|, np + 1, |w.aggs|);
    var p1 := p.(thenHandlers := p.thenHandlers + [Handler(np, onFulfil)],
                 catchHandlers := p.catchHandlers + [Handler(np, onReject)]);
    var w2 := w1.(promises := w1.promises[parent := p1]);
    var hs := if p.state == Fulfilled then p1.thenHandlers else p1.catchHandlers;
    assert hs == [Handler(np, if p.state == Fulfilled then onFulfil else onReject)];
    assert AllTasks(hs, p.state, p.value) == HandlerTasks(hs[0], p.state, p.value) by {
      assert hs[..0] == [];
    }
    RunListPostsInOrder(w2, hs, p.state, p.value);
    assert p1.(thenHandlers := [], catchHandlers := []) == p;
  }

  /** Settling a pending promise with another promise changes neither its
      state nor its value: it registers its own `_resolve` and `_reject` on
      the inner promise, and is settled by the inner outcome later. When the
      inner promise is the outer one, it waits on itself. */
  lemma AdoptionWaitsForInner(w: World)
    requires Valid(w) && w.queue != [] && w.queue[0].value.PromiseRef?
    requires w.promises[w.queue[0].id].state == Pending
    ensures var t := w.queue[0];
      var q := t.value.id;
      var c := |w.promises|;
      var r := Step(w);
      && r.1 == Ran
      && r.0.promises[t.id].state == Pending
      && r.0.promises[t.id].value == w.promises[t.id].value
      && (w.promises[q].state == Pending ==>
            && r.0.queue == w.queue[1..]
            && r.0.promises[q].thenHandlers == w.promises[q].thenHandlers + [Handler(c, Some(Resolver(t.id)))]
            && r.0.promises[q].catchHandlers == w.promises[q].catchHandlers + [Handler(c, Some(Rejecter(t.id)))])
      && (w.promises[q].state != Pending ==>
            r.0.queue == w.queue[1..] + [Task(t.id, w.promises[q].value, w.promises[q].state), Task(c, Undefined, Fulfilled)])
  {
    var t := w.queue[0];
    var q := t.value.id;
    var w0 := w.(queue := w.queue[1..]);
    if w.promises[q].state == Pending {
      ThenOnPendingParentRegisters(w0, q, Some(Resolver(t.id)), Some(Rejecter(t.id)));
    } else {
      ThenOnSettledParentRunsAtOnce(w0, q, Some(Resolver(t.id)), Some(Rejecter(t.id)));
    }
  }
}
