/** A promise that nothing can settle stays pending through any number of
    microtasks; the promise `all`, `allSettled`, `race` or `any` returns for
    an empty input list is one. */
module PendingForever {
  import opened PromiseData
  import opened Tally
  import opened PromiseCore
  import opened Combinators
  import opened SettlementLaws

  /** The promise each combinator local settles, by AggId. */
  function Targets(aggs: seq<Agg>): (ts: seq<PromiseId>)
    ensures |ts| == |aggs| && forall a :: 0 <= a < |aggs| ==> ts[a] == aggs[a].target
  {
    seq(|aggs|, a requires 0 <= a < |aggs| => aggs[a].target)
  }

  lemma SameTargetUpdate(aggs: seq<Agg>, a: AggId, g: Agg)
    requires a < |aggs| && g.target == aggs[a].target
    ensures Targets(aggs[a := g]) == Targets(aggs)
  {
  }

  ghost predicate Aims(ts: seq<PromiseId>, a: AggId, x: PromiseId)
  {
    a < |ts| && ts[a] == x
  }

  ghost predicate ThunkSpares(ts: seq<PromiseId>, th: Thunk, x: PromiseId)
  {
    th.SettledCount? ==> !Aims(ts, th.agg, x)
  }

  /** Calling `cb` never posts a task for `x`. */
  ghost predicate CallbackSpares(ts: seq<PromiseId>, cb: Callback, x: PromiseId)
  {
    match cb
    case User(_) => true
    case Resolver(t) => t != x
    case Rejecter(t) => t != x
    case FinallyFulfil(th) => ThunkSpares(ts, th, x)
    case FinallyReject(th) => ThunkSpares(ts, th, x)
    case AllStore(a, _) => !Aims(ts, a, x)
    case SettledValue(_, _) => true
    case SettledReason(_, _) => true
    case AnyFail(a, _) => !Aims(ts, a, x)
  }

  ghost predicate HandlerSpares(ts: seq<PromiseId>, h: Handler, x: PromiseId)
  {
    h.child != x && (h.cb.Some? ==> CallbackSpares(ts, h.cb.value, x))
  }

  ghost predicate HandlersSpare(ts: seq<PromiseId>, hs: seq<Handler>, x: PromiseId)
  {
    forall k :: 0 <= k < |hs| ==> HandlerSpares(ts, hs[k], x)
  }

  ghost predicate RecSpares(ts: seq<PromiseId>, p: PromiseRec, x: PromiseId)
  {
    HandlersSpare(ts, p.thenHandlers, x) && HandlersSpare(ts, p.catchHandlers, x)
  }

  /** No queued task is for `x`, and no handler anywhere posts one. */
  ghost predicate Untargeted(w: World, x: PromiseId)
  {
    && x < |w.promises|
    && (forall k :: 0 <= k < |w.queue| ==> w.queue[k].id != x)
    && (forall id :: 0 <= id < |w.promises| ==> RecSpares(Targets(w.aggs), w.promises[id], x))
  }

  lemma InvokeSpares(w: World, cb: Callback, v: Val, x: PromiseId)
    requires WellFormed(w) && CallbackOk(cb, |w.promises|, |w.aggs|) && !v.PromiseRef?
    requires Untargeted(w, x) && CallbackSpares(Targets(w.aggs), cb, x)
    ensures Targets(Invoke(w, cb, v).0.aggs) == Targets(w.aggs) && Untargeted(Invoke(w, cb, v).0, x)
  {
    match cb
    case User(_) =>
    case Resolver(_) =>
    case Rejecter(_) =>
    case FinallyFulfil(th) =>
      if th.SettledCount? {
        SameTargetUpdate(w.aggs, th.agg, Bump(w.aggs[th.agg]));
      }
    case FinallyReject(th) =>
      if th.SettledCount? {
        SameTargetUpdate(w.aggs, th.agg, Bump(w.aggs[th.agg]));
      }
    case AllStore(a, i) =>
      SameTargetUpdate(w.aggs, a, Record(w.aggs[a], i, v));
    case SettledValue(a, i) =>
      SameTargetUpdate(w.aggs, a, Put(w.aggs[a], i, FulfilledRecord(v)));
    case SettledReason(a, i) =>
      SameTargetUpdate(w.aggs, a, Put(w.aggs[a], i, RejectedRecord(v)));
    case AnyFail(a, i) =>
      SameTargetUpdate(w.aggs, a, Record(w.aggs[a], i, v));
  }

  lemma DeliverSpares(w: World, h: Handler, s: Status, v: Val, x: PromiseId)
    requires WellFormed(w) && HandlerOk(h, |w.promises|, |w.aggs|) && s != Pending && !v.PromiseRef?
    requires Untargeted(w, x) && HandlerSpares(Targets(w.aggs), h, x)
    ensures Targets(Deliver(w, h, s, v).aggs) == Targets(w.aggs) && Untargeted(Deliver(w, h, s, v), x)
  {
    if h.cb.Some? {
      InvokeSpares(w, h.cb.value, v, x);
    }
  }

  lemma {:induction false} RunListSpares(w: World, hs: seq<Handler>, s: Status, v: Val, x: PromiseId)
    requires WellFormed(w) && HandlersOk(hs, |w.promises|, |w.aggs|) && s != Pending && !v.PromiseRef?
    requires Untargeted(w, x) && HandlersSpare(Targets(w.aggs), hs, x)
    ensures Targets(RunList(w, hs, s, v).aggs) == Targets(w.aggs) && Untargeted(RunList(w, hs, s, v), x)
    decreases |hs|
  {
    if hs != [] {
      var init := hs[..|hs| - 1];
      assert HandlersOk(init, |w.promises|, |w.aggs|) && HandlersSpare(Targets(w.aggs), init, x) by {
        forall k | 0 <= k < |init| ensures init[k] == hs[k] {}
      }
      RunListSpares(w, init, s, v, x);
      DeliverSpares(RunList(w, init, s, v), hs[|hs| - 1], s, v, x);
    }
  }

  lemma RunHandlersSpares(w: World, id: PromiseId, x: PromiseId)
    requires WellFormed(w) && id < |w.promises| && Untargeted(w, x)
    ensures Targets(RunHandlers(w, id).aggs) == Targets(w.aggs) && Untargeted(RunHandlers(w, id), x)
  {
    var p := w.promises[id];
    if p.state != Pending {
      var hs := if p.state == Fulfilled then p.thenHandlers else p.catchHandlers;
      assert RecSpares(Targets(w.aggs), p, x);
      RunListSpares(w, hs, p.state, p.value, x);
      var w1 := RunList(w, hs, p.state, p.value);
      var r := ClearHandlers(w1, id);
      forall j | 0 <= j < |r.promises|
        ensures RecSpares(Targets(r.aggs), r.promises[j], x)
      {
        if j != id {
          assert r.promises[j] == w1.promises[j];
        }
      }
    }
  }

  lemma ThenSpares(w: World, parent: PromiseId, onFulfil: Option<Callback>, onReject: Option<Callback>, x: PromiseId)
    requires WellFormed(w) && parent < |w.promises|
    requires OptCallbackOk(onFulfil, |w.promises|, |w.aggs|) && OptCallbackOk(onReject, |w.promises|, |w.aggs|)
    requires Untargeted(w, x)
    requires onFulfil.Some? ==> CallbackSpares(Targets(w.aggs), onFulfil.value, x)
    requires onReject.Some? ==> CallbackSpares(Targets(w.aggs), onReject.value, x)
    ensures Targets(Then(w, parent, onFulfil, onReject).0.aggs) == Targets(w.aggs)
    ensures Untargeted(Then(w, parent, onFulfil, onReject).0, x)
  {
    var np := |w.promises|;
    var w1 := Allocated(w);
    var p := w1.promises[parent];
    OptCallbackGrows(onFulfil, np, |w.aggs|, np + 1, |w.aggs|);
    OptCallbackGrows(onReject, np, |w.aggs|, np + 1, |w.aggs|);
    var p1 := p.(thenHandlers := p.thenHandlers + [Handler(np, onFulfil)],
                 catchHandlers := p.catchHandlers + [Handler(np, onReject)]);
    var w2 := w1.(promises := w1.promises[parent := p1]);
    forall j | 0 <= j < |w2.promises|
      ensures RecSpares(Targets(w2.aggs), w2.promises[j], x)
    {
      if j == parent {
        assert RecSpares(Targets(w.aggs), w.promises[parent], x);
      } else if j < np {
        assert w2.promises[j] == w.promises[j];
      }
    }
    RunHandlersSpares(w2, parent, x);
  }

  /** One microtask keeps `x` untargeted and leaves its state and value as
      they were. */
  lemma StepSpares(w: World, x: PromiseId)
    requires Valid(w) && Untargeted(w, x)
    ensures Untargeted(Step(w).0, x)
    ensures Step(w).0.promises[x].state == w.promises[x].state
    ensures Step(w).0.promises[x].value == w.promises[x].value
  {
    if w.queue != [] {
      var t := w.queue[0];
      var w0 := w.(queue := w.queue[1..]);
      var p := w0.promises[t.id];
      assert t.id != x;
      if p.state != Pending {
      } else if t.value.PromiseRef? {
        ThenSpares(w0, t.value.id, Some(Resolver(t.id)), Some(Rejecter(t.id)), x);
      } else if t.state == Rejected && p.catchHandlers == [] {
      } else {
        var w1 := w0.(promises := w0.promises[t.id := p.(state := t.state, value := t.value)]);
        assert WellFormed(w1);
        forall j | 0 <= j < |w1.promises|
          ensures RecSpares(Targets(w1.aggs), w1.promises[j], x)
        {
          assert RecSpares(Targets(w0.aggs), w0.promises[j], x);
        }
        RunHandlersSpares(w1, t.id, x);
        assert Step(w).0 == RunHandlers(w1, t.id);
      }
    }
  }

  /** An untargeted promise keeps its state and value for good. */
  lemma {:induction false} UntargetedNeverChanges(w: World, x: PromiseId, n: nat)
    requires Valid(w) && Untargeted(w, x)
    ensures Run(w, n).promises[x].state == w.promises[x].state
    ensures Run(w, n).promises[x].value == w.promises[x].value
    decreases n
  {
    if n > 0 {
      StepSpares(w, x);
      UntargetedNeverChanges(Step(w).0, x, n - 1);
    }
  }

  lemma OkCallbackSpares(ts: seq<PromiseId>, cb: Callback, np: nat, na: nat)
    requires CallbackOk(cb, np, na) && na <= |ts|
    requires forall a :: 0 <= a < na ==> ts[a] < np
    ensures CallbackSpares(ts, cb, np)
  {
  }

  /** Everything a well-formed world refers to exists, so a promise it has
      not allocated yet is untargeted the moment it is allocated. */
  lemma FreshPromiseIsUntargeted(w: World, kind: Kind, n: nat)
    requires Valid(w)
    ensures Untargeted(Prepared(w, kind, n), |w.promises|)
  {
    var np := |w.promises|;
    var r := Prepared(w, kind, n);
    var ts := Targets(r.aggs);
    forall id | 0 <= id < |r.promises|
      ensures RecSpares(ts, r.promises[id], np)
    {
      if id < np {
        var p := w.promises[id];
        assert RecOk(p, np, |w.aggs|);
        forall k | 0 <= k < |p.thenHandlers|
          ensures HandlerSpares(ts, p.thenHandlers[k], np)
        {
          assert HandlerOk(p.thenHandlers[k], np, |w.aggs|);
          if p.thenHandlers[k].cb.Some? {
            OkCallbackSpares(ts, p.thenHandlers[k].cb.value, np, |w.aggs|);
          }
        }
        forall k | 0 <= k < |p.catchHandlers|
          ensures HandlerSpares(ts, p.catchHandlers[k], np)
        {
          assert HandlerOk(p.catchHandlers[k], np, |w.aggs|);
          if p.catchHandlers[k].cb.Some? {
            OkCallbackSpares(ts, p.catchHandlers[k].cb.value, np, |w.aggs|);
          }
        }
      }
    }
  }

  /** `all([])`, `allSettled([])`, `race([])` and `any([])` return a
      promise that stays pending, with its value unset, however many
      microtasks run: with no input no callback ever runs, so no counter is
      ever compared with `promises.length` and nothing posts a settlement. */
  lemma EmptyCombinatorNeverSettles(w: World, kind: Kind, n: nat)
    requires Valid(w)
    ensures var (w1, outer) := Combine(w, kind, []);
      Run(w1, n).promises[outer].state == Pending && Run(w1, n).promises[outer].value == Undefined
  {
    var (w1, outer) := Combine(w, kind, []);
    assert w1 == Prepared(w, kind, 0);
    FreshPromiseIsUntargeted(w, kind, 0);
    UntargetedNeverChanges(w1, outer, n);
  }
}
