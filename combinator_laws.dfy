/** What `all`, `allSettled`, `race` and `any` register on their inputs, and
    how their shared counters decide when the combined promise settles. */
module CombinatorLaws {
  import opened PromiseData
  import opened Tally
  import opened PromiseCore
  import opened Combinators
  import opened SettlementLaws

  // ---------------------------------------------------------------------
  // Wiring.
  // ---------------------------------------------------------------------

  /** The callable a combinator passes to `then` on input `i`. */
  function OnFulfil(kind: Kind, outer: PromiseId, a: AggId, i: nat): Callback
  {
    match kind
    case All => AllStore(a, i)
    case AllSettled => SettledValue(a, i)
    case Race => Resolver(outer)
    case Any => Resolver(outer)
  }

  /** The callable a combinator passes to `catch` on the promise that `then`
      returned. */
  function OnReject(kind: Kind, outer: PromiseId, a: AggId, i: nat): Callback
  {
    match kind
    case All => Rejecter(outer)
    case AllSettled => SettledReason(a, i)
    case Race => Rejecter(outer)
    case Any => AnyFail(a, i)
  }

  /** Only `race` and `any` resolve the combined promise directly from the
      then callable, and only `race` and `all` reject it directly from the
      catch callable; every other callable writes the shared locals. */
  lemma CallablesTouchLocalsExactly(kind: Kind, outer: PromiseId, a: AggId, i: nat)
    ensures LocalFree(Some(OnFulfil(kind, outer, a, i))) <==> kind == Race || kind == Any
    ensures kind == Race || kind == Any ==> OnFulfil(kind, outer, a, i) == Resolver(outer)
    ensures LocalFree(Some(OnReject(kind, outer, a, i))) <==> kind == Race || kind == All
    ensures kind == Race || kind == All ==> OnReject(kind, outer, a, i) == Rejecter(outer)
  {
  }

  /** On a pending input `p` a combinator registers exactly: the fulfil
      callable and a pass-through on `p`; on the promise `then` returned, a
      pass-through and the reject callable; for `allSettled`, on the promise
      `catch` returned, the two `finally` wrappers of the counter. So an
      input's rejection reaches the reject callable one microtask after the
      input settles, and nothing else changes. */
  lemma WireInputOnPendingInput(w: World, kind: Kind, outer: PromiseId, a: AggId, i: nat, p: PromiseId)
    requires WellFormed(w) && p < |w.promises| && outer < |w.promises| && (kind != Race ==> a < |w.aggs|)
    requires w.promises[p].state == Pending
    ensures var r := WireInput(w, kind, outer, a, i, p);
      var c := |w.promises|;
      var q := w.promises[p];
      && r.queue == w.queue && r.aggs == w.aggs
      && |r.promises| == c + (if kind == AllSettled then 3 else 2)
      && r.promises[p].thenHandlers == q.thenHandlers + [Handler(c, Some(OnFulfil(kind, outer, a, i)))]
      && r.promises[p].catchHandlers == q.catchHandlers + [Handler(c, None)]
      && r.promises[c] == PromiseRec(Pending, Undefined, [Handler(c + 1, None)], [Handler(c + 1, Some(OnReject(kind, outer, a, i)))])
      && (kind == AllSettled ==>
            r.promises[c + 1] == PromiseRec(Pending, Undefined,
              [Handler(c + 2, Some(FinallyFulfil(SettledCount(a))))],
              [Handler(c + 2, Some(FinallyReject(SettledCount(a))))]))
      && forall id :: 0 <= id < c && id != p ==> r.promises[id] == w.promises[id]
  {
    var f := Some(OnFulfil(kind, outer, a, i));
    var g := Some(OnReject(kind, outer, a, i));
    ThenOnPendingParentRegisters(w, p, f, None);
    var (w1, c1) := Then(w, p, f, None);
    ThenOnPendingParentRegisters(w1, c1, None, g);
    if kind == AllSettled {
      var (w2, c2) := Catch(w1, c1, g);
      ThenOnPendingParentRegisters(w2, c2, Some(FinallyFulfil(SettledCount(a))), Some(FinallyReject(SettledCount(a))));
    }
  }

  // ---------------------------------------------------------------------
  // From an input's outcome to the combined promise.
  // ---------------------------------------------------------------------

  /** `race` and `any`: when a task fulfils an input, the then callable the
      combinator registered on it posts the fulfilment of the combined
      promise in that same microtask, whatever else the input's list holds. */
  lemma InputFulfilmentResolvesRaceAndAny(w: World, kind: Kind, outer: PromiseId, a: AggId, i: nat, k: nat)
    requires kind == Race || kind == Any
    requires Valid(w) && SettlesHead(w) && w.queue[0].state == Fulfilled
    requires k < |w.promises[w.queue[0].id].thenHandlers|
    requires w.promises[w.queue[0].id].thenHandlers[k].cb == Some(OnFulfil(kind, outer, a, i))
    ensures Step(w).1 == Ran
    ensures Task(outer, w.queue[0].value, Fulfilled) in Step(w).0.queue[|w.queue| - 1..]
  {
    SettledHandlerPosts(w, k);
  }

  /** Every combinator: when a task rejects an input, the pass-through
      catch handler that `then` registered posts the same rejection for the
      promise `then` returned, in that same microtask. */
  lemma InputRejectionPassesToThenChild(w: World, c: PromiseId, k: nat)
    requires Valid(w) && SettlesHead(w) && w.queue[0].state == Rejected
    requires k < |w.promises[w.queue[0].id].catchHandlers|
    requires w.promises[w.queue[0].id].catchHandlers[k] == Handler(c, None)
    ensures Step(w).1 == Ran
    ensures Task(c, w.queue[0].value, Rejected) in Step(w).0.queue[|w.queue| - 1..]
  {
    SettledHandlerPosts(w, k);
  }

  /** `race` and `all`: when that rejection reaches the promise `then`
      returned, the catch callable posts the rejection of the combined
      promise with the same error. */
  lemma ThenChildRejectionRejectsRaceAndAll(w: World, kind: Kind, outer: PromiseId, a: AggId, i: nat, k: nat)
    requires kind == Race || kind == All
    requires Valid(w) && SettlesHead(w) && w.queue[0].state == Rejected
    requires k < |w.promises[w.queue[0].id].catchHandlers|
    requires w.promises[w.queue[0].id].catchHandlers[k].cb == Some(OnReject(kind, outer, a, i))
    ensures Step(w).1 == Ran
    ensures Task(outer, w.queue[0].value, Rejected) in Step(w).0.queue[|w.queue| - 1..]
  {
    SettledHandlerPosts(w, k);
  }

  /** An input `p` whose only then handler resolves `outer`, and whose
      fulfilment is the only queued task: the next microtask posts the
      fulfilment of `outer` first, and a pending `outer` ends fulfilled with
      the input's value for good. */
  lemma ResolverPassesFulfilment(w: World, p: PromiseId, outer: PromiseId, c: PromiseId, v: Val, n: nat)
    requires Valid(w) && p < |w.promises| && outer < |w.promises| && outer != p
    requires w.promises[p].state == Pending && w.promises[p].thenHandlers == [Handler(c, Some(Resolver(outer)))]
    requires w.promises[outer].state == Pending
    requires w.queue == [Task(p, v, Fulfilled)] && !v.PromiseRef?
    ensures Run(w, 1).queue == [Task(outer, v, Fulfilled), Task(c, Undefined, Fulfilled)]
    ensures Run(w, n + 2).promises[outer].state == Fulfilled && Run(w, n + 2).promises[outer].value == v
  {
    OnlyTaskRunsOnlyHandler(w, Handler(c, Some(Resolver(outer))));
    var w1 := Step(w).0;
    assert Run(w, 1) == w1;
    FirstSettlementWins(w1, n);
  }

  /** `race` or `any` wired to a fresh input whose fulfilment is the only
      queued task: the next microtask posts the combined fulfilment first,
      and, when the combined promise was still pending, it ends fulfilled
      with the input's value for good. */
  lemma FulfilledInputSettlesCombined(w0: World, kind: Kind, outer: PromiseId, a: AggId, i: nat, p: PromiseId, v: Val, n: nat)
    requires kind == Race || kind == Any
    requires Valid(w0) && p < |w0.promises| && outer < |w0.promises| && outer != p && (kind != Race ==> a < |w0.aggs|)
    requires w0.promises[p] == NewPromise() && w0.promises[outer].state == Pending
    requires w0.queue == [Task(p, v, Fulfilled)] && !v.PromiseRef?
    ensures var w := WireInput(w0, kind, outer, a, i, p);
      && Valid(w)
      && Run(w, 1).queue == [Task(outer, v, Fulfilled), Task(|w0.promises|, Undefined, Fulfilled)]
      && Run(w, n + 2).promises[outer].state == Fulfilled
      && Run(w, n + 2).promises[outer].value == v
  {
    var w := WireInput(w0, kind, outer, a, i, p);
    WireInputOnPendingInput(w0, kind, outer, a, i, p);
    ResolverPassesFulfilment(w, p, outer, |w0.promises|, v, n);
  }

  /** An input `p` whose only catch handler passes through to `c`, and `c`
      whose only catch handler rejects `outer`, with the input's rejection
      the only queued task: one microtask hands the rejection to `c`, the
      next posts the rejection of `outer` first, and a pending `outer` with
      a catch handler ends rejected with the input's error for good. */
  lemma RejecterPassesRejection(w: World, p: PromiseId, c: PromiseId, outer: PromiseId, d: PromiseId, e: Val, n: nat)
    requires Valid(w) && p < |w.promises| && c < |w.promises| && outer < |w.promises|
    requires p != c && outer != p && outer != c
    requires w.promises[p].state == Pending && w.promises[p].catchHandlers == [Handler(c, None)]
    requires w.promises[c].state == Pending && w.promises[c].catchHandlers == [Handler(d, Some(Rejecter(outer)))]
    requires w.promises[outer].state == Pending && w.promises[outer].catchHandlers != []
    requires w.queue == [Task(p, e, Rejected)] && !e.PromiseRef?
    ensures Run(w, 1).queue == [Task(c, e, Rejected)]
    ensures Run(w, 2).queue == [Task(outer, e, Rejected), Task(d, Undefined, Fulfilled)]
    ensures Run(w, n + 3).promises[outer].state == Rejected && Run(w, n + 3).promises[outer].value == e
  {
    OnlyTaskRunsOnlyHandler(w, Handler(c, None));
    var w1 := Step(w).0;
    assert Run(w, 1) == w1;
    OnlyTaskRunsOnlyHandler(w1, Handler(d, Some(Rejecter(outer))));
    var w2 := Step(w1).0;
    assert Run(w, 2) == w2;
    FirstSettlementWins(w2, n);
  }

  /** `race` or `all` wired to a fresh input whose rejection is the only
      queued task: the rejection first passes to the promise `then`
      returned, and one microtask later the combined rejection is posted;
      when the combined promise was pending with a catch handler, it ends
      rejected with the input's error for good. */
  lemma RejectedInputSettlesCombined(w0: World, kind: Kind, outer: PromiseId, a: AggId, i: nat, p: PromiseId, e: Val, n: nat)
    requires kind == Race || kind == All
    requires Valid(w0) && p < |w0.promises| && outer < |w0.promises| && outer != p && (kind != Race ==> a < |w0.aggs|)
    requires w0.promises[p] == NewPromise()
    requires w0.promises[outer].state == Pending && w0.promises[outer].catchHandlers != []
    requires w0.queue == [Task(p, e, Rejected)] && !e.PromiseRef?
    ensures var w := WireInput(w0, kind, outer, a, i, p);
      var c := |w0.promises|;
      && Valid(w)
      && Run(w, 1).queue == [Task(c, e, Rejected)]
      && Run(w, 2).queue == [Task(outer, e, Rejected), Task(c + 1, Undefined, Fulfilled)]
      && Run(w, n + 3).promises[outer].state == Rejected
      && Run(w, n + 3).promises[outer].value == e
  {
    var w := WireInput(w0, kind, outer, a, i, p);
    var c := |w0.promises|;
    WireInputOnPendingInput(w0, kind, outer, a, i, p);
    RejecterPassesRejection(w, p, c, outer, c + 1, e, n);
  }

  // ---------------------------------------------------------------------
  // The counters of all, allSettled and any.
  // ---------------------------------------------------------------------

  /** Input `index` settled in `state` with `value`, and the combinator's
      callbacks for that outcome ran. */
  datatype Report = Report(index: nat, state: Status, value: Val)

  /** What a report stores at its index: the value for `all`, the error for
      `any`, a `{status, value}` or `{status, reason}` record for
      `allSettled`. */
  function Stored(kind: Kind, r: Report): Val
  {
    if kind == AllSettled then
      (if r.state == Fulfilled then FulfilledRecord(r.value) else RejectedRecord(r.value))
    else r.value
  }

  function Deliveries(kind: Kind, rs: seq<Report>): (ds: seq<Delivery>)
    ensures |ds| == |rs|
    ensures forall k :: 0 <= k < |rs| ==> ds[k] == Delivery(rs[k].index, Stored(kind, rs[k]))
  {
    seq(|rs|, k requires 0 <= k < |rs| => Delivery(rs[k].index, Stored(kind, rs[k])))
  }

  /** Reports a combinator's callbacks can receive: `all` counts fulfilments
      (its then callback), `any` counts rejections (its catch callback),
      `allSettled` both; no value is a promise, since a settled promise's
      value never is. */
  ghost predicate Reportable(kind: Kind, rs: seq<Report>)
  {
    forall k :: 0 <= k < |rs| ==>
      && !rs[k].value.PromiseRef?
      && rs[k].state != Pending
      && (kind == All ==> rs[k].state == Fulfilled)
      && (kind == Any ==> rs[k].state == Rejected)
  }

  /** The callbacks of a combinator for one report. In `allSettled` the
      record is written by the then or catch callback and the counter is
      bumped by the `finally` callback. */
  function ReportOne(w: World, kind: Kind, a: AggId, r: Report): (w': World)
    requires WellFormed(w) && a < |w.aggs| && kind != Race && !r.value.PromiseRef? && r.state != Pending
    ensures WellFormed(w') && w'.promises == w.promises && |w'.aggs| == |w.aggs| && w.queue <= w'.queue
  {
    match kind
    case All => Invoke(w, AllStore(a, r.index), r.value).0
    case Any => Invoke(w, AnyFail(a, r.index), r.value).0
    case AllSettled =>
      var w1 := Invoke(w, if r.state == Fulfilled then SettledValue(a, r.index) else SettledReason(a, r.index), r.value).0;
      RunThunk(w1, SettledCount(a)).0
  }

  /** The reports `rs`, in order. */
  function ReportAll(w: World, kind: Kind, a: AggId, rs: seq<Report>): (w': World)
    requires WellFormed(w) && a < |w.aggs| && kind != Race && Reportable(kind, rs)
    ensures WellFormed(w') && w'.promises == w.promises && |w'.aggs| == |w.aggs| && w.queue <= w'.queue
    decreases |rs|
  {
    if rs == [] then w
    else ReportOne(ReportAll(w, kind, a, rs[..|rs| - 1]), kind, a, rs[|rs| - 1])
  }

  /** The settlement a complete counter posts for the combined promise:
      `all` and `allSettled` fulfil with the results array, `any` rejects
      with the errors. */
  function FinalTask(kind: Kind, g: Agg): Task
  {
    if kind == Any then Task(g.target, AggregateError(g.slots), Rejected)
    else Task(g.target, Arr(g.slots), Fulfilled)
  }

  /** One report records its value under its index and bumps the counter,
      and posts the final settlement exactly when the counter reaches
      `promises.length`. */
  lemma ReportOneRecords(w: World, kind: Kind, a: AggId, r: Report)
    requires WellFormed(w) && a < |w.aggs| && kind != Race && !r.value.PromiseRef? && r.state != Pending
    requires kind == All ==> r.state == Fulfilled
    requires kind == Any ==> r.state == Rejected
    ensures var g := Record(w.aggs[a], r.index, Stored(kind, r));
      ReportOne(w, kind, a, r) ==
        w.(aggs := w.aggs[a := g], queue := w.queue + if Complete(g) then [FinalTask(kind, g)] else [])
  {
    if kind == AllSettled {
      var cb := if r.state == Fulfilled then SettledValue(a, r.index) else SettledReason(a, r.index);
      var w1 := Invoke(w, cb, r.value).0;
      assert w1.aggs[a] == Put(w.aggs[a], r.index, Stored(kind, r));
      assert Bump(w1.aggs[a]) == Record(w.aggs[a], r.index, Stored(kind, r));
      assert w1.aggs[a := Bump(w1.aggs[a])] == w.aggs[a := Record(w.aggs[a], r.index, Stored(kind, r))];
    }
  }

  /** Every input reports at most once, at its own index. */
  ghost predicate DistinctReports(rs: seq<Report>, n: nat)
  {
    && (forall k :: 0 <= k < |rs| ==> rs[k].index < n)
    && (forall j, k :: 0 <= j < k < |rs| ==> rs[j].index != rs[k].index)
  }

  lemma DistinctDeliveries(kind: Kind, rs: seq<Report>, n: nat)
    requires DistinctReports(rs, n)
    ensures DistinctBelow(Deliveries(kind, rs), n)
  {
  }

  /** A combinator's counter posts the combined promise's settlement once,
      at the report that completes it, and only if every one of its
      `promises.length` inputs has reported; the locals then hold the
      records of all the reports. With no input nothing ever reports, so
      nothing is posted. */
  lemma {:induction false} CounterFiresOnceAllReported(w: World, kind: Kind, a: AggId, rs: seq<Report>)
    requires WellFormed(w) && a < |w.aggs| && kind != Race && Reportable(kind, rs)
    requires w.aggs[a] == FreshAgg(w.aggs[a].target, w.aggs[a].size)
    requires DistinctReports(rs, w.aggs[a].size)
    ensures var g := RecordAll(w.aggs[a], Deliveries(kind, rs));
      ReportAll(w, kind, a, rs) ==
        w.(aggs := w.aggs[a := g],
           queue := w.queue + if |rs| == w.aggs[a].size && rs != [] then [FinalTask(kind, g)] else [])
    decreases |rs|
  {
    if rs != [] {
      var n := w.aggs[a].size;
      var init := rs[..|rs| - 1];
      assert Reportable(kind, init) && DistinctReports(init, n) by {
        forall k | 0 <= k < |init| ensures init[k] == rs[k] {}
      }
      CounterFiresOnceAllReported(w, kind, a, init);
      ReportStep(w, kind, a, rs);
    }
  }

  /** The inductive step of `CounterFiresOnceAllReported`: a report that is
      not the last input's changes only the locals. */
  lemma ReportStep(w: World, kind: Kind, a: AggId, rs: seq<Report>)
    requires WellFormed(w) && a < |w.aggs| && kind != Race && Reportable(kind, rs) && rs != []
    requires w.aggs[a] == FreshAgg(w.aggs[a].target, w.aggs[a].size)
    requires DistinctReports(rs, w.aggs[a].size)
    requires var init := rs[..|rs| - 1];
      Reportable(kind, init) &&
      ReportAll(w, kind, a, init) ==
        w.(aggs := w.aggs[a := RecordAll(w.aggs[a], Deliveries(kind, init))],
           queue := w.queue + if |init| == w.aggs[a].size && init != [] then [FinalTask(kind, RecordAll(w.aggs[a], Deliveries(kind, init)))] else [])
    ensures var g := RecordAll(w.aggs[a], Deliveries(kind, rs));
      ReportAll(w, kind, a, rs) ==
        w.(aggs := w.aggs[a := g],
           queue := w.queue + if |rs| == w.aggs[a].size then [FinalTask(kind, g)] else [])
  {
    var n := w.aggs[a].size;
    var init := rs[..|rs| - 1];
    var last := rs[|rs| - 1];
    var ds := Deliveries(kind, rs);
    DistinctDeliveries(kind, rs, n);
    AtMostOneDeliveryPerInput(ds, n);
    RecordAllTallies(w.aggs[a], ds);
    assert Deliveries(kind, init) == ds[..|ds| - 1];
    var g0 := RecordAll(w.aggs[a], Deliveries(kind, init));
    var g := RecordAll(w.aggs[a], ds);
    assert g == Record(g0, last.index, Stored(kind, last));
    var w1 := w.(aggs := w.aggs[a := g0]);
    assert ReportAll(w, kind, a, init) == w1;
    ReportOneRecords(w1, kind, a, last);
    assert w1.aggs[a := g] == w.aggs[a := g];
  }

  /** When the counter posts, the array it carries holds exactly one entry
      per input position 0 .. promises.length-1, each what that input
      reported. */
  lemma FinalArrayHoldsEveryReport(w: World, kind: Kind, a: AggId, rs: seq<Report>)
    requires WellFormed(w) && a < |w.aggs| && kind != Race && Reportable(kind, rs)
    requires w.aggs[a] == FreshAgg(w.aggs[a].target, w.aggs[a].size)
    requires DistinctReports(rs, w.aggs[a].size) && |rs| == w.aggs[a].size
    ensures var g := ReportAll(w, kind, a, rs).aggs[a];
      && Complete(g)
      && g.slots.Keys == Below(|rs|)
      && forall k :: 0 <= k < |rs| ==> g.slots[rs[k].index] == Stored(kind, rs[k])
  {
    var n := w.aggs[a].size;
    CounterFiresOnceAllReported(w, kind, a, rs);
    DistinctDeliveries(kind, rs, n);
    CompletesExactlyWhenEveryIndexIsFilled(w.aggs[a].target, Deliveries(kind, rs), n);
    RecordAllTallies(w.aggs[a], Deliveries(kind, rs));
  }
}
