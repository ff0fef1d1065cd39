/** `MyPromise.all`, `allSettled`, `race` and `any` as functions over a
    `World`: each allocates the combined promise (and, except `race`, the
    locals its callbacks share), then wires every input in order. */
module Combinators {
  import opened PromiseData
  import opened Tally
  import opened PromiseCore

  datatype Kind = All | AllSettled | Race | Any

  ghost predicate InputsExist(ps: seq<PromiseId>, np: nat)
  {
    forall k :: 0 <= k < |ps| ==> ps[k] < np
  }

  /** The body of the `forEach` callback for input `p` at position `i`:
      - all:        p.then(AllStore(i)).catch(oReject)
      - allSettled: p.then(SettledValue(i)).catch(SettledReason(i)).finally(SettledCount)
      - race:       p.then(oResolve).catch(oReject)
      - any:        p.then(oResolve).catch(AnyFail(i)) */
  function WireInput(w: World, kind: Kind, outer: PromiseId, a: AggId, i: nat, p: PromiseId): (r: World)
    requires WellFormed(w) && p < |w.promises| && outer < |w.promises| && (kind != Race ==> a < |w.aggs|)
    ensures WellFormed(r) && (Quiet(w) ==> Quiet(r))
    ensures |r.promises| >= |w.promises| && |r.aggs| == |w.aggs| && w.queue <= r.queue
  {
    match kind
    case All =>
      var (w1, c1) := Then(w, p, Some(AllStore(a, i)), None);
      Catch(w1, c1, Some(Rejecter(outer))).0
    case AllSettled =>
      var (w1, c1) := Then(w, p, Some(SettledValue(a, i)), None);
      var (w2, c2) := Catch(w1, c1, Some(SettledReason(a, i)));
      Finally(w2, c2, SettledCount(a)).0
    case Race =>
      var (w1, c1) := Then(w, p, Some(Resolver(outer)), None);
      Catch(w1, c1, Some(Rejecter(outer))).0
    case Any =>
      var (w1, c1) := Then(w, p, Some(Resolver(outer)), None);
      Catch(w1, c1, Some(AnyFail(a, i))).0
  }

  /** `promises.forEach(...)` over the first |ps| inputs, in order. */
  function WireInputs(w: World, kind: Kind, outer: PromiseId, a: AggId, ps: seq<PromiseId>): (r: World)
    requires WellFormed(w) && InputsExist(ps, |w.promises|) && outer < |w.promises| && (kind != Race ==> a < |w.aggs|)
    ensures WellFormed(r) && (Quiet(w) ==> Quiet(r))
    ensures |r.promises| >= |w.promises| && |r.aggs| == |w.aggs| && w.queue <= r.queue
    decreases |ps|
  {
    if ps == [] then w
    else
      var init := ps[..|ps| - 1];
      var w1 := WireInputs(w, kind, outer, a, init);
      WireInput(w1, kind, outer, a, |ps| - 1, ps[|ps| - 1])
  }

  /** The `forEach` loop one input further on. */
  lemma WireInputsStep(w: World, kind: Kind, outer: PromiseId, a: AggId, ps: seq<PromiseId>, i: nat)
    requires WellFormed(w) && InputsExist(ps, |w.promises|) && outer < |w.promises| && (kind != Race ==> a < |w.aggs|)
    requires i < |ps|
    ensures InputsExist(ps[..i], |w.promises|) && InputsExist(ps[..i + 1], |w.promises|)
    ensures WireInputs(w, kind, outer, a, ps[..i + 1])
         == WireInput(WireInputs(w, kind, outer, a, ps[..i]), kind, outer, a, i, ps[i])
  {
    assert ps[..i + 1][..i] == ps[..i];
  }

  /** `new MyPromise(...)` for the combined promise, then the executor's
      locals (`results`/`errors` and the counter), which `race` does not
      have. */
  function Prepared(w: World, kind: Kind, n: nat): (r: World)
    requires Valid(w)
    ensures Valid(r) && |r.promises| == |w.promises| + 1 && r.promises[|w.promises|] == NewPromise()
    ensures forall id :: 0 <= id < |w.promises| ==> r.promises[id] == w.promises[id]
    ensures r.aggs == w.aggs + (if kind == Race then [] else [FreshAgg(|w.promises|, n)])
    ensures r.queue == w.queue
  {
    var w1 := Allocated(w);
    assert Quiet(w1);
    AddAggKeepsRefs(w1, FreshAgg(|w.promises|, n));
    if kind == Race then w1 else w1.(aggs := w1.aggs + [FreshAgg(|w.promises|, n)])
  }

  /** The combined promise is allocated first, then its locals, then the
      inputs are wired. `race` has no locals; it is given the index the next
      aggregate would take, which it never uses. */
  function Combine(w: World, kind: Kind, ps: seq<PromiseId>): (r: (World, PromiseId))
    requires Valid(w) && InputsExist(ps, |w.promises|)
    ensures Valid(r.0) && r.1 == |w.promises| && |r.0.promises| > r.1
    ensures |r.0.aggs| == |w.aggs| + (if kind == Race then 0 else 1)
    ensures w.queue <= r.0.queue
  {
    var w1 := Prepared(w, kind, |ps|);
    (WireInputs(w1, kind, |w.promises|, |w.aggs|, ps), |w.promises|)
  }
}
