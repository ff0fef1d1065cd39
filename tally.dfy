/** The combinators' shared locals: a results (or errors) array written by
    index and a completion counter compared with `promises.length`. */
module Tally {
  import opened PromiseData

  /** `results[i] = resp; count++` in `all`, `failures++; errors[i] = error`
      in `any`. */
  function Record(a: Agg, i: nat, v: Val): Agg
  {
    a.(slots := a.slots[i := v], counter := a.counter + 1)
  }

  /** `Record` writes slot `i`, keeps every other slot, and counts one more
      report. */
  lemma RecordWritesOneSlot(a: Agg, i: nat, v: Val)
    ensures var r := Record(a, i, v);
      && r.target == a.target && r.size == a.size && r.counter == a.counter + 1
      && r.slots.Keys == a.slots.Keys + {i} && r.slots[i] == v
      && forall j :: j in a.slots && j != i ==> r.slots[j] == a.slots[j]
  {
  }

  /** `results[i] = {...}` in the then and catch callbacks of `allSettled`. */
  function Put(a: Agg, i: nat, v: Val): Agg
  {
    a.(slots := a.slots[i := v])
  }

  /** `completed++` in the finally callback of `allSettled`. */
  function Bump(a: Agg): Agg
  {
    a.(counter := a.counter + 1)
  }

  /** In `allSettled` the record write and the counter bump split `Record`
      in two: `Put` writes slot `i` and keeps the count, `Bump` counts one
      more and keeps the slots, and together they are `Record`. */
  lemma PutThenBumpIsRecord(a: Agg, i: nat, v: Val)
    ensures var r := Put(a, i, v);
      && r.target == a.target && r.size == a.size && r.counter == a.counter
      && r.slots.Keys == a.slots.Keys + {i} && r.slots[i] == v
      && forall j :: j in a.slots && j != i ==> r.slots[j] == a.slots[j]
    ensures var r := Bump(a);
      r.target == a.target && r.size == a.size && r.slots == a.slots && r.counter == a.counter + 1
    ensures Bump(Put(a, i, v)) == Record(a, i, v)
  {
  }

  /** `count === promises.length` (and its `completed`, `failures` twins). */
  predicate Complete(a: Agg)
  {
    a.counter == a.size
  }

  /** The locals of a combinator before any input has reported. */
  function FreshAgg(target: PromiseId, size: nat): Agg
  {
    Agg(target, size, map[], 0)
  }

  /** Input number `index` delivered `value` to the combinator. */
  datatype Delivery = Delivery(index: nat, value: Val)

  /** The locals after the deliveries `ds`, in order, each through `Record`. */
  function RecordAll(a: Agg, ds: seq<Delivery>): (r: Agg)
    ensures r.target == a.target && r.size == a.size
    decreases |ds|
  {
    if ds == [] then a
    else
      var last := ds[|ds| - 1];
      Record(RecordAll(a, ds[..|ds| - 1]), last.index, last.value)
  }

  /** Every input reports at most once, and every index is an input position. */
  ghost predicate DistinctBelow(ds: seq<Delivery>, n: nat)
  {
    && (forall k :: 0 <= k < |ds| ==> ds[k].index < n)
    && (forall j, k :: 0 <= j < k < |ds| ==> ds[j].index != ds[k].index)
  }

  ghost function Indices(ds: seq<Delivery>): set<nat>
  {
    set k | 0 <= k < |ds| :: ds[k].index
  }

  /** The input positions 0 .. n-1. */
  ghost function Below(n: nat): (r: set<nat>)
    ensures forall i: nat :: i in r <==> i < n
  {
    if n == 0 then {} else Below(n - 1) + {n - 1}
  }

  lemma {:induction false} BelowSize(n: nat)
    ensures |Below(n)| == n
  {
    if n > 0 {
      BelowSize(n - 1);
    }
  }

  lemma {:induction false} IndicesSize(ds: seq<Delivery>, n: nat)
    requires DistinctBelow(ds, n)
    ensures |Indices(ds)| == |ds| && Indices(ds) <= Below(n)
  {
    if ds != [] {
      var init := ds[..|ds| - 1];
      assert DistinctBelow(init, n);
      IndicesSize(init, n);
      assert Indices(ds) == Indices(init) + {ds[|ds| - 1].index};
      assert ds[|ds| - 1].index !in Indices(init);
    }
  }

  lemma SubsetOfSameSize(s: set<nat>, t: set<nat>)
    requires s <= t && |s| == |t|
    ensures s == t
  {
    assert t == s + (t - s);
    assert s * (t - s) == {};
    assert |t - s| == 0;
  }

  /** No more deliveries than inputs, when each input reports at most once. */
  lemma AtMostOneDeliveryPerInput(ds: seq<Delivery>, n: nat)
    requires DistinctBelow(ds, n)
    ensures |ds| <= n
  {
    IndicesSize(ds, n);
    BelowSize(n);
    var s, t := Indices(ds), Below(n);
    assert t == s + (t - s);
    assert s * (t - s) == {};
  }

  lemma {:induction false} RecordAllCounts(a: Agg, ds: seq<Delivery>)
    ensures RecordAll(a, ds).counter == a.counter + |ds|
    ensures RecordAll(a, ds).slots.Keys == a.slots.Keys + Indices(ds)
    decreases |ds|
  {
    if ds != [] {
      var init := ds[..|ds| - 1];
      RecordAllCounts(a, init);
      assert Indices(ds) == Indices(init) + {ds[|ds| - 1].index};
    }
  }

  lemma {:induction false} RecordAllSlots(a: Agg, ds: seq<Delivery>)
    requires DistinctBelow(ds, a.size)
    ensures forall k :: 0 <= k < |ds| ==> ds[k].index in RecordAll(a, ds).slots
    ensures forall k :: 0 <= k < |ds| ==> RecordAll(a, ds).slots[ds[k].index] == ds[k].value
    decreases |ds|
  {
    if ds != [] {
      var init, last := ds[..|ds| - 1], ds[|ds| - 1];
      assert DistinctBelow(init, a.size);
      RecordAllSlots(a, init);
      var r0 := RecordAll(a, init);
      assert RecordAll(a, ds) == Record(r0, last.index, last.value);
      forall k | 0 <= k < |ds|
        ensures ds[k].index in RecordAll(a, ds).slots && RecordAll(a, ds).slots[ds[k].index] == ds[k].value
      {
        if k < |ds| - 1 {
          assert ds[k] == init[k];
          assert ds[k].index != last.index;
        }
      }
    }
  }

  /** The results written by a run of deliveries: one per delivery, under its
      own index, holding the delivered value; the counter counts them. */
  lemma RecordAllTallies(a: Agg, ds: seq<Delivery>)
    requires DistinctBelow(ds, a.size)
    ensures RecordAll(a, ds).counter == a.counter + |ds|
    ensures RecordAll(a, ds).slots.Keys == a.slots.Keys + Indices(ds)
    ensures forall k :: 0 <= k < |ds| ==> RecordAll(a, ds).slots[ds[k].index] == ds[k].value
  {
    RecordAllCounts(a, ds);
    RecordAllSlots(a, ds);
  }

  /** The counter of `all` and `any` reaches `promises.length` exactly when
      every input has reported, and then every index holds a result: as long
      as each input reports at most once, completion cannot come early or
      leave a hole. */
  lemma CompletesExactlyWhenEveryIndexIsFilled(target: PromiseId, ds: seq<Delivery>, n: nat)
    requires DistinctBelow(ds, n)
    ensures Complete(RecordAll(FreshAgg(target, n), ds)) <==> |ds| == n
    ensures Complete(RecordAll(FreshAgg(target, n), ds)) <==> RecordAll(FreshAgg(target, n), ds).slots.Keys == Below(n)
  {
    var a := FreshAgg(target, n);
    RecordAllTallies(a, ds);
    IndicesSize(ds, n);
    BelowSize(n);
    if |ds| == n {
      SubsetOfSameSize(Indices(ds), Below(n));
    }
  }
}
