/** Writing a planned Flow graph with no transaction (internal/ingest/flow_graph.go:132-207): a PUT whose reply
    is lost may have committed, and every Flow's disposition must still tell the truth. Flow IDs are
    distinct within a graph and within the results. */
module FlowGraphCommit {

  datatype Disposition = Planned | Unchanged | Written | Indeterminate | Unattempted

  datatype FlowResult = FlowResult(id: string, disposition: Disposition)

  // changed is false exactly when the store already holds the value.
  datatype Plan = Plan(id: string, effective: int, changed: bool)

  class FlowStore {
    const reliable: bool    // takes every write
    var flows: map<string, int>

    // A PUT that fails may have taken effect.
    method Put(id: string, value: int) returns (ok: bool)
      modifies this
      ensures flows == old(flows)[id := value] || (!ok && flows == old(flows))
      ensures reliable ==> ok
    {
      ok := *;
      ok := ok || reliable;
      var committed := *;
      if ok || committed {
        flows := flows[id := value];
      }
    }
  }

  ghost predicate DistinctResults(results: seq<FlowResult>) { forall i, j :: 0 <= i < j < |results| ==> results[i].id != results[j].id }

  ghost predicate DistinctPlans(plans: seq<Plan>) { forall i, j :: 0 <= i < j < |plans| ==> plans[i].id != plans[j].id }

  // The first result with this ID, and with distinct IDs the only one.
  method SetFlowDisposition(results: array<FlowResult>, id: string, d: Disposition)
    requires DistinctResults(results[..])
    modifies results
    ensures forall j :: 0 <= j < results.Length ==> results[j] == if old(results[j]).id == id then FlowResult(id, d) else old(results[j])
    ensures DistinctResults(results[..])
  {
    var j := 0;
    while j < results.Length
      invariant 0 <= j <= results.Length && results[..] == old(results[..])
      invariant forall i :: 0 <= i < j ==> results[i].id != id
    {
      if results[j].id == id {
        results[j] := results[j].(disposition := d);
        assert forall i :: 0 <= i < results.Length && i != j ==> results[i] == old(results[..])[i];
        return;
      }
      j := j + 1;
    }
  }

  // What the k-th Flow of the graph is when the write at failedAt failed, or none did.
  function Expected(plan: Plan, k: nat, failedAt: nat): Disposition {
    if !plan.changed then Unchanged
    else if k < failedAt then Written
    else if k == failedAt then Indeterminate
    else Unattempted
  }

  ghost predicate Shows(results: seq<FlowResult>, plan: Plan, d: Disposition) {
    forall j :: 0 <= j < |results| && results[j].id == plan.id ==> results[j].disposition == d
  }

  // A disposition and the store.
  ghost predicate True(d: Disposition, plan: Plan, before: map<string, int>, after: map<string, int>) {
    match d
    case Written => plan.id in after && after[plan.id] == plan.effective
    case Indeterminate => SameAt(plan.id, before, after) || (plan.id in after && after[plan.id] == plan.effective)
    case _ => SameAt(plan.id, before, after)
  }

  ghost predicate SameAt(id: string, before: map<string, int>, after: map<string, int>) {
    (id in before <==> id in after) && (id in before ==> before[id] == after[id])
  }

  // Not part of this graph.
  ghost predicate Foreign(plans: seq<Plan>, id: string) { forall k :: 0 <= k < |plans| ==> plans[k].id != id }

  // An unchanged Flow says so; a changed one was written before the failure, is in doubt at it, or was not tried.
  ghost predicate Settled(results: seq<FlowResult>, plans: seq<Plan>, failedAt: nat) {
    forall k :: 0 <= k < |plans| ==>
      && (!plans[k].changed ==> Shows(results, plans[k], Unchanged))
      && (plans[k].changed && k < failedAt ==> Shows(results, plans[k], Written))
      && (plans[k].changed && k == failedAt ==> Shows(results, plans[k], Indeterminate))
      && (plans[k].changed && k > failedAt ==> Shows(results, plans[k], Unattempted))
  }

  /** Every Flow of the graph ends with a disposition that is true of the store: written Flows are there,
      unattempted and unchanged ones are as they were, and the only doubt is about the write that
      failed. */
  method CommitFlowGraph(store: FlowStore, plans: seq<Plan>, results: array<FlowResult>) returns (ok: bool, ghost failedAt: nat)
    requires DistinctPlans(plans) && DistinctResults(results[..])
    modifies store, results
    ensures ok <==> failedAt == |plans|
    ensures store.reliable ==> ok
    ensures failedAt < |plans| ==> plans[failedAt].changed
    ensures Settled(results[..], plans, failedAt)
    ensures forall k :: 0 <= k < |plans| ==> True(Expected(plans[k], k, failedAt), plans[k], old(store.flows), store.flows)
    ensures forall id :: Foreign(plans, id) ==> SameAt(id, old(store.flows), store.flows)
  {
    MarkWhere(plans, 0, false, Unchanged, results);
    var stopped: nat;
    ok, stopped := WriteAll(store, plans, results);
    failedAt := stopped;
    if !ok {
      MarkWhere(plans, stopped + 1, true, Unattempted, results);
    }
  }

  // The writes, up to the one that fails; Flows after it keep the results they had.
  method WriteAll(store: FlowStore, plans: seq<Plan>, results: array<FlowResult>) returns (ok: bool, failedAt: nat)
    requires DistinctPlans(plans) && DistinctResults(results[..])
    requires forall i :: 0 <= i < |plans| && !plans[i].changed ==> Shows(results[..], plans[i], Unchanged)
    modifies store, results
    ensures DistinctResults(results[..]) && failedAt <= |plans| && (ok <==> failedAt == |plans|) && (store.reliable ==> ok)
    ensures failedAt < |plans| ==> plans[failedAt].changed
    ensures forall i :: 0 <= i < |plans| && (i <= failedAt || !plans[i].changed) ==> Shows(results[..], plans[i], Expected(plans[i], i, failedAt))
    ensures forall i :: 0 <= i < |plans| ==> True(Expected(plans[i], i, failedAt), plans[i], old(store.flows), store.flows)
    ensures forall id :: Foreign(plans, id) ==> SameAt(id, old(store.flows), store.flows)
  {
    var k := 0;
    ok := true;
    while k < |plans|
      invariant 0 <= k <= |plans| && DistinctResults(results[..])
      invariant forall i :: 0 <= i < |plans| && (i < k || !plans[i].changed) ==> Shows(results[..], plans[i], Expected(plans[i], i, |plans|))
      invariant forall i :: 0 <= i < k ==> True(Expected(plans[i], i, |plans|), plans[i], old(store.flows), store.flows)
      invariant forall i :: k <= i < |plans| ==> SameAt(plans[i].id, old(store.flows), store.flows)
      invariant forall id :: Foreign(plans, id) ==> SameAt(id, old(store.flows), store.flows)
    {
      if plans[k].changed {
        ok := store.Put(plans[k].id, plans[k].effective);
        SetFlowDisposition(results, plans[k].id, if ok then Written else Indeterminate);
        if !ok {
          return false, k;
        }
      }
      k := k + 1;
    }
    return true, |plans|;
  }

  // Gives the Flows from a position on, changed or unchanged, one disposition.
  method MarkWhere(plans: seq<Plan>, first: nat, changed: bool, d: Disposition, results: array<FlowResult>)
    requires DistinctPlans(plans) && DistinctResults(results[..]) && first <= |plans|
    modifies results
    ensures DistinctResults(results[..])
    ensures forall k :: first <= k < |plans| && plans[k].changed == changed ==> Shows(results[..], plans[k], d)
    ensures forall k, e :: 0 <= k < |plans| && !(first <= k && plans[k].changed == changed) && old(Shows(results[..], plans[k], e)) ==> Shows(results[..], plans[k], e)
  {
    var k := first;
    while k < |plans|
      invariant first <= k <= |plans| && DistinctResults(results[..])
      invariant forall i :: first <= i < k && plans[i].changed == changed ==> Shows(results[..], plans[i], d)
      invariant forall i, e :: 0 <= i < |plans| && !(first <= i < k && plans[i].changed == changed) && old(Shows(results[..], plans[i], e)) ==> Shows(results[..], plans[i], e)
    {
      if plans[k].changed == changed {
        SetFlowDisposition(results, plans[k].id, d);
      }
      k := k + 1;
    }
  }
}
