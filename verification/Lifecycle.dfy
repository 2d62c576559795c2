/** Publishing Object results (observeObjectBatch of internal/ingest/lifecycle.go): each result
    is handed to the lifecycle observer at most once, and never contradicted afterwards. */
module Lifecycle {
  import opened ObjectResults
  import Verification

  function Public(r: ObjectResult): ObjectResult { r.(reported := false) }

  function Reporting(results: seq<ObjectResult>, ids: set<string>): seq<ObjectResult> {
    if results == [] then []
    else
      var last := results[|results| - 1];
      Reporting(results[..|results| - 1], ids) + [if last.objectId in ids then last.(reported := true) else last]
  }

  function Batch(results: seq<ObjectResult>, ids: set<string>): seq<ObjectResult> {
    if results == [] then []
    else
      var last := results[|results| - 1];
      Batch(results[..|results| - 1], ids) + if !last.reported && last.objectId in ids then [Public(last)] else []
  }

  function Reported(r: ObjectResult, ids: set<string>): ObjectResult {
    if r.objectId in ids then r.(reported := true) else r
  }

  lemma {:induction false} ReportingEach(results: seq<ObjectResult>, ids: set<string>)
    ensures |Reporting(results, ids)| == |results|
    ensures forall k :: 0 <= k < |results| ==> Reporting(results, ids)[k] == Reported(results[k], ids)
  {
    if results != [] {
      ReportingEach(results[..|results| - 1], ids);
    }
  }

  ghost function ReportedView(view: map<string, ObjectResult>, ids: set<string>): map<string, ObjectResult> {
    map id | id in view :: Reported(view[id], ids)
  }

  lemma {:induction false} ReportedEach(before: seq<ObjectResult>, after: seq<ObjectResult>, ids: set<string>)
    requires |before| == |after| && forall k :: 0 <= k < |before| ==> after[k] == Reported(before[k], ids)
    ensures ById(after) == ReportedView(ById(before), ids)
    ensures Distinct(before) ==> Distinct(after)
  {
    if before != [] {
      ReportedEach(before[1..], after[1..], ids);
    }
  }

  // Publication marks exactly the selected entries.
  lemma {:induction false} ReportingView(results: seq<ObjectResult>, ids: set<string>)
    ensures ById(Reporting(results, ids)) == ReportedView(ById(results), ids)
    ensures Distinct(results) ==> Distinct(Reporting(results, ids))
  {
    ReportingEach(results, ids);
    ReportedEach(results, Reporting(results, ids), ids);
  }

  lemma {:induction false} DistinctView(results: seq<ObjectResult>)
    requires Distinct(results)
    ensures forall r :: r in results ==> r.objectId in ById(results) && ById(results)[r.objectId] == r
    ensures forall id :: id in ById(results) ==> ById(results)[id] in results && ById(results)[id].objectId == id
  {
    if results != [] {
      DistinctView(results[1..]);
    }
  }

  // What a batch publishes: each selected, not yet published result, once.
  lemma {:induction false} BatchSound(results: seq<ObjectResult>, ids: set<string>)
    requires Distinct(results)
    ensures forall r :: r in Batch(results, ids) ==> r.objectId in ids && exists e :: e in results && !e.reported && r == Public(e)
    ensures forall e :: e in results && !e.reported && e.objectId in ids ==> Public(e) in Batch(results, ids)
    ensures Distinct(Batch(results, ids))
  {
    if results != [] {
      BatchSound(results[..|results| - 1], ids);
    }
  }

  /** Every published record still describes its Object, no Object was published twice, and
      the reported flag says exactly which Objects were published. */
  ghost predicate PublishedFinal(published: seq<ObjectResult>, view: map<string, ObjectResult>) {
    Distinct(published) && Faithful(published, view) && Complete(published, view)
  }

  ghost predicate Faithful(published: seq<ObjectResult>, view: map<string, ObjectResult>) {
    forall r :: r in published ==> r.objectId in view && view[r.objectId] == r.(reported := true) && !r.reported
  }

  ghost predicate Complete(published: seq<ObjectResult>, view: map<string, ObjectResult>) {
    forall id :: id in view && view[id].reported ==> Names(published, id)
  }

  ghost predicate Names(published: seq<ObjectResult>, id: string) {
    exists r :: r in published && r.objectId == id
  }

  lemma PublishedStays(published: seq<ObjectResult>, before: map<string, ObjectResult>, after: map<string, ObjectResult>, ids: set<string>)
    requires PublishedFinal(published, before) && Verification.SameOutside(before, after, ids)
    requires forall id :: id in ids && id in before ==> !before[id].reported
    ensures PublishedFinal(published, after)
  {
  }

  // `batch` is what publishing `ids` adds, seen through the view.
  ghost predicate PublishesFrom(batch: seq<ObjectResult>, view: map<string, ObjectResult>, ids: set<string>) {
    && Distinct(batch)
    && (forall r :: r in batch ==> r.objectId in ids && r.objectId in view && !view[r.objectId].reported && r == view[r.objectId])
    && (forall id :: id in view && id in ids && !view[id].reported ==> Names(batch, id))
  }

  lemma {:induction false} BatchPublishes(results: seq<ObjectResult>, ids: set<string>)
    requires Distinct(results)
    ensures PublishesFrom(Batch(results, ids), ById(results), ids)
  {
    DistinctView(results);
    BatchSound(results, ids);
    var batch, view := Batch(results, ids), ById(results);
    forall r | r in batch
      ensures r.objectId in view && !view[r.objectId].reported && r == view[r.objectId]
    {
      var e :| e in results && !e.reported && r == Public(e);
    }
    forall id | id in view && id in ids && !view[id].reported
      ensures Names(batch, id)
    {
      assert Public(view[id]) in batch;
    }
  }

  lemma DistinctAppend(published: seq<ObjectResult>, batch: seq<ObjectResult>)
    requires Distinct(published) && Distinct(batch)
    requires forall p, r :: p in published && r in batch ==> p.objectId != r.objectId
    ensures Distinct(published + batch)
  {
  }

  lemma FaithfulGrows(published: seq<ObjectResult>, batch: seq<ObjectResult>, view: map<string, ObjectResult>, after: map<string, ObjectResult>, ids: set<string>)
    requires Faithful(published, view) && PublishesFrom(batch, view, ids)
    requires after.Keys == view.Keys && forall id :: id in view ==> view[id].objectId == id && after[id] == Reported(view[id], ids)
    ensures Faithful(published + batch, after)
    ensures forall p, r :: p in published && r in batch ==> p.objectId != r.objectId
  {
  }

  lemma CompleteGrows(published: seq<ObjectResult>, batch: seq<ObjectResult>, view: map<string, ObjectResult>, after: map<string, ObjectResult>, ids: set<string>)
    requires Complete(published, view) && PublishesFrom(batch, view, ids)
    requires after.Keys == view.Keys && forall id :: id in view ==> view[id].objectId == id && after[id] == Reported(view[id], ids)
    ensures Complete(published + batch, after)
  {
    forall id | id in after && after[id].reported
      ensures Names(published + batch, id)
    {
      var r :| (r in published || r in batch) && r.objectId == id;
      assert r in published + batch;
    }
  }

  lemma PublishedGrows(published: seq<ObjectResult>, batch: seq<ObjectResult>, view: map<string, ObjectResult>, after: map<string, ObjectResult>, ids: set<string>)
    requires PublishedFinal(published, view) && PublishesFrom(batch, view, ids)
    requires after.Keys == view.Keys && forall id :: id in view ==> view[id].objectId == id && after[id] == Reported(view[id], ids)
    ensures PublishedFinal(published + batch, after)
  {
    FaithfulGrows(published, batch, view, after, ids);
    CompleteGrows(published, batch, view, after, ids);
    DistinctAppend(published, batch);
  }

  // The observer of one Flow's Object results, when the process has one.
  class LifecycleLog {
    const configured: bool
    const accepting: bool       // never refuses a batch
    var published: seq<ObjectResult>

    constructor (configured: bool, accepting: bool)
      ensures this.configured == configured && this.accepting == accepting && published == []
    {
      this.configured, this.accepting := configured, accepting;
      published := [];
    }

    // Publishes the selected results that have not been published before.
    method ObserveObjectBatch(results: array<ObjectResult>, ids: set<string>) returns (accepted: bool)
      modifies results, this`published
      ensures configured ==> results[..] == Reporting(old(results[..]), ids)
      ensures configured ==> published == old(published) + Batch(old(results[..]), ids)
      ensures !configured ==> accepted && results[..] == old(results[..]) && published == old(published)
      ensures accepting ==> accepted
    {
      if !configured {
        return true;
      }
      ghost var start := results[..];
      var batch: seq<ObjectResult> := [];
      for k := 0 to results.Length
        invariant published == old(published)
        invariant forall j :: 0 <= j < k ==> results[j] == Reported(start[j], ids)
        invariant forall j :: k <= j < results.Length ==> results[j] == start[j]
        invariant batch == Batch(start[..k], ids)
      {
        assert start[..k + 1][..k] == start[..k];
        if !results[k].reported && results[k].objectId in ids {
          results[k] := results[k].(reported := true);
          batch := batch + [Public(results[k])];
        }
      }
      assert start[..results.Length] == start;
      ReportingEach(start, ids);
      published := published + batch;
      accepted := batch == [];
      if !accepted {
        accepted := *; // the observer's answer
        accepted := accepted || accepting;
      }
    }
  
    // observeRemainingObjects: what was never reported is closed and published. A dry run leaves planned as it is.
    method ObserveRemainingObjects(results: array<ObjectResult>, dryRun: bool) returns (accepted: bool)
      requires configured && Distinct(results[..]) && PublishedFinal(published, ById(results[..]))
      modifies results, this`published
      ensures Distinct(results[..]) && PublishedFinal(published, ById(results[..]))
      ensures results.Length == |old(results[..])| && forall k :: 0 <= k < results.Length ==>
          results[k] == if old(results[k].reported) then old(results[k])
                        else old(results[k]).(reported := true, disposition := if old(results[k].disposition) == Planned && !dryRun then Unattempted else old(results[k].disposition))
      ensures forall k :: 0 <= k < results.Length ==> Names(published, results[k].objectId)
    {
      CloseUnattempted(results, dryRun);
      ghost var mid := results[..];
      ClosedView(published, old(results[..]), mid, dryRun);
      var everything := Everything(results[..]);
      accepted := ObserveObjectBatch(results, everything);
      PublishingAll(old(published), mid);
    }
  }

  function Everything(results: seq<ObjectResult>): set<string> { set r | r in results :: r.objectId }

  method CloseUnattempted(results: array<ObjectResult>, dryRun: bool)
    modifies results
    ensures forall k :: 0 <= k < results.Length ==> results[k] == Closed(old(results[k]), dryRun)
  {
    for k := 0 to results.Length
      invariant forall j :: 0 <= j < k ==> results[j] == Closed(old(results[j]), dryRun)
      invariant forall j :: k <= j < results.Length ==> results[j] == old(results[j])
    {
      results[k] := Closed(results[k], dryRun);
    }
  }

  // Publishing every entry leaves none unpublished.
  lemma {:induction false} PublishingAll(published: seq<ObjectResult>, results: seq<ObjectResult>)
    requires Distinct(results) && PublishedFinal(published, ById(results))
    ensures var after, log := Reporting(results, Everything(results)), published + Batch(results, Everything(results));
      && Distinct(after) && PublishedFinal(log, ById(after))
      && |after| == |results|
      && forall k :: 0 <= k < |results| ==> after[k] == results[k].(reported := true) && Names(log, results[k].objectId)
  {
    var ids := Everything(results);
    var after, log := Reporting(results, ids), published + Batch(results, ids);
    BatchPublishes(results, ids);
    ReportingView(results, ids);
    ReportingEach(results, ids);
    DistinctView(results);
    PublishedGrows(published, Batch(results, ids), ById(results), ById(after), ids);
    DistinctView(after);
    forall k | 0 <= k < |results|
      ensures after[k] == results[k].(reported := true) && Names(log, results[k].objectId)
    {
      assert results[k] in results;
      assert after[k] in after;
    }
  }

  // An Object the run never reached is reported as unattempted, except in a dry run.
  function Closed(r: ObjectResult, dryRun: bool): ObjectResult {
    if !r.reported && r.disposition == Planned && !dryRun then r.(disposition := Unattempted) else r
  }

  lemma {:induction false} ClosedView(published: seq<ObjectResult>, before: seq<ObjectResult>, after: seq<ObjectResult>, dryRun: bool)
    requires Distinct(before) && PublishedFinal(published, ById(before))
    requires |after| == |before| && forall k :: 0 <= k < |before| ==> after[k] == Closed(before[k], dryRun)
    ensures Distinct(after) && PublishedFinal(published, ById(after))
  {
    DistinctView(before);
    DistinctView(after);
    forall r | r in published
      ensures r.objectId in ById(after) && ById(after)[r.objectId] == r.(reported := true)
    {
      var k :| 0 <= k < |before| && before[k] == ById(before)[r.objectId];
      assert after[k] in after;
    }
    forall id | id in ById(after) && ById(after)[id].reported
      ensures Names(published, id)
    {
      var k :| 0 <= k < |after| && after[k] == ById(after)[id];
      assert before[k] in before;
    }
  }
}
