/** One Flow of a live render: what has been said of all its Objects, batch after batch
    (internal/ingest/rolling.go:182-253 around registerRollingChunk). A failed batch is followed by others
    when the run ends, so nothing here stops at the first error. */
module RollingCommit {
  import opened Text
  import opened RemoteStore
  import opened ObjectResults
  import opened Verification
  import opened Registration
  import opened Lifecycle
  import opened Transfer

  function NewResult(o: PreparedObject, mode: VerificationMode): ObjectResult {
    ObjectResult(o.id, Planned, if mode == VerificationNone then NotRequested else NotReached, NoMethod, false)
  }

  // Lines 205-209: after an error whatever was only planned is unattempted.
  function Ended(r: ObjectResult): ObjectResult { if r.disposition == Planned then r.(disposition := Unattempted) else r }

  method EndPlanned(results: array<ObjectResult>)
    modifies results
    ensures forall k :: 0 <= k < results.Length ==> results[k] == Ended(old(results[k]))
  {
    for k := 0 to results.Length
      invariant forall j :: 0 <= j < k ==> results[j] == Ended(old(results[j]))
      invariant forall j :: k <= j < results.Length ==> results[j] == old(results[j])
    {
      results[k] := Ended(results[k]);
    }
  }

  // Entries that keep their IDs are found where they were.
  lemma {:induction false} SameIdsView(before: seq<ObjectResult>, after: seq<ObjectResult>)
    requires Distinct(before) && |after| == |before| && forall k :: 0 <= k < |before| ==> after[k].objectId == before[k].objectId
    ensures Distinct(after) && ById(after).Keys == ById(before).Keys
    ensures forall k :: 0 <= k < |before| ==> before[k].objectId in ById(before) && ById(before)[before[k].objectId] == before[k] && ById(after)[before[k].objectId] == after[k]
    ensures forall id :: id in ById(before) ==> exists k :: 0 <= k < |before| && before[k].objectId == id
  {
    DistinctView(before);
    DistinctView(after);
    forall k | 0 <= k < |before| ensures before[k] in before && after[k] in after {
    }
  }

  lemma {:induction false} NewBatch(objects: seq<PreparedObject>, results: seq<ObjectResult>, mode: VerificationMode)
    requires DistinctObjects(objects) && |results| == |objects| && forall k :: 0 <= k < |objects| ==> results[k] == NewResult(objects[k], mode)
    ensures Distinct(results) && ById(results).Keys == Ids(objects)
    ensures forall o :: o in objects ==> ById(results)[o.id] == NewResult(o, mode)
  {
    SameIdsView(results, results);
    forall o | o in objects ensures o.id in ById(results) && ById(results)[o.id] == NewResult(o, mode) {
      var k :| 0 <= k < |objects| && objects[k] == o;
      assert results[k].objectId == o.id;
    }
    forall id | id in ById(results) ensures id in Ids(objects) {
      var k :| 0 <= k < |results| && results[k].objectId == id;
      assert objects[k] in objects;
    }
  }

  /** True of the store at the end of a batch. A listing that failed leaves unknown what earlier runs
      registered, so an unattempted Object is only known not to have been registered by this run. */
  ghost predicate True(o: PreparedObject, r: ObjectResult, start: set<Segment>, present: set<Segment>, doomed: set<Segment>, content: map<string, string>,
                       mode: VerificationMode, named: set<string>) {
    if r.disposition == Unattempted then (r.verification == Verified ==> HoldsBytes(o, content)) && (o.AsSegment() in present ==> o.AsSegment() in start)
    else Truthful(o, r, present, doomed, content, mode, named)
  }

  ghost predicate AllTrue(objects: seq<PreparedObject>, view: map<string, ObjectResult>, start: set<Segment>, present: set<Segment>, doomed: set<Segment>,
                          content: map<string, string>, mode: VerificationMode, named: set<string>) {
    forall o :: o in objects ==> o.id in view && True(o, view[o.id], start, present, doomed, content, mode, named)
  }

  // What a later batch does falsifies nothing said of an earlier one.
  lemma {:induction false} TrueStands(objects: seq<PreparedObject>, view: map<string, ObjectResult>, start: set<Segment>, present: set<Segment>, doomed: set<Segment>, content: map<string, string>,
                   mode: VerificationMode, named: set<string>,
                   others: seq<PreparedObject>, batch: map<string, ObjectResult>, presentAfter: set<Segment>, doomedAfter: set<Segment>,
                   contentAfter: map<string, string>, more: set<string>)
    requires AllTrue(objects, view, start, present, doomed, content, mode, named)
    requires Ids(objects) !! Ids(others) && batch.Keys == Ids(others)
    requires OnlyCommits(present, doomed, presentAfter, doomedAfter, Segments(others))
    requires SameContentOutside(content, contentAfter, Ids(others))
    ensures AllTrue(objects, view + batch, start, presentAfter, doomedAfter, contentAfter, mode, named + more)
  {
    forall o | o in objects
      ensures o.id in view + batch && True(o, (view + batch)[o.id], start, presentAfter, doomedAfter, contentAfter, mode, named + more)
    {
      assert o.id in Ids(objects);
      assert o.id !in batch && o.AsSegment() !in Segments(others);
      assert o.AsSegment() in doomedAfter ==> o.AsSegment() in doomed;
      assert True(o, view[o.id], start, present, doomed, content, mode, named);
    }
  }

  lemma {:induction false} BatchJoins(objects: seq<PreparedObject>, batch: map<string, ObjectResult>, view: map<string, ObjectResult>, start: set<Segment>, present: set<Segment>,
                   doomed: set<Segment>, content: map<string, string>, mode: VerificationMode, more: set<string>, named: set<string>)
    requires AllTrue(objects, batch, start, present, doomed, content, mode, more)
    ensures AllTrue(objects, view + batch, start, present, doomed, content, mode, named + more)
  {
    forall o | o in objects ensures True(o, (view + batch)[o.id], start, present, doomed, content, mode, named + more) {
      assert True(o, batch[o.id], start, present, doomed, content, mode, more);
    }
  }

  lemma {:induction false} TrueJoins(done: seq<PreparedObject>, objects: seq<PreparedObject>, view: map<string, ObjectResult>, start: set<Segment>, present: set<Segment>, doomed: set<Segment>,
                  content: map<string, string>, mode: VerificationMode, named: set<string>)
    requires AllTrue(done, view, start, present, doomed, content, mode, named) && AllTrue(objects, view, start, present, doomed, content, mode, named)
    ensures AllTrue(done + objects, view, start, present, doomed, content, mode, named)
  {
  }

  // What a batch says when it returns, from what it said when registration did.
  ghost predicate Closes(before: map<string, ObjectResult>, after: map<string, ObjectResult>, failed: bool) {
    && after.Keys == before.Keys
    && forall id :: id in before ==>
         after[id].(reported := false) ==
           before[id].(reported := false, disposition := if failed && before[id].disposition == Planned then Unattempted else before[id].disposition)
  }

  lemma {:induction false} ListedBatchTrue(objects: seq<PreparedObject>, view: map<string, ObjectResult>, after: map<string, ObjectResult>, failed: bool, start: set<Segment>,
                        present: set<Segment>, doomed: set<Segment>, content: map<string, string>, mode: VerificationMode, named: set<string>)
    requires AllTruthful(objects, view, present, doomed, content, mode, named) && Closes(view, after, failed)
    requires forall o :: o in objects && o.AsSegment() in present ==> o.AsSegment() in start || view[o.id].disposition !in {Planned, Unattempted}
    ensures AllTrue(objects, after, start, present, doomed, content, mode, named)
  {
    forall o | o in objects ensures o.id in after && True(o, after[o.id], start, present, doomed, content, mode, named) {
      assert Truthful(o, view[o.id], present, doomed, content, mode, named);
    }
  }

  lemma {:induction false} UnlistedBatchTrue(objects: seq<PreparedObject>, view: map<string, ObjectResult>, after: map<string, ObjectResult>, start: set<Segment>,
                          present: set<Segment>, doomed: set<Segment>, content: map<string, string>, mode: VerificationMode, named: set<string>)
    requires forall o :: o in objects ==> o.id in view && view[o.id] == NewResult(o, mode)
    requires Closes(view, after, true) && forall o :: o in objects && o.AsSegment() in present ==> o.AsSegment() in start
    ensures AllTrue(objects, after, start, present, doomed, content, mode, named)
  {
  }

  lemma {:induction false} ClosedBatch(before: seq<ObjectResult>, after: seq<ObjectResult>)
    requires Distinct(before) && |after| == |before|
    requires forall k :: 0 <= k < |before| ==> after[k].(reported := false) == Ended(before[k]).(reported := false)
    ensures Distinct(after) && Closes(ById(before), ById(after), true)
  {
    forall k | 0 <= k < |before| ensures after[k].objectId == before[k].objectId {
      assert after[k].(reported := false) == Ended(before[k]).(reported := false);
    }
    SameIdsView(before, after);
    forall id | id in ById(before) ensures ById(after)[id].(reported := false) == Ended(ById(before)[id]).(reported := false) {
      var k :| 0 <= k < |before| && before[k].objectId == id;
      assert ById(before)[id] == before[k] && ById(after)[id] == after[k];
    }
  }

  // After an error: what was planned is closed, and what was not yet published is.
  method CloseBatch(log: LifecycleLog, results: array<ObjectResult>, ids: set<string>)
    requires Distinct(results[..])
    modifies results, log`published
    ensures Distinct(results[..]) && Closes(old(ById(results[..])), ById(results[..]), true)
    ensures forall k :: 0 <= k < results.Length ==> results[k].disposition != Planned
  {
    ghost var before := results[..];
    EndPlanned(results);
    ghost var ended := results[..];
    var accepted := log.ObserveObjectBatch(results, ids);
    ReportingEach(ended, ids);
    forall k | 0 <= k < results.Length ensures results[k].(reported := false) == Ended(before[k]).(reported := false) {
      assert log.configured ==> results[..][k] == Reported(ended[k], ids);
      assert !log.configured ==> results[..][k] == ended[k];
    }
    ClosedBatch(before, results[..]);
  }

  // What a batch's entries say once registration has returned.
  ghost predicate Registers(objects: seq<PreparedObject>, view: map<string, ObjectResult>, status: Status, listed: bool, present: set<Segment>, doomed: set<Segment>,
                            content: map<string, string>, mode: VerificationMode) {
    && view.Keys == Ids(objects)
    && (if listed then AllTruthful(objects, view, present, doomed, content, mode, status.Naming())
        else status.Error? && forall o :: o in objects ==> o.id in view && view[o.id] == NewResult(o, mode))
    && (status.Ok? ==> AllLanded(objects, view, present))
  }

  lemma {:induction false} JoinedView(first: seq<ObjectResult>, second: seq<ObjectResult>)
    requires forall k :: 0 <= k < |first| ==> first[k].objectId !in ById(second)
    ensures ById(first + second) == ById(first) + ById(second)
  {
    if first == [] {
      assert first + second == second;
    } else {
      assert (first + second)[1..] == first[1..] + second;
      JoinedView(first[1..], second);
    }
  }

  // Two lists about different Objects read as the two views together.
  lemma {:induction false} ViewsJoin(first: seq<ObjectResult>, second: seq<ObjectResult>)
    requires Distinct(first) && Distinct(second) && ById(first).Keys !! ById(second).Keys
    ensures Distinct(first + second) && ById(first + second) == ById(first) + ById(second)
  {
    SameIdsView(first, first);
    SameIdsView(second, second);
    JoinedView(first, second);
  }

  method NewResults(objects: seq<PreparedObject>, mode: VerificationMode) returns (batch: array<ObjectResult>)
    requires DistinctObjects(objects)
    ensures fresh(batch) && batch.Length == |objects| && Distinct(batch[..]) && ById(batch[..]).Keys == Ids(objects)
    ensures forall o :: o in objects ==> ById(batch[..])[o.id] == NewResult(o, mode)
  {
    batch := new ObjectResult[|objects|](k requires 0 <= k < |objects| => NewResult(objects[k], mode));
    NewBatch(objects, batch[..], mode);
  }

  method RegisterBatch(store: Store, log: LifecycleLog, objects: seq<PreparedObject>, batch: array<ObjectResult>, mode: VerificationMode)
      returns (status: Status, listed: bool)
    requires objects != [] && DistinctObjects(objects) && OnTimeline(objects) && Segments(objects) !! store.doomed
    requires forall o :: o in objects && o.AsSegment() in store.present ==> !TrailingInstant(objects, o)
    requires Distinct(batch[..]) && ById(batch[..]).Keys == Ids(objects) && log.published == []
    requires forall o :: o in objects ==> ById(batch[..])[o.id] == NewResult(o, mode)
    modifies store, batch, log`published
    ensures OnlyCommits(old(store.present), old(store.doomed), store.present, store.doomed, Segments(objects))
    ensures SameContentOutside(old(store.content), store.content, Ids(objects))
    ensures Distinct(batch[..]) && Registers(objects, ById(batch[..]), status, listed, store.present, store.doomed, store.content, mode)
    ensures !listed ==> store.present <= old(store.present)
    ensures Sends(objects, old(store.traffic), store.traffic, old(store.present), store.present)
    ensures AllSent(objects, ById(batch[..]), store.traffic[|old(store.traffic)|..])
    ensures Calm(store, objects) && log.accepting && (mode == VerificationNone || ListedHold(objects, old(store.present), old(store.content))) ==> status.Ok?
  {
    ghost var start := ById(batch[..]);
    assert PublishedFinal(log.published, start) by {
      forall id | id in start ensures !start[id].reported {
        var o :| o in objects && o.id == id;
      }
    }
    status, listed := RegisterRollingChunk(store, log, objects, batch, mode);
  }

  lemma {:induction false} ClosedTrue(objects: seq<PreparedObject>, view: map<string, ObjectResult>, after: map<string, ObjectResult>, status: Status, listed: bool, start: set<Segment>,
                        present: set<Segment>, doomed: set<Segment>, content: map<string, string>, mode: VerificationMode)
    requires Registers(objects, view, status, listed, present, doomed, content, mode) && Closes(view, after, status.Error?)
    requires listed || forall o :: o in objects && o.AsSegment() in present ==> o.AsSegment() in start
    ensures AllTrue(objects, after, start, present, doomed, content, mode, status.Naming())
    ensures status.Ok? ==> AllLanded(objects, after, present)
  {
    if listed {
      ListedBatchTrue(objects, view, after, status.Error?, start, present, doomed, content, mode, status.Naming());
    } else {
      UnlistedBatchTrue(objects, view, after, start, present, doomed, content, mode, status.Naming());
    }
    if status.Ok? {
      forall o | o in objects ensures after[o.id].disposition == view[o.id].disposition {
        assert after[o.id].(reported := false) == view[o.id].(reported := false);
      }
    }
  }

  lemma {:induction false} ClosedSent(objects: seq<PreparedObject>, view: map<string, ObjectResult>, after: map<string, ObjectResult>, failed: bool, sent: seq<Traffic>)
    requires Closes(view, after, failed) && AllSent(objects, view, sent)
    ensures AllSent(objects, after, sent)
  {
    forall o | o in objects && o.id in after && after[o.id].disposition in {Registered, Ingested} ensures Delivery(o) in sent {
      assert after[o.id].(reported := false) == (if failed then Ended(view[o.id]) else view[o.id]).(reported := false);
    }
  }

  // One batch against the store, from planned to closed.
  method CommitBatch(store: Store, objects: seq<PreparedObject>, mode: VerificationMode, observed: bool, accepting: bool, ghost start: set<Segment>)
      returns (results: seq<ObjectResult>, failed: bool, ghost named: set<string>)
    requires objects != [] && DistinctObjects(objects) && OnTimeline(objects) && Segments(objects) !! store.doomed
    requires forall o :: o in objects && o.AsSegment() in store.present ==> o.AsSegment() in start && !TrailingInstant(objects, o)
    modifies store
    ensures OnlyCommits(old(store.present), old(store.doomed), store.present, store.doomed, Segments(objects))
    ensures SameContentOutside(old(store.content), store.content, Ids(objects))
    ensures |results| == |objects| && Distinct(results) && ById(results).Keys == Ids(objects)
    ensures AllTrue(objects, ById(results), start, store.present, store.doomed, store.content, mode, named)
    ensures !failed ==> AllLanded(objects, ById(results), store.present)
    ensures failed ==> forall k :: 0 <= k < |results| ==> results[k].disposition != Planned
    ensures Sends(objects, old(store.traffic), store.traffic, old(store.present), store.present)
    ensures AllSent(objects, ById(results), store.traffic[|old(store.traffic)|..])
    ensures Calm(store, objects) && accepting && (mode == VerificationNone || ListedHold(objects, old(store.present), old(store.content))) ==> !failed
  {
    var batch := NewResults(objects, mode);
    var log := new LifecycleLog(observed, accepting);
    var status, listed := RegisterBatch(store, log, objects, batch, mode);
    ghost var mid := ById(batch[..]);
    failed, named := status.Error?, status.Naming();
    if failed {
      CloseBatch(log, batch, set o | o in objects :: o.id);
    }
    results := batch[..];
    ClosedSent(objects, mid, ById(results), failed, store.traffic[|old(store.traffic)|..]);
    ClosedTrue(objects, mid, ById(results), status, listed, start, store.present, store.doomed, store.content, mode);
  }

  lemma {:induction false} DryEntries(objects: seq<PreparedObject>, before: seq<ObjectResult>, after: seq<ObjectResult>, ids: set<string>, mode: VerificationMode)
    requires DistinctObjects(objects) && |before| == |objects| && (after == before || after == Reporting(before, ids))
    requires forall k :: 0 <= k < |objects| ==> before[k] == NewResult(objects[k], mode)
    ensures Distinct(after) && ById(after).Keys == Ids(objects) && forall k :: 0 <= k < |after| ==> after[k].disposition == Planned
  {
    NewBatch(objects, before, mode);
    ReportingEach(before, ids);
    forall k | 0 <= k < |before| ensures after[k].disposition == Planned && after[k].objectId == before[k].objectId {
      assert after[k] == before[k] || after[k] == Reported(before[k], ids);
    }
    SameIdsView(before, after);
  }

  // In a dry run the entries are only observed.
  method DryBatch(objects: seq<PreparedObject>, mode: VerificationMode, observed: bool, accepting: bool) returns (results: seq<ObjectResult>, failed: bool)
    requires DistinctObjects(objects)
    ensures |results| == |objects| && Distinct(results) && ById(results).Keys == Ids(objects)
    ensures forall k :: 0 <= k < |results| ==> results[k].disposition == Planned
    ensures accepting ==> !failed
  {
    var batch := new ObjectResult[|objects|](k requires 0 <= k < |objects| => NewResult(objects[k], mode));
    ghost var start := batch[..];
    var ids := set o | o in objects :: o.id;
    var log := new LifecycleLog(observed, accepting);
    var accepted := log.ObserveObjectBatch(batch, ids);
    results, failed := batch[..], !accepted;
    DryEntries(objects, start, results, ids, mode);
  }

  // Distinct Objects on the timeline, none of them being deleted, or an instant that an earlier run registered.
  ghost predicate Fits(objects: seq<PreparedObject>, start: set<Segment>, leaving: set<Segment>) {
    && DistinctObjects(objects) && OnTimeline(objects)
    && forall o :: o in objects ==> o.AsSegment() !in leaving && (o.duration == 0 ==> o.AsSegment() !in start)
  }

  lemma {:induction false} SentJoins(done: seq<PreparedObject>, objects: seq<PreparedObject>, view: map<string, ObjectResult>, batch: map<string, ObjectResult>,
                       before: seq<Traffic>, middle: seq<Traffic>, after: seq<Traffic>)
    requires before <= middle <= after && Ids(done) !! Ids(objects) && batch.Keys == Ids(objects)
    requires AllSent(done, view, middle[|before|..]) && AllSent(objects, batch, after[|middle|..])
    ensures AllSent(done + objects, view + batch, after[|before|..])
  {
    assert after[|before|..] == middle[|before|..] + after[|middle|..];
    forall o | o in done + objects && o.id in view + batch && (view + batch)[o.id].disposition in {Registered, Ingested} ensures Delivery(o) in after[|before|..] {
      if o in objects {
        assert o.id in Ids(objects);
      } else {
        assert o.id in Ids(done);
      }
    }
  }

  class FlowCommit {
    const store: Store
    const mode: VerificationMode
    const dryRun: bool
    const observed: bool
    const accepting: bool
    ghost const start: set<Segment>             // registered before the run
    ghost const leaving: set<Segment>           // and already being deleted
    ghost const sentBefore: seq<Traffic>
    ghost var done: seq<PreparedObject>
    ghost var entries: seq<ObjectResult>        // what was said of them
    ghost var named: set<string>                // what errors named

    // Distinct entries, one for each Object, and each true of the store.
    ghost predicate Valid()
      reads this, store
    {
      && DistinctObjects(done) && Distinct(entries) && |entries| == |done| && ById(entries).Keys == Ids(done)
      && store.doomed <= leaving + Segments(done) && store.present <= start + Segments(done)
      && (!dryRun ==> AllTrue(done, ById(entries), start, store.present, store.doomed, store.content, mode, named))
      && (!dryRun ==> Delivered())
    }

    // Every registration came after the bytes it is about, and all that is claimed as registered was sent.
    ghost predicate Delivered()
      reads this, store
    {
      && Sends(done, sentBefore, store.traffic, start, store.present)
      && AllSent(done, ById(entries), store.traffic[|sentBefore|..])
    }

    constructor (store: Store, mode: VerificationMode, dryRun: bool, observed: bool, accepting: bool)
      ensures Valid() && done == [] && entries == [] && this.store == store && this.mode == mode && this.dryRun == dryRun
      ensures start == store.present && leaving == store.doomed && sentBefore == store.traffic
    {
      this.store, this.mode, this.dryRun, this.observed, this.accepting := store, mode, dryRun, observed, accepting;
      start, leaving, sentBefore := store.present, store.doomed, store.traffic;
      done, entries, named := [], [], {};
    }

    lemma {:induction false} FitsNew(objects: seq<PreparedObject>)
      requires Valid() && Fits(done + objects, start, leaving)
      ensures DistinctObjects(objects) && OnTimeline(objects) && Segments(objects) !! store.doomed && Ids(done) !! Ids(objects)
      ensures forall o :: o in objects && o.AsSegment() in store.present ==> o.AsSegment() in start && o.duration != 0
    {
      forall j, k | 0 <= j < k < |objects| ensures objects[j].id != objects[k].id {
        assert (done + objects)[|done| + j] == objects[j] && (done + objects)[|done| + k] == objects[k];
      }
      forall o | o in objects ensures o in done + objects {
      }
      forall d, o | d in done && o in objects ensures d.id != o.id {
        var j, k :| 0 <= j < |done| && done[j] == d && 0 <= k < |objects| && objects[k] == o;
        assert (done + objects)[j] == d && (done + objects)[|done| + k] == o;
      }
    }

    // Takes a batch into the account.
    ghost method Record(objects: seq<PreparedObject>, results: seq<ObjectResult>, present: set<Segment>, doomed: set<Segment>, content: map<string, string>,
                        more: set<string>, traffic: seq<Traffic>)
      requires DistinctObjects(done + objects) && Distinct(entries) && |entries| == |done| && ById(entries).Keys == Ids(done)
      requires Ids(done) !! Ids(objects) && |results| == |objects| && Distinct(results) && ById(results).Keys == Ids(objects)
      requires doomed <= leaving + Segments(done) && present <= start + Segments(done)
      requires OnlyCommits(present, doomed, store.present, store.doomed, Segments(objects)) && SameContentOutside(content, store.content, Ids(objects))
      requires !dryRun ==> AllTrue(done, ById(entries), start, present, doomed, content, mode, named)
      requires !dryRun ==> AllTrue(objects, ById(results), start, store.present, store.doomed, store.content, mode, more)
      requires !dryRun ==> Sends(done, sentBefore, traffic, start, present) && Sends(objects, traffic, store.traffic, present, store.present)
      requires !dryRun ==> AllSent(done, ById(entries), traffic[|sentBefore|..]) && AllSent(objects, ById(results), store.traffic[|traffic|..])
      modifies this
      ensures Valid() && done == old(done) + objects && entries == old(entries) + results && named == old(named) + more
    {
      ViewsJoin(entries, results);
      if !dryRun {
        var view, batch := ById(entries), ById(results);
        TrueStands(done, view, start, present, doomed, content, mode, named, objects, batch, store.present, store.doomed, store.content, more);
        BatchJoins(objects, batch, view, start, store.present, store.doomed, store.content, mode, more, named);
        TrueJoins(done, objects, view + batch, start, store.present, store.doomed, store.content, mode, named + more);
        SendsCompose(done, objects, done + objects, sentBefore, start, traffic, present, store.traffic, store.present);
        SentJoins(done, objects, view, batch, sentBefore, traffic, store.traffic);
      }
      done, entries, named := done + objects, entries + results, named + more;
    }

    /** One batch. Whatever the store does, everything said of this batch is true when it returns, and so
        is still everything said of the batches before it. */
    method FlushBatch(objects: seq<PreparedObject>) returns (results: seq<ObjectResult>, failed: bool)
      requires Valid() && objects != [] && Fits(done + objects, start, leaving)
      modifies this, store
      ensures Valid() && done == old(done) + objects && entries == old(entries) + results && old(named) <= named
      ensures |results| == |objects|
      ensures !dryRun && !failed ==> AllLanded(objects, ById(results), store.present)
      ensures forall k :: 0 <= k < |results| ==> (dryRun ==> results[k].disposition == Planned) && (!dryRun && failed ==> results[k].disposition != Planned)
      ensures dryRun ==> unchanged(store)
      ensures accepting && (dryRun || (Calm(store, objects) && (mode == VerificationNone || ListedHold(objects, old(store.present), old(store.content))))) ==> !failed
    {
      FitsNew(objects);
      ghost var present, doomed, content, more, traffic := store.present, store.doomed, store.content, {}, store.traffic;
      if dryRun {
        results, failed := DryBatch(objects, mode, observed, accepting);
      } else {
        results, failed, more := CommitBatch(store, objects, mode, observed, accepting, start);
      }
      Record(objects, results, present, doomed, content, more, traffic);
    }
  }
}
