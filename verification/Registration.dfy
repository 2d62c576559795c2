/** Registering a batch and resolving a registration whose outcome is not known
    (internal/ingest/registration.go, chunkTimerange of internal/ingest/transfer.go,
    RegisterSegments of internal/tams/client.go). */
module Registration {
  import opened Text
  import opened RemoteStore
  import opened ObjectResults
  import opened Verification

  datatype VerificationMode = VerificationNone | VerificationAuto | VerificationReadback

  datatype RegisterReply = Committed | Partial(registered: seq<Segment>) | Unanswered

  const INT64_LIMIT := INT64_MAX + 1

  // The machine result of one addition or subtraction of two int64 values.
  function WrapInt64(x: int): int {
    if x >= INT64_LIMIT then x - 2 * INT64_LIMIT else if x < -INT64_LIMIT then x + 2 * INT64_LIMIT else x
  }

  function FirstStart(chunk: seq<PreparedObject>): int
    requires chunk != []
  {
    var o := chunk[|chunk| - 1];
    if |chunk| == 1 then o.start
    else var rest := FirstStart(chunk[..|chunk| - 1]); if o.start < rest then o.start else rest
  }

  function LastEnd(chunk: seq<PreparedObject>): int
    requires chunk != []
  {
    var o := chunk[|chunk| - 1];
    if |chunk| == 1 then o.Span().End()
    else var rest := LastEnd(chunk[..|chunk| - 1]); if o.Span().End() > rest then o.Span().End() else rest
  }

  lemma {:induction false} SpanWithin(chunk: seq<PreparedObject>, o: PreparedObject)
    requires o in chunk
    ensures FirstStart(chunk) <= o.start && o.Span().End() <= LastEnd(chunk)
  {
    if o != chunk[|chunk| - 1] {
      SpanWithin(chunk[..|chunk| - 1], o);
    }
  }

  // Every placed Object lies on the int64 nanosecond timeline.
  ghost predicate OnTimeline(chunk: seq<PreparedObject>) {
    forall o :: o in chunk ==> -INT64_LIMIT <= o.start && o.Span().End() < INT64_LIMIT
  }

  // The listing filter for one batch; None lists the whole Flow.
  method ChunkTimerange(chunk: seq<PreparedObject>) returns (timerange: Option<Timerange>)
    requires chunk != [] && OnTimeline(chunk)
    ensures timerange.None? <==> LastEnd(chunk) - FirstStart(chunk) >= INT64_LIMIT
    ensures timerange.Some? ==> timerange.value == Timerange(FirstStart(chunk), LastEnd(chunk) - FirstStart(chunk))
  {
    var first, last := chunk[0].start, chunk[0].start + chunk[0].duration;
    assert chunk[..1] == [chunk[0]];
    for i := 1 to |chunk|
      invariant first == FirstStart(chunk[..i]) && last == LastEnd(chunk[..i])
      invariant -INT64_LIMIT <= first <= last < INT64_LIMIT
    {
      assert chunk[..i + 1][..i] == chunk[..i];
      assert chunk[i] in chunk;
      first := if chunk[i].start < first then chunk[i].start else first;
      last := if chunk[i].start + chunk[i].duration > last then chunk[i].start + chunk[i].duration else last;
    }
    assert chunk[..|chunk|] == chunk;
    var width := WrapInt64(last - first);
    timerange := if width < 0 then None else Some(Timerange(first, width));
  }

  /** The batch filter lists an Object's own Segment unless that Segment is an instant at the
      very end of a batch that is not an instant: a half-open range leaves its end out. */
  lemma {:induction false} BatchFilterSees(chunk: seq<PreparedObject>, o: PreparedObject)
    requires o in chunk
    requires LastEnd(chunk) >= FirstStart(chunk)
    ensures Timerange(FirstStart(chunk), LastEnd(chunk) - FirstStart(chunk)).Overlaps(o.Span()) <==>
        !(o.duration == 0 && o.start == LastEnd(chunk) && FirstStart(chunk) < LastEnd(chunk))
  {
    SpanWithin(chunk, o);
  }

  method RegisterSegments(store: Store, requests: seq<Segment>) returns (reply: RegisterReply)
    modifies store`present, store`traffic
    ensures store.traffic == old(store.traffic) + if requests == [] then [] else [Posted(requests)]
    ensures store.calm ==> !reply.Partial? && forall s :: s in requests ==> s in store.present
    ensures store.calm && store.answersPosts ==> reply.Committed?
    ensures forall s :: s in old(store.present) && s !in store.doomed ==> s in store.present
    ensures forall s :: s in store.present && s !in requests ==> s in old(store.present)
    ensures reply.Committed? ==> forall s :: s in requests ==> s in store.present
    ensures reply.Partial? ==> forall s :: s in requests && s in reply.registered ==> s in store.present
    ensures reply.Partial? ==> forall s :: s in requests && s !in reply.registered && s in store.present ==> s in old(store.present)
  {
    if |requests| == 0 {
      return Committed;
    }
    if |requests| == 1 {
      assert requests == [requests[0]];
      var created := store.PostOne(requests[0]);
      return if created then Committed else Unanswered;
    }
    var answer := store.Post(requests);
    if answer.NoReply? {
      return Unanswered;
    }
    if answer.failures == [] {
      return Committed;
    }
    var registered: seq<Segment> := [];
    for i := 0 to |requests|
      invariant forall s :: s in registered <==> s in requests[..i] && !FailedRegistration(answer.failures, s)
    {
      if !FailedRegistration(answer.failures, requests[i]) {
        registered := registered + [requests[i]];
      }
    }
    assert requests[..|requests|] == requests;
    reply := Partial(registered);
  }

  // The Objects whose Segments are (or are not) in a set, in batch order.
  function Select(objects: seq<PreparedObject>, segments: set<Segment>, inside: bool): seq<PreparedObject> {
    if objects == [] then []
    else
      var last := objects[|objects| - 1];
      Select(objects[..|objects| - 1], segments, inside) + if (last.AsSegment() in segments) == inside then [last] else []
  }

  lemma {:induction false} SelectSound(objects: seq<PreparedObject>, segments: set<Segment>, inside: bool)
    ensures forall o :: o in Select(objects, segments, inside) <==> o in objects && (o.AsSegment() in segments) == inside
    ensures DistinctObjects(objects) ==> DistinctObjects(Select(objects, segments, inside))
  {
    if objects != [] {
      var rest := objects[..|objects| - 1];
      SelectSound(rest, segments, inside);
      assert objects == rest + [objects[|objects| - 1]];
      forall o | o in Select(rest, segments, inside) && DistinctObjects(objects)
        ensures o.id != objects[|objects| - 1].id
      {
        assert o in rest;
      }
    }
  }

  lemma {:induction false} SelectAll(objects: seq<PreparedObject>, segments: set<Segment>)
    requires Select(objects, segments, false) == []
    ensures Select(objects, segments, true) == objects
  {
    if objects != [] {
      SelectAll(objects[..|objects| - 1], segments);
    }
  }

  // What one pass over a batch writes to each Object's result.
  datatype Pass =
    | Set(d: Disposition)
    | Sort(segments: set<Segment>, inside: Disposition, outside: Option<Disposition>)
    | Attest(segments: set<Segment>)
  {
    function Write(o: PreparedObject, r: ObjectResult): ObjectResult {
      match this
      case Set(d) => r.(disposition := d)
      case Sort(segments, inside, outside) =>
        if o.AsSegment() in segments then r.(disposition := inside)
        else if outside.Some? then r.(disposition := outside.value)
        else r
      case Attest(segments) =>
        if o.AsSegment() in segments then r.(disposition := Registered, verification := Verified, verifiedBy := Storage) else r
    }
  }

  // The pass has written the first n Objects and nothing else.
  ghost predicate Written(pass: Pass, before: map<string, ObjectResult>, after: map<string, ObjectResult>, objects: seq<PreparedObject>, n: nat)
    requires n <= |objects|
  {
    && SameOutside(before, after, Ids(objects[..n]))
    && forall k :: 0 <= k < n ==> objects[k].id in before && after[objects[k].id] == pass.Write(objects[k], before[objects[k].id])
  }

  lemma WrittenNext(pass: Pass, before: map<string, ObjectResult>, after: map<string, ObjectResult>, objects: seq<PreparedObject>, n: nat, view: map<string, ObjectResult>)
    requires n < |objects| && DistinctObjects(objects) && Ids(objects) <= before.Keys
    requires Written(pass, before, after, objects, n)
    requires objects[n].id in after ==> view == after[objects[n].id := pass.Write(objects[n], after[objects[n].id])]
    ensures Written(pass, before, view, objects, n + 1)
  {
    var id := objects[n].id;
    assert objects[n] in objects;
    assert objects[..n + 1] == objects[..n] + [objects[n]];
    assert id !in Ids(objects[..n]);
    assert after[id] == before[id];
    forall k | 0 <= k <= n
      ensures objects[k].id in before && view[objects[k].id] == pass.Write(objects[k], before[objects[k].id])
    {
      assert k < n ==> objects[k] in objects[..n] && objects[k].id != id;
    }
  }

  lemma WrittenAll(pass: Pass, before: map<string, ObjectResult>, after: map<string, ObjectResult>, objects: seq<PreparedObject>)
    requires Written(pass, before, after, objects, |objects|)
    ensures SameOutside(before, after, Ids(objects))
    ensures forall o :: o in objects ==> o.id in before && o.id in after && after[o.id] == pass.Write(o, before[o.id])
  {
    assert objects[..|objects|] == objects;
  }

  // One step of a pass.
  method Apply(pass: Pass, objects: seq<PreparedObject>, results: array<ObjectResult>, k: nat, ghost start: map<string, ObjectResult>)
    requires k < |objects| && DistinctObjects(objects) && Ids(objects) <= start.Keys
    requires Distinct(results[..]) && Written(pass, start, ById(results[..]), objects, k)
    modifies results
    ensures Distinct(results[..]) && Written(pass, start, ById(results[..]), objects, k + 1)
  {
    ghost var view := ById(results[..]);
    assert objects[k] in objects;
    match pass {
      case Set(d) =>
        SetObjectDisposition(results, objects[k].id, d);
      case Sort(segments, inside, outside) =>
        if objects[k].AsSegment() in segments {
          SetObjectDisposition(results, objects[k].id, inside);
        } else if outside.Some? {
          SetObjectDisposition(results, objects[k].id, outside.value);
        }
      case Attest(segments) =>
        if objects[k].AsSegment() in segments {
          SetObjectDisposition(results, objects[k].id, Registered);
          SetObjectVerification(results, objects[k].id, Verified, Storage);
        }
    }
    WrittenNext(pass, start, view, objects, k, ById(results[..]));
  }

  method MarkAll(objects: seq<PreparedObject>, results: array<ObjectResult>, d: Disposition)
    requires DistinctObjects(objects) && Distinct(results[..]) && Ids(objects) <= ById(results[..]).Keys
    modifies results
    ensures Distinct(results[..])
    ensures SameOutside(old(ById(results[..])), ById(results[..]), Ids(objects))
    ensures forall o :: o in objects ==> ById(results[..])[o.id] == old(ById(results[..]))[o.id].(disposition := d)
  {
    ghost var start := ById(results[..]);
    for k := 0 to |objects|
      invariant Distinct(results[..]) && Written(Set(d), start, ById(results[..]), objects, k)
    {
      Apply(Set(d), objects, results, k, start);
    }
    WrittenAll(Set(d), start, ById(results[..]), objects);
  }

  // Splits a batch by a set of Segments while the pass records what each side is known to be.
  method Partition(pass: Pass, objects: seq<PreparedObject>, results: array<ObjectResult>)
      returns (known: seq<PreparedObject>, rest: seq<PreparedObject>)
    requires !pass.Set?
    requires DistinctObjects(objects) && Ids(objects) <= ById(results[..]).Keys && Distinct(results[..])
    modifies results
    ensures Distinct(results[..])
    ensures known == Select(objects, pass.segments, true) && rest == Select(objects, pass.segments, false)
    ensures SameOutside(old(ById(results[..])), ById(results[..]), Ids(objects))
    ensures forall o :: o in objects ==> ById(results[..])[o.id] == pass.Write(o, old(ById(results[..]))[o.id])
  {
    known, rest := [], [];
    ghost var start := ById(results[..]);
    for k := 0 to |objects|
      invariant Distinct(results[..]) && Written(pass, start, ById(results[..]), objects, k)
      invariant known == Select(objects[..k], pass.segments, true) && rest == Select(objects[..k], pass.segments, false)
    {
      assert objects[..k + 1][..k] == objects[..k];
      Apply(pass, objects, results, k, start);
      if objects[k].AsSegment() in pass.segments {
        known := known + [objects[k]];
      } else {
        rest := rest + [objects[k]];
      }
    }
    assert objects[..|objects|] == objects;
    WrittenAll(pass, start, ById(results[..]), objects);
  }

  // A readback is always evidence; what the storage reported at upload is only in the automatic mode.
  predicate Evidence(r: ObjectResult, mode: VerificationMode) {
    r.verifiedBy == Readback || (r.verifiedBy == Storage && mode == VerificationAuto)
  }

  /** What a disposition may claim about the store once an operation has returned. `named` is
      what the returned error names; a nil error names nothing. */
  ghost predicate Truthful(o: PreparedObject, r: ObjectResult, present: set<Segment>, doomed: set<Segment>, content: map<string, string>,
                           mode: VerificationMode, named: set<string>) {
    && (r.verification == Verified ==> HoldsBytes(o, content) && Evidence(r, mode))
    && match r.disposition
       case Planned => o.AsSegment() !in present
       case Unattempted => o.AsSegment() !in present
       case Rejected => o.AsSegment() !in present
       case Retracted => o.AsSegment() !in present
       case Stranded => o.id in named
       case RegistrationIndeterminate => false
       case _ => // Registered, Ingested, Resumed
         && o.AsSegment() in present && o.AsSegment() !in doomed
         && (mode != VerificationNone || r.disposition == Registered ==> r.verification == Verified)
  }

  ghost predicate AllTruthful(objects: seq<PreparedObject>, view: map<string, ObjectResult>, present: set<Segment>, doomed: set<Segment>,
                              content: map<string, string>, mode: VerificationMode, named: set<string>) {
    forall o :: o in objects ==> o.id in view && Truthful(o, view[o.id], present, doomed, content, mode, named)
  }

  // The store gained only these Segments, and lost or promised to lose only what was sent for deletion.
  ghost predicate OnlyCommits(before: set<Segment>, doomedBefore: set<Segment>, after: set<Segment>, doomedAfter: set<Segment>, allowed: set<Segment>) {
    && after <= before + allowed && before - after <= doomedAfter
    && doomedBefore <= doomedAfter <= doomedBefore + allowed
  }

  ghost predicate SameContentOutside(before: map<string, string>, after: map<string, string>, ids: set<string>) {
    forall id :: id !in ids ==> (id in before <==> id in after) && (id in before ==> after[id] == before[id])
  }

  ghost predicate Untouched(before: map<string, ObjectResult>, after: map<string, ObjectResult>, ids: set<string>) {
    before.Keys == after.Keys && forall id :: id in before && id !in ids ==> after[id] == before[id]
  }

  // Committing or retracting other Objects and naming more of them falsifies nothing already said.
  lemma TruthStands(objects: seq<PreparedObject>, view: map<string, ObjectResult>, present: set<Segment>, doomed: set<Segment>, content: map<string, string>,
                    mode: VerificationMode, named: set<string>,
                    others: seq<PreparedObject>, after: map<string, ObjectResult>, presentAfter: set<Segment>, doomedAfter: set<Segment>,
                    contentAfter: map<string, string>, namedAfter: set<string>)
    requires AllTruthful(objects, view, present, doomed, content, mode, named)
    requires Ids(objects) !! Ids(others) && Untouched(view, after, Ids(others))
    requires OnlyCommits(present, doomed, presentAfter, doomedAfter, Segments(others)) && named <= namedAfter
    requires SameContentOutside(content, contentAfter, Ids(others))
    ensures AllTruthful(objects, after, presentAfter, doomedAfter, contentAfter, mode, namedAfter)
  {
    forall o | o in objects
      ensures o.id in after && Truthful(o, after[o.id], presentAfter, doomedAfter, contentAfter, mode, namedAfter)
    {
      assert o.id in Ids(objects);
      assert o.AsSegment() !in Segments(others);
      assert o.AsSegment() in doomedAfter ==> o.AsSegment() in doomed;
      assert Truthful(o, view[o.id], present, doomed, content, mode, named);
    }
  }

  lemma OutcomeTruthful(o: PreparedObject, r: ObjectResult, outcome: Outcome, present: set<Segment>, doomed: set<Segment>, content: map<string, string>,
                        mode: VerificationMode, named: set<string>)
    requires r.disposition == Registered || r.disposition == Resumed
    requires Established(Done(outcome), o, present, doomed, content)
    requires !outcome.OutcomeVerified? ==> o.id in named
    ensures Truthful(o, ResultOf(r, outcome), present, doomed, content, mode, named)
  {
  }

  // Registered Objects that were all checked or retracted: each disposition is true.
  lemma {:induction false} VerifiedBatchTruthful(objects: seq<PreparedObject>, before: map<string, ObjectResult>, after: map<string, ObjectResult>, outcomes: seq<Outcome>,
                              present: set<Segment>, doomed: set<Segment>, content: map<string, string>, mode: VerificationMode, named: set<string>)
    requires DistinctObjects(objects) && |outcomes| == |objects|
    requires Resolves(before, after, objects, outcomes, |objects|)
    requires forall o :: o in objects ==> o.id in before && (before[o.id].disposition == Registered || before[o.id].disposition == Resumed)
    requires forall k :: 0 <= k < |objects| ==> Established(Done(outcomes[k]), objects[k], present, doomed, content)
    requires Unverified(objects, outcomes, |objects|) <= named
    ensures AllTruthful(objects, after, present, doomed, content, mode, named)
  {
    UnverifiedNames(objects, outcomes, |objects|);
    forall o | o in objects
      ensures o.id in after && Truthful(o, after[o.id], present, doomed, content, mode, named)
    {
      var k :| 0 <= k < |objects| && objects[k] == o;
      OutcomeTruthful(o, before[o.id], outcomes[k], present, doomed, content, mode, named);
    }
  }

  lemma {:induction false} VerifiedBatchComplete(objects: seq<PreparedObject>, before: map<string, ObjectResult>, after: map<string, ObjectResult>, outcomes: seq<Outcome>)
    requires DistinctObjects(objects) && |outcomes| == |objects|
    requires Resolves(before, after, objects, outcomes, |objects|)
    requires Unverified(objects, outcomes, |objects|) == {}
    ensures forall o :: o in objects ==>
        o.id in before && o.id in after && after[o.id] == ResultOf(before[o.id], OutcomeVerified)
  {
    UnverifiedNames(objects, outcomes, |objects|);
  }

  lemma RetractedBatchTruthful(objects: seq<PreparedObject>, before: map<string, ObjectResult>, after: map<string, ObjectResult>, stranded: set<string>,
                               present: set<Segment>, doomed: set<Segment>, content: map<string, string>, mode: VerificationMode, named: set<string>)
    requires Retracts(before, after, objects, stranded, present) && stranded <= named
    requires forall o :: o in objects ==> o.id in before && before[o.id].verification != Verified
    ensures AllTruthful(objects, after, present, doomed, content, mode, named)
  {
    forall o | o in objects
      ensures o.id in after && Truthful(o, after[o.id], present, doomed, content, mode, named)
    {
      assert o.id in Ids(objects);
    }
  }

  // Every Object is in the store for good and, when the mode asks for it, verified.
  ghost predicate Stored(objects: seq<PreparedObject>, view: map<string, ObjectResult>, present: set<Segment>, doomed: set<Segment>,
                         content: map<string, string>, mode: VerificationMode) {
    forall o :: o in objects ==>
      && o.id in view && view[o.id].disposition == Registered
      && o.AsSegment() in present && o.AsSegment() !in doomed
      && (view[o.id].verification == Verified ==> HoldsBytes(o, content) && Evidence(view[o.id], mode))
      && (mode != VerificationNone ==> view[o.id].verification == Verified)
  }

  ghost predicate Unverifieds(objects: seq<PreparedObject>, view: map<string, ObjectResult>) {
    forall o :: o in objects ==> o.id in view && view[o.id].verification != Verified
  }

  ghost predicate AllSound(objects: seq<PreparedObject>, present: set<Segment>, doomed: set<Segment>, content: map<string, string>) {
    forall o :: o in objects ==> Sound(o, present, doomed, content)
  }

  // Checks Segments known to be registered, or retracts them when nothing would be checked.
  method ResolveKnown(store: Store, known: seq<PreparedObject>, results: array<ObjectResult>, mode: VerificationMode) returns (status: Status)
    requires DistinctObjects(known) && Segments(known) !! store.doomed
    requires Distinct(results[..]) && Ids(known) <= ById(results[..]).Keys
    requires Unverifieds(known, ById(results[..]))
    requires forall o :: o in known ==> ById(results[..])[o.id].disposition == Registered
    modifies store`present, store`doomed, results
    ensures OnlyRetracts(old(store.present), old(store.doomed), store.present, store.doomed, Segments(known))
    ensures Distinct(results[..]) && SameOutside(old(ById(results[..])), ById(results[..]), Ids(known))
    ensures AllTruthful(known, ById(results[..]), store.present, store.doomed, store.content, mode, status.Naming())
    ensures status.Error? ==> status.named != {}
    ensures mode != VerificationNone && status.Ok? ==> Stored(known, ById(results[..]), store.present, store.doomed, store.content, mode)
    ensures store.calm && mode != VerificationNone && old(AllSound(known, store.present, store.doomed, store.content)) ==> status.Ok?
  {
    ghost var before := ById(results[..]);
    if mode != VerificationNone {
      ghost var outcomes;
      status, outcomes := VerifyAll(store, known, results);
      assert known[..|known|] == known;
      VerifiedBatchTruthful(known, before, ById(results[..]), outcomes, store.present, store.doomed, store.content, mode, status.Naming());
      if status.Ok? {
        VerifiedBatchComplete(known, before, ById(results[..]), outcomes);
      }
    } else {
      status := RetractRegisteredObjects(store, known, results);
      RetractedBatchTruthful(known, before, ById(results[..]), status.Naming(), store.present, store.doomed, store.content, mode, status.Naming());
    }
  }

  // The two halves of a batch that a reply or a readback left incomplete, resolved one after the other.
  method ResolveIncomplete(store: Store, known: seq<PreparedObject>, missing: seq<PreparedObject>, results: array<ObjectResult>, mode: VerificationMode)
      returns (named: set<string>)
    requires DistinctObjects(known) && DistinctObjects(missing) && Ids(known) !! Ids(missing)
    requires Segments(known) !! store.doomed
    requires Distinct(results[..]) && Ids(known) + Ids(missing) <= ById(results[..]).Keys
    requires Unverifieds(known, ById(results[..])) && Unverifieds(missing, ById(results[..]))
    requires forall o :: o in known ==> ById(results[..])[o.id].disposition == Registered
    modifies store`present, store`doomed, results
    ensures OnlyRetracts(old(store.present), old(store.doomed), store.present, store.doomed, Segments(known) + Segments(missing))
    ensures Distinct(results[..]) && SameOutside(old(ById(results[..])), ById(results[..]), Ids(known) + Ids(missing))
    ensures AllTruthful(known, ById(results[..]), store.present, store.doomed, store.content, mode, named)
    ensures AllTruthful(missing, ById(results[..]), store.present, store.doomed, store.content, mode, named)
  {
    var visible := ResolveKnown(store, known, results, mode);
    ghost var mid, present, doomed := ById(results[..]), store.present, store.doomed;
    forall o | o in missing ensures o.id in mid && mid[o.id].verification != Verified {
      assert o.id in Ids(missing);
    }
    var unresolved := RetractRegisteredObjects(store, missing, results);
    named := visible.Naming() + unresolved.Naming() + Ids(missing);
    RetractedBatchTruthful(missing, mid, ById(results[..]), unresolved.Naming(), store.present, store.doomed, store.content, mode, named);
    TruthStands(known, mid, present, doomed, store.content, mode, visible.Naming(), missing, ById(results[..]), store.present, store.doomed, store.content, named);
  }

  // The two halves of a split batch.
  lemma {:induction false} PartitionHalves(objects: seq<PreparedObject>, segments: set<Segment>)
    requires DistinctObjects(objects)
    ensures var known, rest := Select(objects, segments, true), Select(objects, segments, false);
      && DistinctObjects(known) && DistinctObjects(rest)
      && Ids(known) !! Ids(rest) && Ids(known) + Ids(rest) == Ids(objects) && Segments(known) + Segments(rest) == Segments(objects)
      && (forall o :: o in known ==> o in objects && o.AsSegment() in segments)
      && (forall o :: o in rest ==> o in objects && o.AsSegment() !in segments)
  {
    var known, rest := Select(objects, segments, true), Select(objects, segments, false);
    SelectSound(objects, segments, true);
    SelectSound(objects, segments, false);
    forall a, b | a in known && b in rest ensures a.id != b.id {
      var j :| 0 <= j < |objects| && objects[j] == a;
      var k :| 0 <= k < |objects| && objects[k] == b;
    }
  }

  ghost predicate BatchReady(objects: seq<PreparedObject>, view: map<string, ObjectResult>, doomed: set<Segment>) {
    DistinctObjects(objects) && Segments(objects) !! doomed && Ids(objects) <= view.Keys && Unverifieds(objects, view)
  }

  lemma {:induction false} HalvesTruthful(objects: seq<PreparedObject>, segments: set<Segment>, view: map<string, ObjectResult>, present: set<Segment>, doomed: set<Segment>,
                       content: map<string, string>, mode: VerificationMode, named: set<string>)
    requires AllTruthful(Select(objects, segments, true), view, present, doomed, content, mode, named)
    requires AllTruthful(Select(objects, segments, false), view, present, doomed, content, mode, named)
    ensures AllTruthful(objects, view, present, doomed, content, mode, named)
  {
    SelectSound(objects, segments, true);
    SelectSound(objects, segments, false);
    forall o | o in objects
      ensures o.id in view && Truthful(o, view[o.id], present, doomed, content, mode, named)
    {
      assert o in Select(objects, segments, o.AsSegment() in segments);
    }
  }

  // What a partial reply leaves out is absent, and its results say so.
  lemma {:induction false} RejectedTruthful(objects: seq<PreparedObject>, committed: set<Segment>, before: map<string, ObjectResult>, view: map<string, ObjectResult>,
    present: set<Segment>, doomed: set<Segment>, content: map<string, string>, mode: VerificationMode)
    requires BatchReady(objects, before, doomed) && Ids(objects) <= view.Keys
    requires forall o :: o in objects ==> o.id in before && view[o.id] == Sort(committed, Registered, Some(Rejected)).Write(o, before[o.id])
    requires forall o :: o in objects ==> (o.AsSegment() in committed <==> o.AsSegment() in present)
    ensures AllTruthful(Select(objects, committed, false), view, present, doomed, content, mode, {})
  {
    SelectSound(objects, committed, false);
  }

  // What a partial reply left out is rejected, the rest retracted or stranded.
  ghost predicate RolledBack(objects: seq<PreparedObject>, reported: seq<Segment>, view: map<string, ObjectResult>) {
    forall o :: o in objects ==>
      && o.id in view && (o.AsSegment() in reported ==> view[o.id].disposition in {Retracted, Stranded})
      && (o.AsSegment() !in reported ==> view[o.id].disposition == Rejected)
  }

  lemma {:induction false} RollBackComplete(objects: seq<PreparedObject>, reported: seq<Segment>, before: map<string, ObjectResult>, mid: map<string, ObjectResult>,
                            after: map<string, ObjectResult>, stranded: set<string>, present: set<Segment>)
    requires DistinctObjects(objects)
    requires var committed := set s | s in reported;
      && (forall o :: o in objects ==> o.id in before && o.id in mid && mid[o.id] == Sort(committed, Registered, Some(Rejected)).Write(o, before[o.id]))
      && Retracts(mid, after, Select(objects, committed, true), stranded, present)
    ensures RolledBack(objects, reported, after)
  {
    var committed := set s | s in reported;
    var registered := Select(objects, committed, true);
    PartitionHalves(objects, committed);
    forall o | o in objects ensures o.id in after && if o.AsSegment() in reported then after[o.id].disposition in {Retracted, Stranded} else after[o.id].disposition == Rejected {
      SelectSound(objects, committed, true);
      SelectSound(objects, committed, false);
      if o.AsSegment() in reported {
        assert o in registered;
      } else {
        assert o in Select(objects, committed, false) && o.id in Ids(Select(objects, committed, false));
      }
    }
  }

  // A typed partial reply: what it registered is rolled back, the rest is known to be rejected.
  method RollBackPartial(store: Store, objects: seq<PreparedObject>, results: array<ObjectResult>, ghost mode: VerificationMode, reported: seq<Segment>)
      returns (status: Status)
    requires Distinct(results[..]) && BatchReady(objects, ById(results[..]), store.doomed)
    requires forall o :: o in objects ==> (o.AsSegment() in reported <==> o.AsSegment() in store.present)
    modifies store`present, store`doomed, results
    ensures OnlyRetracts(old(store.present), old(store.doomed), store.present, store.doomed, Segments(objects))
    ensures Distinct(results[..]) && SameOutside(old(ById(results[..])), ById(results[..]), Ids(objects))
    ensures status.Error? && AllTruthful(objects, ById(results[..]), store.present, store.doomed, store.content, mode, status.named)
    ensures RolledBack(objects, reported, ById(results[..]))
  {
    var committed := set s | s in reported;
    var registered, rejected := Partition(Sort(committed, Registered, Some(Rejected)), objects, results);
    PartitionHalves(objects, committed);
    ghost var mid := ById(results[..]);
    RejectedTruthful(objects, committed, old(ById(results[..])), mid, store.present, store.doomed, store.content, mode);
    var cleanup := RetractRegisteredObjects(store, registered, results);
    status := Error(Ids(rejected) + Ids(registered)).Join(cleanup);
    RetractedBatchTruthful(registered, mid, ById(results[..]), cleanup.Naming(), store.present, store.doomed, store.content, mode, status.Naming());
    RollBackComplete(objects, reported, old(ById(results[..])), mid, ById(results[..]), cleanup.Naming(), store.present);
    TruthStands(rejected, mid, old(store.present), old(store.doomed), store.content, mode, {}, registered, ById(results[..]), store.present, store.doomed, store.content, status.Naming());
    HalvesTruthful(objects, committed, ById(results[..]), store.present, store.doomed, store.content, mode, status.Naming());
  }

  lemma {:induction false} NoneLeftOut(objects: seq<PreparedObject>, listed: set<Segment>)
    ensures Segments(objects) <= listed ==> Select(objects, listed, false) == []
  {
    SelectSound(objects, listed, false);
    var rest := Select(objects, listed, false);
    assert rest == [] || rest[0] in rest;
    forall o | o in objects ensures o.AsSegment() in Segments(objects) {
    }
  }

  // A readback that did not show the whole batch.
  method ResolveReadback(store: Store, objects: seq<PreparedObject>, results: array<ObjectResult>, mode: VerificationMode, listed: set<Segment>)
      returns (status: Status)
    requires Distinct(results[..]) && BatchReady(objects, ById(results[..]), store.doomed)
    modifies store`present, store`doomed, results
    ensures OnlyRetracts(old(store.present), old(store.doomed), store.present, store.doomed, Segments(objects))
    ensures Distinct(results[..]) && SameOutside(old(ById(results[..])), ById(results[..]), Ids(objects))
    ensures status.Ok? ==> Segments(objects) <= listed
    ensures status.Ok? && mode != VerificationNone ==>
        Stored(objects, ById(results[..]), store.present, store.doomed, store.content, mode)
    ensures status.Ok? && mode == VerificationNone ==> store.present == old(store.present) && store.doomed == old(store.doomed) && Unverifieds(objects, ById(results[..]))
    ensures status.Ok? ==> forall o :: o in objects ==> ById(results[..])[o.id].disposition == Registered
    ensures status.Error? ==> AllTruthful(objects, ById(results[..]), store.present, store.doomed, store.content, mode, status.named)
    ensures store.calm && Segments(objects) <= listed && old(AllSound(objects, store.present, store.doomed, store.content)) ==> status.Ok?
  {
    var visible, unresolved := Partition(Sort(listed, Registered, None), objects, results);
    PartitionHalves(objects, listed);
    NoneLeftOut(objects, listed);
    if unresolved == [] {
      SelectAll(objects, listed);
      status := Ok;
      if mode != VerificationNone {
        status := ResolveKnown(store, visible, results, mode);
      }
    } else {
      var named := ResolveIncomplete(store, visible, unresolved, results, mode);
      status := Error(named);
      HalvesTruthful(objects, listed, ById(results[..]), store.present, store.doomed, store.content, mode, named);
    }
  }

  ghost predicate AllLast(objects: seq<PreparedObject>) { forall o :: o in objects ==> o.duration > 0 }

  // A truthful listing of the batch's span shows all of its Segments that last.
  lemma {:induction false} ReadbackShows(objects: seq<PreparedObject>, timerange: Option<Timerange>, present: set<Segment>, listed: set<Segment>)
    requires objects != [] && listed == set s | s in present && Query(None, timerange).Selects(s)
    requires timerange.Some? ==> timerange.value == Timerange(FirstStart(objects), LastEnd(objects) - FirstStart(objects))
    ensures Segments(objects) <= present && AllLast(objects) ==> Segments(objects) <= listed
  {
    if Segments(objects) <= present && AllLast(objects) {
      forall o | o in objects ensures o.AsSegment() in listed {
        SpanWithin(objects, o);
        BatchFilterSees(objects, o);
        assert o.AsSegment() in Segments(objects);
      }
    }
  }

  /** Resolves a typed partial reply or a lost one. No error means the whole batch is in the
      store and verified as the mode asks; an error leaves no Object indeterminate. */
  method ReconcileRegistrationError(store: Store, objects: seq<PreparedObject>, results: array<ObjectResult>, mode: VerificationMode, reply: RegisterReply)
      returns (status: Status)
    requires objects != [] && OnTimeline(objects) && Distinct(results[..]) && !reply.Committed?
    requires BatchReady(objects, ById(results[..]), store.doomed)
    requires reply.Partial? ==> forall o :: o in objects ==> (o.AsSegment() in reply.registered <==> o.AsSegment() in store.present)
    modifies store`present, store`doomed, results
    ensures OnlyRetracts(old(store.present), old(store.doomed), store.present, store.doomed, Segments(objects))
    ensures Distinct(results[..]) && SameOutside(old(ById(results[..])), ById(results[..]), Ids(objects))
    ensures status.Ok? ==> Stored(objects, ById(results[..]), store.present, store.doomed, store.content, mode)
    ensures status.Error? ==> AllTruthful(objects, ById(results[..]), store.present, store.doomed, store.content, mode, status.named)
    ensures reply.Partial? ==> RolledBack(objects, reply.registered, ById(results[..]))
    ensures store.calm && reply.Unanswered? && old(AllSound(objects, store.present, store.doomed, store.content)) && AllLast(objects) ==> status.Ok?
  {
    if reply.Partial? {
      status := RollBackPartial(store, objects, results, mode, reply.registered);
      return;
    }
    var timerange := ChunkTimerange(objects);
    var listed := store.List(Query(None, timerange));
    if listed.None? {
      var cleanup := RetractRegisteredObjects(store, objects, results);
      status := Error(Ids(objects)).Join(cleanup);
      RetractedBatchTruthful(objects, old(ById(results[..])), ById(results[..]), cleanup.Naming(), store.present, store.doomed, store.content, mode, status.Naming());
    } else {
      ReadbackShows(objects, timerange, store.present, listed.value);
      forall o | o in objects && o.AsSegment() !in store.doomed ensures o.AsSegment() in old(store.present) ==> o.AsSegment() in store.present {
      }
      status := ResolveReadback(store, objects, results, mode, listed.value);
      if status.Ok? && mode == VerificationNone {
        forall o | o in objects ensures o.AsSegment() in store.present && o.AsSegment() !in store.doomed {
          assert o.AsSegment() in Segments(objects);
        }
      }
    }
  }
}
