/** Resolving registered Objects one by one (internal/ingest/verify.go, the retraction pool of
    internal/ingest/registration.go, internal/tams/deletion.go). A worker pool is modelled by
    its interleavings: while any Object is unresolved, some worker makes one remote call. */
module Verification {
  import opened Text
  import opened RemoteStore
  import opened ObjectResults

  datatype Outcome = OutcomeVerified | OutcomeRetracted | OutcomeRetractionFailed

  // Where one Object stands; `polls` is how many more answers its deadline leaves time for.
  datatype Task =
    | AwaitingSlot(polls: nat)
    | RefreshingUrl(polls: nat)
    | Downloading(polls: nat)
    | Deleting(polls: nat)
    | AwaitingDeletion(polls: nat)
    | ConfirmingAbsence(polls: nat)
    | Done(outcome: Outcome)

  // nil, or an error whose text names these Objects.
  datatype Status = Ok | Error(named: set<string>) {
    function Naming(): set<string> { if Ok? then {} else named }

    function Join(other: Status): Status {
      if Ok? then other else if other.Ok? then this else Error(named + other.named)
    }
  }

  function Rank(task: Task): nat {
    match task
    case AwaitingSlot(p) => 2 * p + 6
    case RefreshingUrl(p) => 2 * p + 5
    case Downloading(p) => 2 * p + 4
    case Deleting(p) => 2 * p + 3
    case AwaitingDeletion(p) => 2 * p + 2
    case ConfirmingAbsence(p) => 2 * p + 1
    case Done(_) => 0
  }

  ghost function Work(tasks: seq<Task>): nat {
    if tasks == [] then 0 else Rank(tasks[0]) + Work(tasks[1..])
  }

  lemma {:induction false} WorkDecreases(tasks: seq<Task>, i: nat, task: Task)
    requires i < |tasks| && Rank(task) < Rank(tasks[i])
    ensures Work(tasks[i := task]) < Work(tasks)
  {
    var after := tasks[i := task];
    if i == 0 {
      assert after[1..] == tasks[1..];
    } else {
      assert after[1..] == tasks[1..][i - 1 := task];
      WorkDecreases(tasks[1..], i - 1, task);
    }
  }

  // What each stage has established about its Object's Segment.
  ghost predicate Established(task: Task, item: PreparedObject, present: set<Segment>, doomed: set<Segment>, content: map<string, string>) {
    match task
    case AwaitingSlot(_) => item.AsSegment() !in doomed
    case RefreshingUrl(_) => item.AsSegment() !in doomed
    case Downloading(_) => item.AsSegment() in present && item.AsSegment() !in doomed
    case Done(OutcomeVerified) =>
      item.AsSegment() in present && item.AsSegment() !in doomed && HoldsBytes(item, content)
    case Done(OutcomeRetracted) => item.AsSegment() !in present
    case _ => true
  }

  ghost predicate HoldsBytes(item: PreparedObject, content: map<string, string>) {
    item.id in content && content[item.id] == item.sha256
  }

  ghost predicate DistinctObjects(objects: seq<PreparedObject>) {
    forall j, k :: 0 <= j < k < |objects| ==> objects[j].id != objects[k].id
  }

  // In a calm environment: what was sent for deletion is gone, and no retraction fails.
  ghost predicate Unhindered(task: Task, item: PreparedObject, present: set<Segment>) {
    && (task.AwaitingDeletion? || task.ConfirmingAbsence? ==> item.AsSegment() !in present)
    && task != Done(OutcomeRetractionFailed)
  }

  // A registered Object with the right bytes, on its way to being verified.
  ghost predicate Keeps(task: Task, item: PreparedObject, present: set<Segment>, doomed: set<Segment>, content: map<string, string>) {
    && Sound(item, present, doomed, content)
    && !Withdrawing(task) && (task.Done? ==> task == Done(OutcomeVerified))
  }

  // Registered for good, with the right bytes.
  ghost predicate Sound(item: PreparedObject, present: set<Segment>, doomed: set<Segment>, content: map<string, string>) {
    item.AsSegment() in present && item.AsSegment() !in doomed && HoldsBytes(item, content)
  }

  // The state of a pool in a calm environment; `kept` are the Objects that were sound when it began.
  ghost predicate PoolCalm(tasks: seq<Task>, objects: seq<PreparedObject>, kept: set<PreparedObject>, present: set<Segment>, doomed: set<Segment>, content: map<string, string>) {
    && |tasks| == |objects|
    && forall k :: 0 <= k < |objects| ==>
      Unhindered(tasks[k], objects[k], present) && (objects[k] in kept ==> Keeps(tasks[k], objects[k], present, doomed, content))
  }

  lemma {:induction false} PoolStaysCalm(tasks: seq<Task>, objects: seq<PreparedObject>, kept: set<PreparedObject>, i: nat, next: Task,
                    present: set<Segment>, doomed: set<Segment>, after: set<Segment>, doomedAfter: set<Segment>, content: map<string, string>)
    requires DistinctObjects(objects) && i < |objects| && PoolCalm(tasks, objects, kept, present, doomed, content)
    requires OnlyRetracts(present, doomed, after, doomedAfter, {objects[i].AsSegment()})
    requires Unhindered(next, objects[i], after) && (objects[i] in kept ==> Keeps(next, objects[i], after, doomedAfter, content))
    ensures PoolCalm(tasks[i := next], objects, kept, after, doomedAfter, content)
  {
    forall k | 0 <= k < |objects| && k != i
      ensures Unhindered(tasks[k], objects[k], after) && (objects[k] in kept ==> Keeps(tasks[k], objects[k], after, doomedAfter, content))
    {
      assert objects[k].AsSegment() != objects[i].AsSegment();
      assert objects[k].AsSegment() in doomedAfter ==> objects[k].AsSegment() in doomed;
    }
  }

  // One remote call on behalf of one Object (verifyOneWithRetraction, DeleteSegments).
  method Step(store: Store, item: PreparedObject, task: Task) returns (next: Task)
    requires !task.Done? && Established(task, item, store.present, store.doomed, store.content)
    modifies store`present, store`doomed
    ensures Rank(next) < Rank(task)
    ensures Established(next, item, store.present, store.doomed, store.content)
    ensures Shrinks(old(store.present), store.present, store.doomed)
    ensures old(store.doomed) <= store.doomed <= old(store.doomed) + {item.AsSegment()}
    ensures next == Done(OutcomeVerified) ==> task.Downloading?
    ensures Withdrawing(task) ==> Withdrawing(next) || next.Done?
    ensures store.calm && Unhindered(task, item, old(store.present)) ==> Unhindered(next, item, store.present)
    ensures store.calm && old(Keeps(task, item, store.present, store.doomed, store.content)) ==> Keeps(next, item, store.present, store.doomed, store.content)
  {
    var query := Query(Some(item.id), Some(item.Span()));
    match task {
      case AwaitingSlot(p) =>
        var cancelled: bool := *;
        next := if cancelled && !store.calm then Deleting(p) else RefreshingUrl(p);
      case RefreshingUrl(p) =>
        var listed := store.List(query);
        next := if listed.Some? && item.AsSegment() in listed.value then Downloading(p) else Deleting(p);
      case Downloading(p) =>
        var digest := store.DownloadDigest(item.id);
        next := if digest == Some(item.sha256) then Done(OutcomeVerified) else Deleting(p);
      case Deleting(p) =>
        var reply := store.Delete(item.AsSegment());
        next := match reply
          case Refused => Done(OutcomeRetractionFailed)
          case Queued => AwaitingDeletion(p)
          case _ => ConfirmingAbsence(p);
      case AwaitingDeletion(p) =>
        var reply := store.PollDeletion();
        next := match reply
          case Broken => Done(OutcomeRetractionFailed)
          case Running => if p == 0 then Done(OutcomeRetractionFailed) else AwaitingDeletion(p - 1)
          case _ => ConfirmingAbsence(p);
      case ConfirmingAbsence(p) =>
        var listed := store.List(query);
        if listed.None? {
          next := Done(OutcomeRetractionFailed);
        } else if item.AsSegment() !in listed.value {
          next := Done(OutcomeRetracted);
        } else {
          next := if p == 0 then Done(OutcomeRetractionFailed) else ConfirmingAbsence(p - 1);
        }
    }
  }

  ghost predicate AllEstablished(tasks: seq<Task>, objects: seq<PreparedObject>, present: set<Segment>, doomed: set<Segment>, content: map<string, string>) {
    && |tasks| == |objects|
    && forall k :: 0 <= k < |objects| ==> Established(tasks[k], objects[k], present, doomed, content)
  }

  // The store lost Segments only to deletion, and only these Segments were sent for deletion.
  ghost predicate OnlyRetracts(before: set<Segment>, doomedBefore: set<Segment>, after: set<Segment>, doomedAfter: set<Segment>, allowed: set<Segment>) {
    && Shrinks(before, after, doomedAfter)
    && doomedBefore <= doomedAfter <= doomedBefore + allowed
  }

  // One worker's step leaves what is established about every other Object standing.
  lemma OthersStand(tasks: seq<Task>, objects: seq<PreparedObject>, i: nat, next: Task,
                    present: set<Segment>, doomed: set<Segment>, after: set<Segment>, doomedAfter: set<Segment>, content: map<string, string>)
    requires DistinctObjects(objects) && i < |objects|
    requires AllEstablished(tasks, objects, present, doomed, content)
    requires OnlyRetracts(present, doomed, after, doomedAfter, {objects[i].AsSegment()})
    requires Established(next, objects[i], after, doomedAfter, content)
    ensures AllEstablished(tasks[i := next], objects, after, doomedAfter, content)
  {
    forall k | 0 <= k < |objects| && k != i
      ensures Established(tasks[k], objects[k], after, doomedAfter, content)
    {
      assert objects[k].AsSegment() != objects[i].AsSegment();
      assert objects[k].AsSegment() in doomedAfter ==> objects[k].AsSegment() in doomed;
    }
  }

  function ResultOf(r: ObjectResult, outcome: Outcome): ObjectResult {
    match outcome
    case OutcomeVerified => r.(verification := Verified, verifiedBy := Readback)
    case OutcomeRetracted => r.(disposition := Retracted, verification := Failed, verifiedBy := Readback)
    case OutcomeRetractionFailed => r.(disposition := Stranded, verification := Failed, verifiedBy := Readback)
  }

  ghost predicate SameOutside(before: map<string, ObjectResult>, after: map<string, ObjectResult>, ids: set<string>) {
    && before.Keys == after.Keys
    && (forall id :: id in before && id !in ids ==> after[id] == before[id])
    && (forall id :: id in before ==> after[id].reported == before[id].reported)
  }

  // Some worker of a pool makes the next remote call for Object k.
  method Advance(store: Store, objects: seq<PreparedObject>, tasks: seq<Task>, k: nat, ghost kept: set<PreparedObject>) returns (next: Task)
    requires DistinctObjects(objects) && k < |tasks| && !tasks[k].Done?
    requires AllEstablished(tasks, objects, store.present, store.doomed, store.content)
    modifies store`present, store`doomed
    ensures Rank(next) < Rank(tasks[k])
    ensures AllEstablished(tasks[k := next], objects, store.present, store.doomed, store.content)
    ensures OnlyRetracts(old(store.present), old(store.doomed), store.present, store.doomed, Segments(objects))
    ensures Withdrawing(tasks[k]) ==> Withdrawing(next) || next == Done(OutcomeRetracted) || next == Done(OutcomeRetractionFailed)
    ensures store.calm && old(PoolCalm(tasks, objects, kept, store.present, store.doomed, store.content)) ==>
      PoolCalm(tasks[k := next], objects, kept, store.present, store.doomed, store.content)
  {
    next := Step(store, objects[k], tasks[k]);
    OthersStand(tasks, objects, k, next, old(store.present), old(store.doomed), store.present, store.doomed, store.content);
    assert objects[k] in objects;
    if store.calm && PoolCalm(tasks, objects, kept, old(store.present), old(store.doomed), store.content) {
      PoolStaysCalm(tasks, objects, kept, k, next, old(store.present), old(store.doomed), store.present, store.doomed, store.content);
    }
  }

  predicate Withdrawing(task: Task) { task.Deleting? || task.AwaitingDeletion? || task.ConfirmingAbsence? }

  lemma RetractsCompose(p0: set<Segment>, d0: set<Segment>, p1: set<Segment>, d1: set<Segment>, p2: set<Segment>, d2: set<Segment>, allowed: set<Segment>)
    requires OnlyRetracts(p0, d0, p1, d1, allowed) && OnlyRetracts(p1, d1, p2, d2, allowed)
    ensures OnlyRetracts(p0, d0, p2, d2, allowed)
  {
  }

  // The bounded pool of verifyAll: every Object reaches an outcome, in any order of remote calls.
  method VerifyPool(store: Store, objects: seq<PreparedObject>) returns (outcomes: seq<Outcome>)
    requires DistinctObjects(objects) && Segments(objects) !! store.doomed
    modifies store`present, store`doomed
    ensures OnlyRetracts(old(store.present), old(store.doomed), store.present, store.doomed, Segments(objects))
    ensures |outcomes| == |objects|
    ensures forall k :: 0 <= k < |objects| ==> Established(Done(outcomes[k]), objects[k], store.present, store.doomed, store.content)
    ensures store.calm ==> forall k :: 0 <= k < |objects| ==>
      outcomes[k] == if old(Sound(objects[k], store.present, store.doomed, store.content)) then OutcomeVerified else OutcomeRetracted
  {
    ghost var kept := set o | o in objects && Sound(o, store.present, store.doomed, store.content);
    var polls: nat -> nat := *; // how many polls each Object's share of the deadline allows
    var tasks := seq(|objects|, k requires 0 <= k < |objects| => AwaitingSlot(polls(k)));
    while exists k :: 0 <= k < |tasks| && !tasks[k].Done?
      invariant |tasks| == |objects|
      invariant AllEstablished(tasks, objects, store.present, store.doomed, store.content)
      invariant OnlyRetracts(old(store.present), old(store.doomed), store.present, store.doomed, Segments(objects))
      invariant store.calm ==> PoolCalm(tasks, objects, kept, store.present, store.doomed, store.content)
      decreases Work(tasks)
    {
      var k :| 0 <= k < |tasks| && !tasks[k].Done?;
      ghost var present, doomed := store.present, store.doomed;
      var next := Advance(store, objects, tasks, k, kept);
      RetractsCompose(old(store.present), old(store.doomed), present, doomed, store.present, store.doomed, Segments(objects));
      WorkDecreases(tasks, k, next);
      tasks := tasks[k := next];
    }
    outcomes := seq(|objects|, k requires 0 <= k < |objects| => tasks[k].outcome);
    forall k | 0 <= k < |objects| ensures Established(Done(outcomes[k]), objects[k], store.present, store.doomed, store.content) {
      assert tasks[k] == Done(outcomes[k]);
    }
    if store.calm {
      CalmOutcomes(tasks, objects, kept, old(store.present), old(store.doomed), store.present, store.doomed, store.content);
    }
  }

  lemma {:induction false} CalmOutcomes(tasks: seq<Task>, objects: seq<PreparedObject>, kept: set<PreparedObject>, before: set<Segment>, doomedBefore: set<Segment>,
                    present: set<Segment>, doomed: set<Segment>, content: map<string, string>)
    requires PoolCalm(tasks, objects, kept, present, doomed, content) && AllEstablished(tasks, objects, present, doomed, content)
    requires OnlyRetracts(before, doomedBefore, present, doomed, Segments(objects))
    requires kept == set o | o in objects && Sound(o, before, doomedBefore, content)
    requires forall k :: 0 <= k < |objects| ==> tasks[k].Done?
    ensures forall k :: 0 <= k < |objects| ==>
      tasks[k].outcome == if Sound(objects[k], before, doomedBefore, content) then OutcomeVerified else OutcomeRetracted
  {
    forall k | 0 <= k < |objects|
      ensures tasks[k].outcome == if Sound(objects[k], before, doomedBefore, content) then OutcomeVerified else OutcomeRetracted
    {
      assert Unhindered(tasks[k], objects[k], present) && Established(tasks[k], objects[k], present, doomed, content);
    }
  }

  /** Checks every registered Object and retracts each one that fails; no failure cancels a
      sibling. The error names exactly the Objects that did not verify. */
  method VerifyAll(store: Store, objects: seq<PreparedObject>, results: array<ObjectResult>)
      returns (status: Status, ghost outcomes: seq<Outcome>)
    requires DistinctObjects(objects) && Segments(objects) !! store.doomed
    requires Ids(objects) <= ById(results[..]).Keys
    requires Distinct(results[..])
    modifies store`present, store`doomed, results
    ensures OnlyRetracts(old(store.present), old(store.doomed), store.present, store.doomed, Segments(objects))
    ensures |outcomes| == |objects|
    ensures forall k :: 0 <= k < |objects| ==> Established(Done(outcomes[k]), objects[k], store.present, store.doomed, store.content)
    ensures Distinct(results[..])
    ensures Resolves(old(ById(results[..])), ById(results[..]), objects, outcomes, |objects|)
    ensures status.Error? ==> status.named != {}
    ensures status.Naming() == Unverified(objects, outcomes, |objects|)
    ensures store.calm ==> forall k :: 0 <= k < |objects| ==>
      outcomes[k] == if old(Sound(objects[k], store.present, store.doomed, store.content)) then OutcomeVerified else OutcomeRetracted
    ensures AllChecked(objects, old(ById(results[..])), ById(results[..]), status.Naming())
    ensures store.calm && (forall o :: o in objects ==> old(Sound(o, store.present, store.doomed, store.content))) ==> status.Ok?
  {
    var collected := VerifyPool(store, objects);
    outcomes := collected;
    var named := RecordOutcomes(objects, collected, results);
    UnverifiedNames(objects, collected, |objects|);
    ResolvedChecked(objects, collected, old(ById(results[..])), ById(results[..]), named);
    status := if named == {} then Ok else Error(named);
  }

  // One entry after its check: verified by readback, or failed and withdrawn as far as possible.
  predicate Checked(before: ObjectResult, after: ObjectResult, failed: bool) {
    && after.objectId == before.objectId && after.reported == before.reported && after.verifiedBy == Readback
    && (if failed then after.verification == Failed && after.disposition in {Retracted, Stranded}
        else after.verification == Verified && after.disposition == before.disposition)
  }

  ghost predicate AllChecked(objects: seq<PreparedObject>, before: map<string, ObjectResult>, after: map<string, ObjectResult>, named: set<string>) {
    forall o :: o in objects ==> o.id in after && o.id in before && Checked(before[o.id], after[o.id], o.id in named)
  }

  lemma {:induction false} ResolvedChecked(objects: seq<PreparedObject>, outcomes: seq<Outcome>, before: map<string, ObjectResult>, after: map<string, ObjectResult>, named: set<string>)
    requires DistinctObjects(objects) && |outcomes| == |objects| && Resolves(before, after, objects, outcomes, |objects|)
    requires named == Unverified(objects, outcomes, |objects|)
    ensures AllChecked(objects, before, after, named)
  {
    UnverifiedNames(objects, outcomes, |objects|);
    forall o | o in objects ensures o.id in after && o.id in before && Checked(before[o.id], after[o.id], o.id in named) {
      var k :| 0 <= k < |objects| && objects[k] == o;
      assert after[objects[k].id] == ResultOf(before[objects[k].id], outcomes[k]);
    }
  }

  // The sequential pass over the pool's outcomes.
  method RecordOutcomes(objects: seq<PreparedObject>, outcomes: seq<Outcome>, results: array<ObjectResult>)
      returns (named: set<string>)
    requires DistinctObjects(objects) && |outcomes| == |objects|
    requires Ids(objects) <= ById(results[..]).Keys && Distinct(results[..])
    modifies results
    ensures Distinct(results[..])
    ensures Resolves(old(ById(results[..])), ById(results[..]), objects, outcomes, |objects|)
    ensures named == Unverified(objects, outcomes, |objects|)
  {
    named := {};
    ghost var start := ById(results[..]);
    for i := 0 to |objects|
      invariant Distinct(results[..])
      invariant Resolves(start, ById(results[..]), objects, outcomes, i)
      invariant named == Unverified(objects, outcomes, i)
    {
      RecordNextOutcome(objects, outcomes, results, i, start);
      named := named + if outcomes[i].OutcomeVerified? then {} else {objects[i].id};
    }
  }

  method RecordNextOutcome(objects: seq<PreparedObject>, outcomes: seq<Outcome>, results: array<ObjectResult>, i: nat,
                           ghost start: map<string, ObjectResult>)
    requires DistinctObjects(objects) && i < |outcomes| == |objects| && Ids(objects) <= start.Keys
    requires Distinct(results[..]) && Resolves(start, ById(results[..]), objects, outcomes, i)
    modifies results
    ensures Distinct(results[..]) && Resolves(start, ById(results[..]), objects, outcomes, i + 1)
  {
    ResolveNext(start, ById(results[..]), objects, outcomes, i);
    RecordOutcome(results, objects[i].id, outcomes[i]);
  }

  // The first n outcomes have been written to the results and nothing else changed.
  ghost predicate Resolves(before: map<string, ObjectResult>, after: map<string, ObjectResult>, objects: seq<PreparedObject>, outcomes: seq<Outcome>, n: nat)
    requires n <= |objects| == |outcomes|
  {
    && SameOutside(before, after, Ids(objects[..n]))
    && forall k :: 0 <= k < n ==> objects[k].id in before && after[objects[k].id] == ResultOf(before[objects[k].id], outcomes[k])
  }

  // The Objects among the first n whose failure the collected error names.
  function Unverified(objects: seq<PreparedObject>, outcomes: seq<Outcome>, n: nat): set<string>
    requires n <= |objects| == |outcomes|
  {
    if n == 0 then {}
    else Unverified(objects, outcomes, n - 1) + if outcomes[n - 1].OutcomeVerified? then {} else {objects[n - 1].id}
  }

  lemma {:induction false} UnverifiedNames(objects: seq<PreparedObject>, outcomes: seq<Outcome>, n: nat)
    requires n <= |objects| == |outcomes| && DistinctObjects(objects)
    ensures forall k :: 0 <= k < n ==> (objects[k].id in Unverified(objects, outcomes, n) <==> !outcomes[k].OutcomeVerified?)
    ensures forall k :: n <= k < |objects| ==> objects[k].id !in Unverified(objects, outcomes, n)
    ensures Unverified(objects, outcomes, n) == {} <==> forall k :: 0 <= k < n ==> outcomes[k].OutcomeVerified?
  {
    if n > 0 {
      UnverifiedNames(objects, outcomes, n - 1);
    }
  }

  lemma ResolveNext(before: map<string, ObjectResult>, after: map<string, ObjectResult>, objects: seq<PreparedObject>, outcomes: seq<Outcome>, n: nat)
    requires n < |objects| == |outcomes| && DistinctObjects(objects)
    requires Resolves(before, after, objects, outcomes, n)
    requires Ids(objects) <= before.Keys
    ensures objects[n].id !in Ids(objects[..n]) && objects[n].id in after
    ensures Resolves(before, after[objects[n].id := ResultOf(after[objects[n].id], outcomes[n])], objects, outcomes, n + 1)
  {
    assert objects[n] in objects;
    assert objects[..n + 1] == objects[..n] + [objects[n]];
  }

  method RecordOutcome(results: array<ObjectResult>, id: string, outcome: Outcome)
    requires id in ById(results[..])
    modifies results
    ensures ById(results[..]) == old(ById(results[..]))[id := ResultOf(old(ById(results[..]))[id], outcome)]
    ensures old(Distinct(results[..])) ==> Distinct(results[..])
  {
    match outcome {
      case OutcomeVerified =>
        SetObjectVerification(results, id, Verified, Readback);
      case OutcomeRetracted =>
        SetObjectDisposition(results, id, Retracted);
        SetObjectVerification(results, id, Failed, Readback);
      case OutcomeRetractionFailed =>
        SetObjectDisposition(results, id, Stranded);
        SetObjectVerification(results, id, Failed, Readback);
    }
  }

  // A retraction worker's call for Object k, and the disposition it records when that was the last.
  method AdvanceRetraction(store: Store, objects: seq<PreparedObject>, tasks: seq<Task>, k: nat,
                           results: array<ObjectResult>, named: set<string>, ghost start: map<string, ObjectResult>)
      returns (next: Task, names: set<string>)
    requires DistinctObjects(objects) && k < |tasks| && !tasks[k].Done?
    requires AllEstablished(tasks, objects, store.present, store.doomed, store.content)
    requires Distinct(results[..]) && AllRecorded(tasks, objects, ById(results[..]), start, named)
    requires store.calm ==> PoolCalm(tasks, objects, {}, store.present, store.doomed, store.content)
    modifies store`present, store`doomed, results
    ensures store.calm ==> PoolCalm(tasks[k := next], objects, {}, store.present, store.doomed, store.content)
    ensures Rank(next) < Rank(tasks[k])
    ensures AllEstablished(tasks[k := next], objects, store.present, store.doomed, store.content)
    ensures OnlyRetracts(old(store.present), old(store.doomed), store.present, store.doomed, Segments(objects))
    ensures Distinct(results[..]) && AllRecorded(tasks[k := next], objects, ById(results[..]), start, names)
  {
    assert Recorded(tasks[k], ById(results[..])[objects[k].id], start[objects[k].id]);
    next := Advance(store, objects, tasks, k, {});
    RecordNext(tasks, objects, k, next, ById(results[..]), start, named);
    RecordRetraction(results, objects[k].id, next);
    names := if next == Done(OutcomeRetractionFailed) then named + {objects[k].id} else named;
  }

  /** Deletes every one of these Segments, recording each disposition as its worker finishes.
      The error names exactly the Objects left stranded. */
  method RetractRegisteredObjects(store: Store, objects: seq<PreparedObject>, results: array<ObjectResult>)
      returns (status: Status)
    requires DistinctObjects(objects)
    requires Ids(objects) <= ById(results[..]).Keys
    requires Distinct(results[..])
    modifies store`present, store`doomed, results
    ensures OnlyRetracts(old(store.present), old(store.doomed), store.present, store.doomed, Segments(objects))
    ensures Distinct(results[..])
    ensures Retracts(old(ById(results[..])), ById(results[..]), objects, status.Naming(), store.present)
    ensures status.Error? ==> status.named != {}
    ensures store.calm ==> status.Ok?
  {
    var polls: nat -> nat := *;
    var tasks := seq(|objects|, k requires 0 <= k < |objects| => Deleting(polls(k)));
    var named: set<string> := {};
    ghost var start := ById(results[..]);
    while exists k :: 0 <= k < |tasks| && !tasks[k].Done?
      invariant |tasks| == |objects|
      invariant AllEstablished(tasks, objects, store.present, store.doomed, store.content)
      invariant OnlyRetracts(old(store.present), old(store.doomed), store.present, store.doomed, Segments(objects))
      invariant Distinct(results[..]) && AllRecorded(tasks, objects, ById(results[..]), start, named)
      invariant store.calm ==> PoolCalm(tasks, objects, {}, store.present, store.doomed, store.content)
      decreases Work(tasks)
    {
      var k :| 0 <= k < |tasks| && !tasks[k].Done?;
      ghost var present, doomed := store.present, store.doomed;
      var next;
      next, named := AdvanceRetraction(store, objects, tasks, k, results, named, start);
      RetractsCompose(old(store.present), old(store.doomed), present, doomed, store.present, store.doomed, Segments(objects));
      WorkDecreases(tasks, k, next);
      tasks := tasks[k := next];
    }
    AllRecordedRetracts(tasks, objects, ById(results[..]), start, named, store.present, store.doomed, store.content);
    if store.calm && named != {} {
      NamedNotCalm(tasks, objects, ById(results[..]), start, named, store.present, store.doomed, store.content);
    }
    status := if named == {} then Ok else Error(named);
  }

  lemma {:induction false} NamedNotCalm(tasks: seq<Task>, objects: seq<PreparedObject>, now: map<string, ObjectResult>, before: map<string, ObjectResult>, named: set<string>,
                    present: set<Segment>, doomed: set<Segment>, content: map<string, string>)
    requires AllRecorded(tasks, objects, now, before, named) && named != {}
    ensures !PoolCalm(tasks, objects, {}, present, doomed, content)
  {
    var id :| id in named;
    var o :| o in objects && o.id == id;
    var k :| 0 <= k < |objects| && objects[k] == o;
    assert !Unhindered(tasks[k], objects[k], present);
  }

  method RecordRetraction(results: array<ObjectResult>, id: string, next: Task)
    modifies results
    ensures ById(results[..]) == ViewAfter(old(ById(results[..])), id, next)
    ensures old(Distinct(results[..])) ==> Distinct(results[..])
  {
    if next == Done(OutcomeRetractionFailed) {
      SetObjectDisposition(results, id, Stranded);
    } else if next.Done? {
      SetObjectDisposition(results, id, Retracted);
    }
  }

  lemma AllRecordedRetracts(tasks: seq<Task>, objects: seq<PreparedObject>, now: map<string, ObjectResult>, before: map<string, ObjectResult>, named: set<string>,
                            present: set<Segment>, doomed: set<Segment>, content: map<string, string>)
    requires AllRecorded(tasks, objects, now, before, named)
    requires AllEstablished(tasks, objects, present, doomed, content)
    requires forall k :: 0 <= k < |tasks| ==> tasks[k].Done?
    ensures Retracts(before, now, objects, named, present)
  {
    forall o | o in objects
      ensures o.id in named ==> now[o.id] == before[o.id].(disposition := Stranded)
      ensures o.id !in named ==> now[o.id] == before[o.id].(disposition := Retracted) && o.AsSegment() !in present
    {
      var k :| 0 <= k < |objects| && objects[k] == o;
      assert Recorded(tasks[k], now[objects[k].id], before[objects[k].id]);
      assert Established(tasks[k], objects[k], present, doomed, content);
    }
  }

  ghost predicate Retracts(before: map<string, ObjectResult>, after: map<string, ObjectResult>, objects: seq<PreparedObject>, stranded: set<string>, present: set<Segment>) {
    && SameOutside(before, after, Ids(objects))
    && stranded <= Ids(objects) <= before.Keys
    && (forall o :: o in objects && o.id in stranded ==> after[o.id] == before[o.id].(disposition := Stranded))
    && (forall o :: o in objects && o.id !in stranded ==> after[o.id] == before[o.id].(disposition := Retracted) && o.AsSegment() !in present)
  }

  ghost predicate AllRecorded(tasks: seq<Task>, objects: seq<PreparedObject>, now: map<string, ObjectResult>, before: map<string, ObjectResult>, named: set<string>) {
    && |tasks| == |objects| && SameOutside(before, now, Ids(objects)) && Ids(objects) <= before.Keys
    && (forall k :: 0 <= k < |tasks| ==> objects[k].id in now && Recorded(tasks[k], now[objects[k].id], before[objects[k].id]))
    && (forall k :: 0 <= k < |tasks| ==> (objects[k].id in named <==> tasks[k] == Done(OutcomeRetractionFailed)))
    && named <= Ids(objects)
  }

  // The dispositions and names after worker k reported `next`.
  ghost function ViewAfter(now: map<string, ObjectResult>, id: string, next: Task): map<string, ObjectResult> {
    if next == Done(OutcomeRetractionFailed) then WithDisposition(now, id, Stranded)
    else if next.Done? then WithDisposition(now, id, Retracted)
    else now
  }

  ghost function NamesAfter(named: set<string>, id: string, next: Task): set<string> {
    if next == Done(OutcomeRetractionFailed) then named + {id} else named
  }

  lemma RecordNext(tasks: seq<Task>, objects: seq<PreparedObject>, k: nat, next: Task, now: map<string, ObjectResult>, before: map<string, ObjectResult>, named: set<string>)
    requires AllRecorded(tasks, objects, now, before, named) && DistinctObjects(objects)
    requires k < |tasks| && !tasks[k].Done? && (Withdrawing(next) || next == Done(OutcomeRetracted) || next == Done(OutcomeRetractionFailed))
    ensures AllRecorded(tasks[k := next], objects, ViewAfter(now, objects[k].id, next), before, NamesAfter(named, objects[k].id, next))
  {
    var after, view, names := tasks[k := next], ViewAfter(now, objects[k].id, next), NamesAfter(named, objects[k].id, next);
    assert objects[k] in objects;
    forall j | 0 <= j < |tasks|
      ensures objects[j].id in view && Recorded(after[j], view[objects[j].id], before[objects[j].id])
      ensures objects[j].id in names <==> after[j] == Done(OutcomeRetractionFailed)
    {
      assert Recorded(tasks[j], now[objects[j].id], before[objects[j].id]);
      if j == k {
        RecordedStep(tasks[k], next, now[objects[k].id], before[objects[k].id]);
      } else {
        assert objects[j].id != objects[k].id;
      }
    }
  }

  lemma RecordedStep(task: Task, next: Task, now: ObjectResult, before: ObjectResult)
    requires Recorded(task, now, before) && !task.Done?
    requires Withdrawing(next) || next == Done(OutcomeRetracted) || next == Done(OutcomeRetractionFailed)
    ensures next == Done(OutcomeRetractionFailed) ==> Recorded(next, now.(disposition := Stranded), before)
    ensures next == Done(OutcomeRetracted) ==> Recorded(next, now.(disposition := Retracted), before)
    ensures !next.Done? ==> Recorded(next, now, before)
  {
  }

  ghost predicate Recorded(task: Task, now: ObjectResult, before: ObjectResult) {
    match task
    case Done(OutcomeRetracted) => now == before.(disposition := Retracted)
    case Done(OutcomeRetractionFailed) => now == before.(disposition := Stranded)
    case Done(OutcomeVerified) => false
    case _ => Withdrawing(task) && now == before
  }
}
