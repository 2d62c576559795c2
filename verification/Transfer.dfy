/** Bringing one Flow's Media Objects into the store: allocate, upload, register, verify or
    retract (internal/ingest/transfer.go). */
module Transfer {
  import opened Text
  import opened RemoteStore
  import opened ObjectResults
  import opened Verification
  import opened Registration
  import opened Lifecycle

  // Where one upload is: not begun, answered by the storage, accepted with the digest it reported, or given up.
  datatype Upload = Queued | Answered(reply: UploadReply) | Received(digest: Option<string>) | Abandoned

  function UploadRank(u: Upload): nat { if u.Queued? then 2 else if u.Answered? then 1 else 0 }

  ghost function UploadWork(uploads: seq<Upload>): nat {
    if uploads == [] then 0 else UploadRank(uploads[0]) + UploadWork(uploads[1..])
  }

  lemma {:induction false} UploadWorkDecreases(uploads: seq<Upload>, k: nat, next: Upload)
    requires k < |uploads| && UploadRank(next) < UploadRank(uploads[k])
    ensures UploadWork(uploads[k := next]) < UploadWork(uploads)
  {
    var after := uploads[k := next];
    if k == 0 {
      assert after[1..] == uploads[1..];
    } else {
      assert after[1..] == uploads[1..][k - 1 := next];
      UploadWorkDecreases(uploads[1..], k - 1, next);
    }
  }

  // The upload of exactly these bytes.
  function Delivery(o: PreparedObject): Traffic { Traffic.Sent(o.id, o.size, o.sha256) }

  // A digest the storage reports is that of the bytes it holds, and what counts as received was sent as prepared.
  ghost predicate UploadSound(u: Upload, o: PreparedObject, content: map<string, string>, sent: seq<Traffic>) {
    && (u.Answered? && u.reply.Receipt? ==> Traffic.Sent(o.id, u.reply.sentSize, u.reply.sentSha256) in sent)
    && (u.Answered? && u.reply.Receipt? && u.reply.storageSha256.Some? ==> o.id in content && content[o.id] == u.reply.storageSha256.value)
    && (u.Received? ==> Delivery(o) in sent)
    && (u.Received? && u.digest.Some? ==> HoldsBytes(o, content))
  }

  // In a calm environment every upload goes through.
  ghost predicate UploadCalm(u: Upload, o: PreparedObject, content: map<string, string>) {
    && !u.Abandoned? && (!u.Queued? ==> HoldsBytes(o, content))
    && (u.Answered? ==> u.reply.Receipt? && u.reply.sentSize == o.size && u.reply.sentSha256 == o.sha256)
  }

  // Only uploads of these Objects.
  ghost predicate OnlySent(sent: seq<Traffic>, ids: set<string>) {
    forall k :: 0 <= k < |sent| ==> sent[k].Sent? && sent[k].objectId in ids
  }

  // One step of the worker that has Object o: the transfer, or looking at its receipt.
  method StepUpload(store: Store, o: PreparedObject, u: Upload, cancelled: bool, ghost sent: seq<Traffic>) returns (next: Upload, ghost more: seq<Traffic>)
    requires UploadRank(u) > 0 && UploadSound(u, o, store.content, sent)
    modifies store`content, store`traffic
    ensures UploadRank(next) < UploadRank(u) && UploadSound(next, o, store.content, sent + more)
    ensures store.traffic == old(store.traffic) + more && OnlySent(more, {o.id})
    ensures SameContentOutside(old(store.content), store.content, {o.id})
    ensures store.calm && !cancelled && old(UploadCalm(u, o, store.content)) ==> UploadCalm(next, o, store.content)
  {
    more := [];
    if u.Queued? {
      if cancelled {
        next := Abandoned;
      } else {
        var reply := store.Upload(o);
        next := Answered(reply);
        more := if reply.Receipt? then [Traffic.Sent(o.id, reply.sentSize, reply.sentSha256)] else [];
      }
    } else if u.reply.UploadFailed? || u.reply.sentSize != o.size || u.reply.sentSha256 != o.sha256 {
      next := Abandoned;
    } else if u.reply.storageSha256.Some? && u.reply.storageSha256.value != o.sha256 {
      next := Abandoned;
    } else {
      next := Received(u.reply.storageSha256);
    }
  }

  // Every upload of a pool is sound; in a calm environment each goes through.
  ghost predicate PoolSound(uploads: seq<Upload>, chunk: seq<PreparedObject>, content: map<string, string>, sent: seq<Traffic>, calm: bool) {
    && |uploads| == |chunk|
    && forall j :: 0 <= j < |chunk| ==> UploadSound(uploads[j], chunk[j], content, sent) && (calm ==> UploadCalm(uploads[j], chunk[j], content))
  }

  lemma {:induction false} UploadsStand(uploads: seq<Upload>, chunk: seq<PreparedObject>, k: nat, next: Upload, before: map<string, string>, after: map<string, string>,
                     sent: seq<Traffic>, more: seq<Traffic>, calm: bool)
    requires DistinctObjects(chunk) && PoolSound(uploads, chunk, before, sent, calm) && k < |chunk|
    requires SameContentOutside(before, after, {chunk[k].id}) && UploadSound(next, chunk[k], after, sent + more) && (calm ==> UploadCalm(next, chunk[k], after))
    ensures PoolSound(uploads[k := next], chunk, after, sent + more, calm)
  {
    forall j | 0 <= j < |chunk|
      ensures UploadSound(uploads[k := next][j], chunk[j], after, sent + more) && (calm ==> UploadCalm(uploads[k := next][j], chunk[j], after))
    {
      assert j != k ==> chunk[j].id != chunk[k].id;
    }
  }

  // The pool of upload workers, their steps in any order. The first failure cancels the uploads not yet begun,
  // though some may still begin.
  method UploadPool(store: Store, chunk: seq<PreparedObject>) returns (uploads: seq<Upload>, ghost sent: seq<Traffic>)
    requires DistinctObjects(chunk)
    modifies store`content, store`traffic
    ensures SameContentOutside(old(store.content), store.content, Ids(chunk))
    ensures store.traffic == old(store.traffic) + sent && OnlySent(sent, Ids(chunk))
    ensures PoolSound(uploads, chunk, store.content, sent, store.calm)
    ensures forall k :: 0 <= k < |chunk| ==> UploadRank(uploads[k]) == 0
  {
    uploads, sent := seq(|chunk|, _ => Upload.Queued), [];
    while exists k :: 0 <= k < |uploads| && UploadRank(uploads[k]) > 0
      invariant SameContentOutside(old(store.content), store.content, Ids(chunk))
      invariant store.traffic == old(store.traffic) + sent && OnlySent(sent, Ids(chunk))
      invariant PoolSound(uploads, chunk, store.content, sent, store.calm)
      decreases UploadWork(uploads)
    {
      var k :| 0 <= k < |uploads| && UploadRank(uploads[k]) > 0;
      assert chunk[k] in chunk;
      var noticed: bool := *;
      ghost var before := store.content;
      var next;
      ghost var more;
      next, more := StepUpload(store, chunk[k], uploads[k], noticed && Abandoned in uploads, sent);
      UploadsStand(uploads, chunk, k, next, before, store.content, sent, more, store.calm);
      UploadWorkDecreases(uploads, k, next);
      uploads, sent := uploads[k := next], sent + more;
    }
  }

  // Receipts of all Objects, or the first failure.
  method UploadAll(store: Store, chunk: seq<PreparedObject>) returns (ok: bool, receipts: map<string, Option<string>>, ghost sent: seq<Traffic>)
    requires DistinctObjects(chunk)
    modifies store`content, store`traffic
    ensures SameContentOutside(old(store.content), store.content, Ids(chunk))
    ensures store.traffic == old(store.traffic) + sent && OnlySent(sent, Ids(chunk))
    ensures ok ==> forall o :: o in chunk ==>
        o.id in receipts && Delivery(o) in sent && (receipts[o.id].Some? ==> HoldsBytes(o, store.content))
    ensures store.calm ==> ok && forall o :: o in chunk ==> HoldsBytes(o, store.content)
  {
    var uploads;
    uploads, sent := UploadPool(store, chunk);
    ok, receipts := true, map[];
    for k := 0 to |chunk|
      invariant store.calm ==> ok
      invariant ok ==> forall j :: 0 <= j < k ==>
          chunk[j].id in receipts && Delivery(chunk[j]) in sent && (receipts[chunk[j].id].Some? ==> HoldsBytes(chunk[j], store.content))
    {
      assert UploadSound(uploads[k], chunk[k], store.content, sent);
      if uploads[k].Received? {
        receipts := receipts[chunk[k].id := uploads[k].digest];
      } else {
        ok := false;
      }
    }
    if store.calm {
      forall o | o in chunk ensures HoldsBytes(o, store.content) {
        var k :| 0 <= k < |chunk| && chunk[k] == o;
        assert UploadCalm(uploads[k], chunk[k], store.content);
      }
    }
  }

  // ---------- What was sent before what was registered ----------

  // An Object of this Segment whose bytes were sent.
  ghost predicate Backing(objects: seq<PreparedObject>, s: Segment, sent: seq<Traffic>) {
    exists o :: o in objects && o.AsSegment() == s && Delivery(o) in sent
  }

  ghost predicate Destined(id: string, news: seq<Traffic>) {
    exists e :: e in news && e.Allocated? && id in e.ids
  }

  // Bytes go only to allocated destinations, and a Segment is registered only after the bytes of its Object were sent.
  ghost predicate OrderedAt(objects: seq<PreparedObject>, news: seq<Traffic>, k: nat)
    requires k < |news|
  {
    match news[k]
    case Marked => true
    case Allocated(_) => true
    case Sent(id, _, _) => Destined(id, news[..k])
    case Posted(requests) => forall s :: s in requests ==> Backing(objects, s, news[..k])
  }

  ghost predicate Ordered(objects: seq<PreparedObject>, news: seq<Traffic>) {
    forall k :: 0 <= k < |news| ==> OrderedAt(objects, news, k)
  }

  /** What an operation sent, in order, and that every Segment it added to the store had its bytes sent. */
  ghost predicate Sends(objects: seq<PreparedObject>, before: seq<Traffic>, after: seq<Traffic>, present: set<Segment>, presentAfter: set<Segment>) {
    && before <= after && Ordered(objects, after[|before|..])
    && forall s :: s in presentAfter && s !in present ==> Backing(objects, s, after[|before|..])
  }

  // Whatever this run left registered or ingested had its own bytes sent.
  ghost predicate AllSent(objects: seq<PreparedObject>, view: map<string, ObjectResult>, sent: seq<Traffic>) {
    forall o :: o in objects && o.id in view && view[o.id].disposition in {Registered, Ingested} ==> Delivery(o) in sent
  }

  lemma {:induction false} BackingMore(objects: seq<PreparedObject>, more: seq<PreparedObject>, s: Segment, sent: seq<Traffic>, after: seq<Traffic>)
    requires Backing(objects, s, sent) && (forall o :: o in objects ==> o in more) && (forall e :: e in sent ==> e in after)
    ensures Backing(more, s, after)
  {
  }

  lemma {:induction false} OrderedJoins(a: seq<PreparedObject>, x: seq<Traffic>, b: seq<PreparedObject>, y: seq<Traffic>, all: seq<PreparedObject>)
    requires Ordered(a, x) && Ordered(b, y) && (forall o :: o in a ==> o in all) && (forall o :: o in b ==> o in all)
    ensures Ordered(all, x + y)
  {
    var z := x + y;
    forall k | 0 <= k < |z| ensures OrderedAt(all, z, k) {
      if k < |x| {
        assert OrderedAt(a, x, k) && z[..k] == x[..k] && z[k] == x[k];
        if z[k].Posted? {
          forall s | s in z[k].requests ensures Backing(all, s, z[..k]) {
            BackingMore(a, all, s, x[..k], z[..k]);
          }
        }
      } else {
        OrderedLater(b, y, k - |x|, x, all);
      }
    }
  }

  lemma {:induction false} OrderedLater(b: seq<PreparedObject>, y: seq<Traffic>, k: nat, x: seq<Traffic>, all: seq<PreparedObject>)
    requires k < |y| && OrderedAt(b, y, k) && (forall o :: o in b ==> o in all)
    ensures OrderedAt(all, x + y, |x| + k)
  {
    var z := x + y;
    assert z[|x| + k] == y[k] && z[..|x| + k] == x + y[..k];
    match y[k]
    case Sent(id, _, _) =>
      var e :| e in y[..k] && e.Allocated? && id in e.ids;
      assert e in z[..|x| + k];
    case Posted(requests) =>
      forall s | s in requests ensures Backing(all, s, z[..|x| + k]) {
        BackingMore(b, all, s, y[..k], z[..|x| + k]);
      }
    case _ =>
  }

  lemma {:induction false} SendsCompose(a: seq<PreparedObject>, b: seq<PreparedObject>, all: seq<PreparedObject>, t0: seq<Traffic>, p0: set<Segment>, t1: seq<Traffic>, p1: set<Segment>,
                     t2: seq<Traffic>, p2: set<Segment>)
    requires Sends(a, t0, t1, p0, p1) && Sends(b, t1, t2, p1, p2)
    requires (forall o :: o in a ==> o in all) && (forall o :: o in b ==> o in all)
    ensures Sends(all, t0, t2, p0, p2)
  {
    var x, y := t1[|t0|..], t2[|t1|..];
    assert t2[|t0|..] == x + y;
    OrderedJoins(a, x, b, y, all);
    forall s | s in p2 && s !in p0 ensures Backing(all, s, x + y) {
      if s in p1 {
        BackingMore(a, all, s, x, x + y);
      } else {
        BackingMore(b, all, s, y, x + y);
      }
    }
  }

  lemma {:induction false} NothingSent(objects: seq<PreparedObject>, traffic: seq<Traffic>, present: set<Segment>, presentAfter: set<Segment>)
    requires presentAfter <= present
    ensures Sends(objects, traffic, traffic, present, presentAfter)
  {
    assert traffic[|traffic|..] == [];
  }

  // Truthful dispositions and ordered sending together: what was absent and is now claimed had its own bytes sent.
  lemma {:induction false} SentIfClaimed(objects: seq<PreparedObject>, view: map<string, ObjectResult>, before: seq<Traffic>, after: seq<Traffic>, present: set<Segment>,
                          presentAfter: set<Segment>, doomed: set<Segment>, content: map<string, string>, mode: VerificationMode, named: set<string>)
    requires DistinctObjects(objects) && AllTruthful(objects, view, presentAfter, doomed, content, mode, named)
    requires Sends(objects, before, after, present, presentAfter)
    requires forall o :: o in objects && o.AsSegment() in present ==> view[o.id].disposition !in {Registered, Ingested}
    ensures AllSent(objects, view, after[|before|..])
  {
    forall o | o in objects && view[o.id].disposition in {Registered, Ingested} ensures Delivery(o) in after[|before|..] {
      assert Truthful(o, view[o.id], presentAfter, doomed, content, mode, named);
      assert Backing(objects, o.AsSegment(), after[|before|..]);
      var e :| e in objects && e.AsSegment() == o.AsSegment() && Delivery(e) in after[|before|..];
      var j :| 0 <= j < |objects| && objects[j] == e;
      var k :| 0 <= k < |objects| && objects[k] == o;
    }
  }

  // One more batch of a chunk.
  lemma {:induction false} SendsNext(chunk: seq<PreparedObject>, i: nat, j: nat, t0: seq<Traffic>, p0: set<Segment>, t1: seq<Traffic>, p1: set<Segment>, t2: seq<Traffic>, p2: set<Segment>)
    requires i <= j <= |chunk| && Sends(chunk, t0, t1, p0, p1) && Sends(chunk[i..j], t1, t2, p1, p2)
    ensures Sends(chunk, t0, t2, p0, p2)
  {
    SendsCompose(chunk, chunk[i..j], chunk, t0, p0, t1, p1, t2, p2);
  }

  // One batch: allocated, sent, registered, in that order.
  lemma {:induction false} BatchOrdered(chunk: seq<PreparedObject>, ids: set<string>, sent: seq<Traffic>, requests: seq<Segment>)
    requires Ids(chunk) <= ids && OnlySent(sent, Ids(chunk)) && (forall s :: s in requests ==> s in Segments(chunk))
    ensures Ordered(chunk, [Allocated(ids)] + sent)
    ensures (forall o :: o in chunk ==> Delivery(o) in sent) ==> Ordered(chunk, [Allocated(ids)] + sent + [Posted(requests)])
  {
    var first := [Allocated(ids)] + sent;
    forall k | 0 <= k < |first| ensures OrderedAt(chunk, first, k) {
      if k > 0 {
        assert first[k] == sent[k - 1] && first[k].objectId in ids;
        assert first[..k][0] == Allocated(ids) && Allocated(ids) in first[..k];
      }
    }
    if forall o :: o in chunk ==> Delivery(o) in sent {
      var all := first + [Posted(requests)];
      forall k | 0 <= k < |all| ensures OrderedAt(chunk, all, k) {
        if k < |first| {
          assert OrderedAt(chunk, first, k) && all[k] == first[k] && all[..k] == first[..k];
        } else {
          assert all[..k] == first;
          AllBacked(chunk, sent, first);
        }
      }
    }
  }

  lemma {:induction false} AllBacked(chunk: seq<PreparedObject>, sent: seq<Traffic>, news: seq<Traffic>)
    requires (forall o :: o in chunk ==> Delivery(o) in sent) && forall e :: e in sent ==> e in news
    ensures forall s :: s in Segments(chunk) ==> Backing(chunk, s, news)
  {
    forall s | s in Segments(chunk) ensures Backing(chunk, s, news) {
      var o :| o in chunk && o.AsSegment() == s;
      assert Delivery(o) in news;
    }
  }

  ghost predicate ChunkReady(chunk: seq<PreparedObject>, view: map<string, ObjectResult>, present: set<Segment>, doomed: set<Segment>) {
    && chunk != [] && OnTimeline(chunk) && BatchReady(chunk, view, doomed) && Segments(chunk) !! present
    && forall o :: o in chunk ==> view[o.id].disposition == Planned && !view[o.id].reported
  }

  // Registration is known to have happened; nothing has been checked yet.
  ghost predicate Awaiting(chunk: seq<PreparedObject>, view: map<string, ObjectResult>, present: set<Segment>, doomed: set<Segment>) {
    forall o :: o in chunk ==>
      && o.id in view && view[o.id].disposition == Registered && view[o.id].verification != Verified
      && o.AsSegment() in present && o.AsSegment() !in doomed
  }

  // The requests of a batch, in order.
  function Requests(chunk: seq<PreparedObject>): (requests: seq<Segment>)
    ensures forall s :: s in requests <==> s in Segments(chunk)
  {
    if chunk == [] then []
    else
      assert chunk == chunk[..|chunk| - 1] + [chunk[|chunk| - 1]];
      Requests(chunk[..|chunk| - 1]) + [chunk[|chunk| - 1].AsSegment()]
  }

  // Nothing fails; and where the reply to a registration may be lost, no Object is an instant that a readback could miss.
  ghost predicate Calm(store: Store, objects: seq<PreparedObject>) { store.calm && (store.answersPosts || AllLast(objects)) }

  // Lines 194-214: the bulk POST and, when its reply was an error, its reconciliation.
  method RegisterChunk(store: Store, chunk: seq<PreparedObject>, results: array<ObjectResult>, mode: VerificationMode)
      returns (status: Status, recovered: bool)
    requires Distinct(results[..]) && ChunkReady(chunk, ById(results[..]), store.present, store.doomed)
    modifies store`present, store`doomed, store`traffic, results
    ensures store.traffic == old(store.traffic) + [Posted(Requests(chunk))]
    ensures Calm(store, chunk) && (forall o :: o in chunk ==> HoldsBytes(o, store.content)) ==> status.Ok?
    ensures OnlyCommits(old(store.present), old(store.doomed), store.present, store.doomed, Segments(chunk))
    ensures Distinct(results[..]) && SameOutside(old(ById(results[..])), ById(results[..]), Ids(chunk))
    ensures status.Ok? && recovered ==> Stored(chunk, ById(results[..]), store.present, store.doomed, store.content, mode)
    ensures status.Ok? && !recovered ==> Awaiting(chunk, ById(results[..]), store.present, store.doomed)
    ensures status.Error? ==> AllTruthful(chunk, ById(results[..]), store.present, store.doomed, store.content, mode, status.named)
  {
    MarkAll(chunk, results, RegistrationIndeterminate);
    assert Requests(chunk) != [];
    var reply := RegisterSegments(store, Requests(chunk));
    forall o | o in chunk ensures o.AsSegment() in Segments(chunk) && o.AsSegment() !in store.doomed {
    }
    if reply.Committed? {
      MarkAll(chunk, results, Registered);
      return Ok, false;
    }
    status := ReconcileRegistrationError(store, chunk, results, mode, reply);
    recovered := true;
  }

  // Objects whose upload receipt carried a storage digest; it was compared during the upload.
  function Attested(chunk: seq<PreparedObject>, receipts: map<string, Option<string>>): set<Segment> {
    set o | o in chunk && o.id in receipts && receipts[o.id].Some? :: o.AsSegment()
  }

  // Lines 222-237: storage evidence where it exists and is asked for, readback for the rest.
  method CheckChunk(store: Store, chunk: seq<PreparedObject>, results: array<ObjectResult>, mode: VerificationMode, receipts: map<string, Option<string>>)
      returns (status: Status)
    requires DistinctObjects(chunk) && Distinct(results[..]) && Ids(chunk) <= ById(results[..]).Keys
    requires Awaiting(chunk, ById(results[..]), store.present, store.doomed)
    requires forall o :: o in chunk && o.id in receipts && receipts[o.id].Some? ==> HoldsBytes(o, store.content)
    modifies store`present, store`doomed, results
    ensures OnlyRetracts(old(store.present), old(store.doomed), store.present, store.doomed, Segments(chunk))
    ensures Distinct(results[..]) && SameOutside(old(ById(results[..])), ById(results[..]), Ids(chunk))
    ensures status.Ok? ==> Stored(chunk, ById(results[..]), store.present, store.doomed, store.content, mode)
    ensures status.Error? ==> AllTruthful(chunk, ById(results[..]), store.present, store.doomed, store.content, mode, status.named)
    ensures store.calm && (forall o :: o in chunk ==> HoldsBytes(o, store.content)) ==> status.Ok?
  {
    if mode == VerificationNone {
      return Ok;
    }
    var attested := if mode == VerificationAuto then Attested(chunk, receipts) else {};
    var _, readback := Partition(Attest(attested), chunk, results);
    ghost var mid := ById(results[..]);
    SplitByEvidence(chunk, attested, receipts, mid, store.present, store.doomed, store.content, mode);
    forall o | o in readback ensures o in chunk && o.AsSegment() in store.present && o.AsSegment() !in store.doomed {
      SelectSound(chunk, attested, false);
    }
    status := ResolveKnown(store, readback, results, mode);
    EvidenceTruthful(chunk, attested, mid, old(store.present), old(store.doomed), ById(results[..]), store.present, store.doomed, store.content, mode, status);
  }

  // Both kinds of evidence together.
  lemma {:induction false} EvidenceTruthful(chunk: seq<PreparedObject>, attested: set<Segment>, mid: map<string, ObjectResult>, present: set<Segment>, doomed: set<Segment>,
                         after: map<string, ObjectResult>, presentAfter: set<Segment>, doomedAfter: set<Segment>, content: map<string, string>,
                         mode: VerificationMode, status: Status)
    requires var accepted, readback := Select(chunk, attested, true), Select(chunk, attested, false);
      && AllTruthful(accepted, mid, present, doomed, content, mode, {})
      && (forall o :: o in accepted ==> mid[o.id].disposition == Registered)
      && Ids(accepted) !! Ids(readback) && Untouched(mid, after, Ids(readback))
      && OnlyCommits(present, doomed, presentAfter, doomedAfter, Segments(readback))
      && AllTruthful(readback, after, presentAfter, doomedAfter, content, mode, status.Naming())
      && (status.Ok? ==> Stored(readback, after, presentAfter, doomedAfter, content, mode))
    ensures AllTruthful(chunk, after, presentAfter, doomedAfter, content, mode, status.Naming())
    ensures status.Ok? ==> Stored(chunk, after, presentAfter, doomedAfter, content, mode)
  {
    var accepted, readback := Select(chunk, attested, true), Select(chunk, attested, false);
    TruthStands(accepted, mid, present, doomed, content, mode, {}, readback, after, presentAfter, doomedAfter, content, status.Naming());
    HalvesTruthful(chunk, attested, after, presentAfter, doomedAfter, content, mode, status.Naming());
    SelectSound(chunk, attested, true);
    SelectSound(chunk, attested, false);
    forall o | o in chunk && status.Ok? ensures after[o.id].disposition == Registered {
      if o.AsSegment() in attested {
        assert o in accepted && o.id in Ids(accepted);
      } else {
        assert o in readback;
      }
    }
  }

  lemma {:induction false} SplitByEvidence(chunk: seq<PreparedObject>, attested: set<Segment>, receipts: map<string, Option<string>>, view: map<string, ObjectResult>,
                        present: set<Segment>, doomed: set<Segment>, content: map<string, string>, mode: VerificationMode)
    requires DistinctObjects(chunk) && attested <= Attested(chunk, receipts)
    requires forall o :: o in chunk ==> o.id in view && view[o.id].disposition == Registered && o.AsSegment() in present && o.AsSegment() !in doomed
    requires forall o :: o in chunk ==> (o.AsSegment() in attested <==> view[o.id].verification == Verified)
    requires forall o :: o in chunk && o.AsSegment() in attested ==> Evidence(view[o.id], mode)
    requires forall o :: o in chunk && o.id in receipts && receipts[o.id].Some? ==> HoldsBytes(o, content)
    ensures var accepted, readback := Select(chunk, attested, true), Select(chunk, attested, false);
      && AllTruthful(accepted, view, present, doomed, content, mode, {})
      && DistinctObjects(readback) && Segments(readback) !! doomed && Ids(readback) <= view.Keys
      && Ids(accepted) !! Ids(readback) && Ids(readback) <= Ids(chunk) && Segments(readback) <= Segments(chunk)
      && (forall o :: o in readback ==> view[o.id].disposition == Registered && view[o.id].verification != Verified)
      && (forall o :: o in accepted ==> view[o.id].disposition == Registered)
  {
    var accepted, readback := Select(chunk, attested, true), Select(chunk, attested, false);
    PartitionHalves(chunk, attested);
    forall o | o in accepted ensures HoldsBytes(o, content) {
      var e :| e in chunk && e.id in receipts && receipts[e.id].Some? && e.AsSegment() == o.AsSegment();
      var j :| 0 <= j < |chunk| && chunk[j] == e;
      var k :| 0 <= k < |chunk| && chunk[k] == o;
    }
  }

  ghost predicate AllIngested(chunk: seq<PreparedObject>, view: map<string, ObjectResult>, reported: bool) {
    forall o :: o in chunk ==> o.id in view && view[o.id].disposition == Ingested && (reported ==> view[o.id].reported)
  }

  // Lines 238-245: a stored batch becomes ingested and is published.
  method FinishChunk(store: Store, log: LifecycleLog, chunk: seq<PreparedObject>, results: array<ObjectResult>, mode: VerificationMode)
      returns (status: Status)
    requires DistinctObjects(chunk) && Distinct(results[..]) && Ids(chunk) <= ById(results[..]).Keys
    requires Stored(chunk, ById(results[..]), store.present, store.doomed, store.content, mode)
    requires forall o :: o in chunk ==> !ById(results[..])[o.id].reported
    requires PublishedFinal(log.published, ById(results[..]))
    modifies results, log`published
    ensures Distinct(results[..]) && Untouched(old(ById(results[..])), ById(results[..]), Ids(chunk))
    ensures AllTruthful(chunk, ById(results[..]), store.present, store.doomed, store.content, mode, {})
    ensures AllIngested(chunk, ById(results[..]), log.configured)
    ensures PublishedFinal(log.published, ById(results[..]))
    ensures status.Naming() == {} && (log.accepting ==> status.Ok?)
  {
    ghost var start := ById(results[..]);
    MarkAll(chunk, results, Ingested);
    ghost var mid := ById(results[..]);
    PublishedStays(log.published, start, mid, Ids(chunk));
    var completed := Ids(chunk);
    var accepted := Observe(log, results, completed);
    status := if accepted then Ok else Error({});
    forall o | o in chunk
      ensures Truthful(o, ById(results[..])[o.id], store.present, store.doomed, store.content, mode, {})
    {
      assert mid[o.id] == start[o.id].(disposition := Ingested);
    }
  }

  // ObserveObjectBatch, seen through the view.
  method Observe(log: LifecycleLog, results: array<ObjectResult>, ids: set<string>) returns (accepted: bool)
    requires Distinct(results[..]) && PublishedFinal(log.published, ById(results[..]))
    modifies results, log`published
    ensures Distinct(results[..]) && PublishedFinal(log.published, ById(results[..]))
    ensures ById(results[..]).Keys == old(ById(results[..])).Keys
    ensures forall id :: id in ById(results[..]) ==>
        ById(results[..])[id] == if log.configured && id in ids then old(ById(results[..]))[id].(reported := true) else old(ById(results[..]))[id]
    ensures log.accepting ==> accepted
  {
    if log.configured {
      DistinctView(results[..]);
      BatchPublishes(results[..], ids);
      ReportingView(results[..], ids);
    }
    accepted := log.ObserveObjectBatch(results, ids);
    if log.configured {
      PublishedGrows(old(log.published), Batch(old(results[..]), ids), old(ById(results[..])), ById(results[..]), ids);
    }
  }

  /** One batch whose upload workers are reserved. However the store answers, no Object stays
      indeterminate, every disposition is true of the store, and no error means the whole batch is ingested
      and published. Nothing is registered whose bytes, as prepared, were not sent before, in any mode; and
      when nothing fails there is no error. */
  method CommitReadyChunk(store: Store, log: LifecycleLog, chunk: seq<PreparedObject>, results: array<ObjectResult>, mode: VerificationMode)
      returns (status: Status)
    requires Distinct(results[..]) && ChunkReady(chunk, ById(results[..]), store.present, store.doomed)
    requires PublishedFinal(log.published, ById(results[..]))
    modifies store, results, log`published
    ensures OnlyCommits(old(store.present), old(store.doomed), store.present, store.doomed, Segments(chunk))
    ensures SameContentOutside(old(store.content), store.content, Ids(chunk))
    ensures Distinct(results[..]) && Untouched(old(ById(results[..])), ById(results[..]), Ids(chunk))
    ensures AllTruthful(chunk, ById(results[..]), store.present, store.doomed, store.content, mode, status.Naming())
    ensures status.Ok? ==> AllIngested(chunk, ById(results[..]), log.configured)
    ensures PublishedFinal(log.published, ById(results[..]))
    ensures Sends(chunk, old(store.traffic), store.traffic, old(store.present), store.present)
    ensures AllSent(chunk, ById(results[..]), store.traffic[|old(store.traffic)|..])
    ensures Calm(store, chunk) && log.accepting ==> status.Ok?
  {
    ghost var start, before, content := ById(results[..]), store.traffic, store.content;
    var uploaded, receipts;
    uploaded, receipts := SendChunk(store, chunk);
    if !uploaded {
      PlannedTruthful(chunk, start, store.present, store.doomed, store.content, mode);
      return Error({});
    }
    status := LandChunk(store, log, chunk, results, mode, receipts, before);
  }

  // Lines 122-192: allocation, and the uploads when it is complete.
  method SendChunk(store: Store, chunk: seq<PreparedObject>) returns (ok: bool, receipts: map<string, Option<string>>)
    requires DistinctObjects(chunk)
    modifies store`content, store`traffic
    ensures SameContentOutside(old(store.content), store.content, Ids(chunk))
    ensures Sends(chunk, old(store.traffic), store.traffic, store.present, store.present)
    ensures ok ==> ReadyToPost(chunk, old(store.traffic), store.traffic)
    ensures ok ==> forall o :: o in chunk && o.id in receipts && receipts[o.id].Some? ==> HoldsBytes(o, store.content)
    ensures store.calm ==> ok && forall o :: o in chunk ==> HoldsBytes(o, store.content)
  {
    ghost var before := store.traffic;
    var destinations := store.Allocate(Ids(chunk));
    if exists o :: o in chunk && o.id !in destinations {
      forall o | o in chunk ensures o.id in Ids(chunk) {
      }
      assert store.traffic[|before|..] == [Allocated(destinations)];
      return false, map[];
    }
    ghost var sent;
    ok, receipts, sent := UploadAll(store, chunk);
    assert store.traffic[|before|..] == [Allocated(destinations)] + sent;
    BatchOrdered(chunk, destinations, sent, []);
    if ok {
      assert ReadyToPost(chunk, before, store.traffic) by {
        assert Posts(chunk, destinations, sent, before, store.traffic);
      }
    }
  }

  // Everything of the batch was sent since `before`, and nothing but it.
  ghost predicate ReadyToPost(chunk: seq<PreparedObject>, before: seq<Traffic>, now: seq<Traffic>) {
    exists ids, sent :: Posts(chunk, ids, sent, before, now)
  }

  ghost predicate Posts(chunk: seq<PreparedObject>, ids: set<string>, sent: seq<Traffic>, before: seq<Traffic>, now: seq<Traffic>) {
    && now == before + ([Allocated(ids)] + sent) && Ids(chunk) <= ids && OnlySent(sent, Ids(chunk))
    && forall o :: o in chunk ==> Delivery(o) in sent
  }

  // Registering a batch that was sent is in order, and backs every Segment it may add.
  lemma {:induction false} PostSends(chunk: seq<PreparedObject>, before: seq<Traffic>, now: seq<Traffic>, present: set<Segment>, presentAfter: set<Segment>)
    requires ReadyToPost(chunk, before, now) && presentAfter <= present + Segments(chunk)
    ensures Sends(chunk, before, now + [Posted(Requests(chunk))], present, presentAfter)
    ensures forall o :: o in chunk ==> Delivery(o) in (now + [Posted(Requests(chunk))])[|before|..]
  {
    var ids, sent :| Posts(chunk, ids, sent, before, now);
    var after := now + [Posted(Requests(chunk))];
    assert after[|before|..] == [Allocated(ids)] + sent + [Posted(Requests(chunk))];
    BatchOrdered(chunk, ids, sent, Requests(chunk));
    AllBacked(chunk, sent, after[|before|..]);
  }

  // Lines 194-237: registration and the checks it calls for.
  method EstablishChunk(store: Store, chunk: seq<PreparedObject>, results: array<ObjectResult>, mode: VerificationMode, receipts: map<string, Option<string>>)
      returns (status: Status)
    requires Distinct(results[..]) && ChunkReady(chunk, ById(results[..]), store.present, store.doomed)
    requires forall o :: o in chunk && o.id in receipts && receipts[o.id].Some? ==> HoldsBytes(o, store.content)
    modifies store`present, store`doomed, store`traffic, results
    ensures store.traffic == old(store.traffic) + [Posted(Requests(chunk))]
    ensures OnlyCommits(old(store.present), old(store.doomed), store.present, store.doomed, Segments(chunk))
    ensures Distinct(results[..]) && SameOutside(old(ById(results[..])), ById(results[..]), Ids(chunk))
    ensures status.Ok? ==> Stored(chunk, ById(results[..]), store.present, store.doomed, store.content, mode)
    ensures status.Error? ==> AllTruthful(chunk, ById(results[..]), store.present, store.doomed, store.content, mode, status.named)
    ensures Calm(store, chunk) && (forall o :: o in chunk ==> HoldsBytes(o, store.content)) ==> status.Ok?
  {
    ghost var present, doomed := store.present, store.doomed;
    var recovered;
    status, recovered := RegisterChunk(store, chunk, results, mode);
    if status.Ok? && !recovered {
      ghost var p, d := store.present, store.doomed;
      status := CheckChunk(store, chunk, results, mode, receipts);
      CommitsThenRetracts(present, doomed, p, d, store.present, store.doomed, Segments(chunk));
    }
  }

  // Lines 194-245: registration, checks and publication of a batch that was sent.
  method LandChunk(store: Store, log: LifecycleLog, chunk: seq<PreparedObject>, results: array<ObjectResult>, mode: VerificationMode,
                   receipts: map<string, Option<string>>, ghost before: seq<Traffic>) returns (status: Status)
    requires Distinct(results[..]) && ChunkReady(chunk, ById(results[..]), store.present, store.doomed)
    requires PublishedFinal(log.published, ById(results[..])) && ReadyToPost(chunk, before, store.traffic)
    requires forall o :: o in chunk && o.id in receipts && receipts[o.id].Some? ==> HoldsBytes(o, store.content)
    modifies store`present, store`doomed, store`traffic, results, log`published
    ensures OnlyCommits(old(store.present), old(store.doomed), store.present, store.doomed, Segments(chunk))
    ensures Distinct(results[..]) && Untouched(old(ById(results[..])), ById(results[..]), Ids(chunk))
    ensures AllTruthful(chunk, ById(results[..]), store.present, store.doomed, store.content, mode, status.Naming())
    ensures status.Ok? ==> AllIngested(chunk, ById(results[..]), log.configured)
    ensures PublishedFinal(log.published, ById(results[..]))
    ensures Sends(chunk, before, store.traffic, old(store.present), store.present)
    ensures forall o :: o in chunk ==> Delivery(o) in store.traffic[|before|..]
    ensures Calm(store, chunk) && log.accepting && (forall o :: o in chunk ==> HoldsBytes(o, store.content)) ==> status.Ok?
  {
    ghost var start, present, now := ById(results[..]), store.present, store.traffic;
    status := EstablishChunk(store, chunk, results, mode, receipts);
    PostSends(chunk, before, now, present, store.present);
    UnreportedIn(chunk, start);
    PublishedStays(log.published, start, ById(results[..]), Ids(chunk));
    if status.Ok? {
      status := FinishChunk(store, log, chunk, results, mode);
    }
  }

  lemma CommitsThenRetracts(p0: set<Segment>, d0: set<Segment>, p1: set<Segment>, d1: set<Segment>, p2: set<Segment>, d2: set<Segment>, allowed: set<Segment>)
    requires OnlyCommits(p0, d0, p1, d1, allowed) && OnlyRetracts(p1, d1, p2, d2, allowed)
    ensures OnlyCommits(p0, d0, p2, d2, allowed)
  {
  }

  lemma PlannedTruthful(chunk: seq<PreparedObject>, view: map<string, ObjectResult>, present: set<Segment>, doomed: set<Segment>, content: map<string, string>, mode: VerificationMode)
    requires ChunkReady(chunk, view, present, doomed)
    ensures AllTruthful(chunk, view, present, doomed, content, mode, {})
  {
    forall o | o in chunk ensures o.AsSegment() !in present {
      assert o.AsSegment() in Segments(chunk);
    }
  }

  lemma UnreportedIn(chunk: seq<PreparedObject>, view: map<string, ObjectResult>)
    requires forall o :: o in chunk ==> o.id in view && !view[o.id].reported
    ensures forall id :: id in Ids(chunk) && id in view ==> !view[id].reported
  {
  }

  function TotalSize(objects: seq<PreparedObject>): nat {
    if objects == [] then 0 else TotalSize(objects[..|objects| - 1]) + objects[|objects| - 1].size
  }

  // The longest prefix within the byte budget, or one Object when even the first exceeds it.
  method ChunkSize(remaining: seq<PreparedObject>, budget: nat) returns (n: nat)
    requires remaining != []
    ensures 1 <= n <= |remaining|
    ensures n == 1 || TotalSize(remaining[..n]) <= budget
    ensures n < |remaining| ==> TotalSize(remaining[..n + 1]) > budget
  {
    var bytes := 0;
    n := 0;
    while n < |remaining|
      invariant 0 <= n <= |remaining| && bytes == TotalSize(remaining[..n])
      invariant n <= 1 || bytes <= budget
    {
      assert remaining[..n + 1][..n] == remaining[..n];
      bytes := bytes + remaining[n].size;
      if n > 0 && bytes > budget {
        return;
      }
      n := n + 1;
    }
  }

  // How far a sequence of batches has come: a prefix is ingested, the rest is ready.
  ghost predicate Progressed(chunk: seq<PreparedObject>, offset: nat, view: map<string, ObjectResult>, present: set<Segment>, doomed: set<Segment>,
                             content: map<string, string>, mode: VerificationMode, reported: bool)
    requires offset <= |chunk|
  {
    && AllTruthful(chunk[..offset], view, present, doomed, content, mode, {})
    && AllIngested(chunk[..offset], view, reported)
    && (offset < |chunk| ==> ChunkReady(chunk[offset..], view, present, doomed))
  }

  // What a batch `ready` did between two states, as its caller sees it.
  ghost predicate BatchRan(ready: seq<PreparedObject>, view: map<string, ObjectResult>, present: set<Segment>, doomed: set<Segment>, content: map<string, string>,
                           after: map<string, ObjectResult>, presentAfter: set<Segment>, doomedAfter: set<Segment>, contentAfter: map<string, string>,
                           mode: VerificationMode, status: Status, reported: bool) {
    && OnlyCommits(present, doomed, presentAfter, doomedAfter, Segments(ready))
    && SameContentOutside(content, contentAfter, Ids(ready))
    && Untouched(view, after, Ids(ready))
    && AllTruthful(ready, after, presentAfter, doomedAfter, contentAfter, mode, status.Naming())
    && (status.Ok? ==> AllIngested(ready, after, reported))
  }

  lemma SubchunkReady(chunk: seq<PreparedObject>, i: nat, j: nat, view: map<string, ObjectResult>, present: set<Segment>, doomed: set<Segment>)
    requires ChunkReady(chunk, view, present, doomed) && i < j <= |chunk|
    ensures ChunkReady(chunk[i..j], view, present, doomed)
  {
    forall o | o in chunk[i..j]
      ensures o in chunk && o.id in Ids(chunk) && o.AsSegment() in Segments(chunk)
    {
    }
  }

  lemma DisjointParts(chunk: seq<PreparedObject>, i: nat, j: nat)
    requires DistinctObjects(chunk) && i <= j <= |chunk|
    ensures Ids(chunk[..i]) !! Ids(chunk[i..j]) && Ids(chunk[j..]) !! Ids(chunk[i..j])
    ensures Segments(chunk[j..]) !! Segments(chunk[i..j])
    ensures Ids(chunk[i..j]) <= Ids(chunk) && Segments(chunk[i..j]) <= Segments(chunk)
  {
    forall o | o in chunk[j..] ensures o.AsSegment() !in Segments(chunk[i..j]) {
      assert o.id in Ids(chunk[j..]);
    }
  }

  // A batch leaves Objects outside it as ready as they were.
  lemma ReadyStands(rest: seq<PreparedObject>, others: seq<PreparedObject>, view: map<string, ObjectResult>, present: set<Segment>, doomed: set<Segment>,
                    after: map<string, ObjectResult>, presentAfter: set<Segment>, doomedAfter: set<Segment>)
    requires ChunkReady(rest, view, present, doomed)
    requires Ids(rest) !! Ids(others) && Segments(rest) !! Segments(others)
    requires OnlyCommits(present, doomed, presentAfter, doomedAfter, Segments(others)) && Untouched(view, after, Ids(others))
    ensures ChunkReady(rest, after, presentAfter, doomedAfter)
  {
    forall o | o in rest
      ensures o.id in after && after[o.id] == view[o.id]
    {
      assert o.id in Ids(rest);
    }
    assert Segments(rest) !! presentAfter && Segments(rest) !! doomedAfter;
  }

  lemma TruthfulJoins(a: seq<PreparedObject>, b: seq<PreparedObject>, view: map<string, ObjectResult>, present: set<Segment>, doomed: set<Segment>,
                      content: map<string, string>, mode: VerificationMode, named: set<string>)
    requires AllTruthful(a, view, present, doomed, content, mode, named) && AllTruthful(b, view, present, doomed, content, mode, named)
    ensures AllTruthful(a + b, view, present, doomed, content, mode, named)
  {
  }

  // One more batch has run: progress on success, and the truth about every Object either way.
  lemma BatchAdvances(chunk: seq<PreparedObject>, i: nat, j: nat, view: map<string, ObjectResult>, present: set<Segment>, doomed: set<Segment>, content: map<string, string>,
                      after: map<string, ObjectResult>, presentAfter: set<Segment>, doomedAfter: set<Segment>, contentAfter: map<string, string>,
                      mode: VerificationMode, status: Status, reported: bool)
    requires DistinctObjects(chunk) && i < j <= |chunk|
    requires Progressed(chunk, i, view, present, doomed, content, mode, reported)
    requires BatchRan(chunk[i..j], view, present, doomed, content, after, presentAfter, doomedAfter, contentAfter, mode, status, reported)
    ensures status.Ok? ==> Progressed(chunk, j, after, presentAfter, doomedAfter, contentAfter, mode, reported)
    ensures AllTruthful(chunk, after, presentAfter, doomedAfter, contentAfter, mode, status.Naming())
  {
    DisjointParts(chunk, i, j);
    var ready := chunk[i..j];
    TruthStands(chunk[..i], view, present, doomed, content, mode, {}, ready, after, presentAfter, doomedAfter, contentAfter, status.Naming());
    TruthfulJoins(chunk[..i], ready, after, presentAfter, doomedAfter, contentAfter, mode, status.Naming());
    assert chunk[..j] == chunk[..i] + ready;
    if j < |chunk| {
      assert chunk[i..][j - i..|chunk| - i] == chunk[j..];
      SubchunkReady(chunk[i..], j - i, |chunk| - i, view, present, doomed);
      ReadyStands(chunk[j..], ready, view, present, doomed, after, presentAfter, doomedAfter);
      PlannedTruthful(chunk[j..], after, presentAfter, doomedAfter, contentAfter, mode);
      TruthfulJoins(chunk[..j], chunk[j..], after, presentAfter, doomedAfter, contentAfter, mode, status.Naming());
    }
    assert chunk == chunk[..j] + chunk[j..];
    forall o | o in chunk[..i] ensures o.id in after && after[o.id] == view[o.id] {
      assert o.id in Ids(chunk[..i]);
    }
  }

  // Every Object of a ready chunk is absent to begin with.
  lemma AbsentUnclaimed(chunk: seq<PreparedObject>, view: map<string, ObjectResult>, present: set<Segment>, doomed: set<Segment>)
    requires ChunkReady(chunk, view, present, doomed)
    ensures forall o :: o in chunk ==> o.AsSegment() !in present
  {
    forall o | o in chunk ensures o.AsSegment() !in present {
      assert o.AsSegment() in Segments(chunk);
    }
  }

  lemma WholeIsReady(chunk: seq<PreparedObject>, view: map<string, ObjectResult>, present: set<Segment>, doomed: set<Segment>, content: map<string, string>,
                     mode: VerificationMode, reported: bool)
    requires ChunkReady(chunk, view, present, doomed)
    ensures Progressed(chunk, 0, view, present, doomed, content, mode, reported)
  {
    assert chunk[0..] == chunk;
  }

  // Between two batches every disposition is true.
  lemma ProgressTruthful(chunk: seq<PreparedObject>, offset: nat, view: map<string, ObjectResult>, present: set<Segment>, doomed: set<Segment>, content: map<string, string>,
                         mode: VerificationMode, reported: bool)
    requires offset < |chunk| && Progressed(chunk, offset, view, present, doomed, content, mode, reported)
    ensures AllTruthful(chunk, view, present, doomed, content, mode, {})
  {
    PlannedTruthful(chunk[offset..], view, present, doomed, content, mode);
    TruthfulJoins(chunk[..offset], chunk[offset..], view, present, doomed, content, mode, {});
    assert chunk == chunk[..offset] + chunk[offset..];
  }

  // The next batch of a chunk is ready when the rest is.
  lemma NextReady(chunk: seq<PreparedObject>, offset: nat, end: nat, view: map<string, ObjectResult>, present: set<Segment>, doomed: set<Segment>)
    requires offset < end <= |chunk| && ChunkReady(chunk[offset..], view, present, doomed)
    ensures ChunkReady(chunk[offset..end], view, present, doomed)
  {
    SubchunkReady(chunk[offset..], 0, end - offset, view, present, doomed);
    assert chunk[offset..][0..end - offset] == chunk[offset..end];
  }

  // What a run of batches over a chunk has done to everything outside it.
  ghost predicate Confined(chunk: seq<PreparedObject>, view: map<string, ObjectResult>, present: set<Segment>, doomed: set<Segment>, content: map<string, string>,
                           after: map<string, ObjectResult>, presentAfter: set<Segment>, doomedAfter: set<Segment>, contentAfter: map<string, string>) {
    && OnlyCommits(present, doomed, presentAfter, doomedAfter, Segments(chunk))
    && SameContentOutside(content, contentAfter, Ids(chunk))
    && Untouched(view, after, Ids(chunk))
  }

  lemma ConfinedComposes(chunk: seq<PreparedObject>, ready: seq<PreparedObject>,
                         v0: map<string, ObjectResult>, p0: set<Segment>, d0: set<Segment>, c0: map<string, string>,
                         v1: map<string, ObjectResult>, p1: set<Segment>, d1: set<Segment>, c1: map<string, string>,
                         v2: map<string, ObjectResult>, p2: set<Segment>, d2: set<Segment>, c2: map<string, string>)
    requires Ids(ready) <= Ids(chunk) && Segments(ready) <= Segments(chunk)
    requires Confined(chunk, v0, p0, d0, c0, v1, p1, d1, c1) && Confined(ready, v1, p1, d1, c1, v2, p2, d2, c2)
    ensures Confined(chunk, v0, p0, d0, c0, v2, p2, d2, c2)
  {
  }

  /** commitChunk: ready-worker microbatches, one after the other, until one fails. */
  method CommitChunk(store: Store, log: LifecycleLog, chunk: seq<PreparedObject>, results: array<ObjectResult>, mode: VerificationMode)
      returns (status: Status)
    requires Distinct(results[..]) && ChunkReady(chunk, ById(results[..]), store.present, store.doomed)
    requires PublishedFinal(log.published, ById(results[..]))
    modifies store, results, log`published
    ensures Confined(chunk, old(ById(results[..])), old(store.present), old(store.doomed), old(store.content), ById(results[..]), store.present, store.doomed, store.content)
    ensures Distinct(results[..])
    ensures AllTruthful(chunk, ById(results[..]), store.present, store.doomed, store.content, mode, status.Naming())
    ensures status.Ok? ==> AllIngested(chunk, ById(results[..]), log.configured)
    ensures PublishedFinal(log.published, ById(results[..]))
    ensures Sends(chunk, old(store.traffic), store.traffic, old(store.present), store.present)
    ensures Calm(store, chunk) && log.accepting ==> status.Ok?
  {
    ghost var v0, p0, d0, c0 := ById(results[..]), store.present, store.doomed, store.content;
    ghost var t0 := store.traffic;
    NothingSent(chunk, t0, p0, p0);
    WholeIsReady(chunk, v0, p0, d0, c0, mode, log.configured);
    var offset := 0;
    while offset < |chunk|
      invariant 0 <= offset <= |chunk|
      invariant Distinct(results[..]) && PublishedFinal(log.published, ById(results[..]))
      invariant Progressed(chunk, offset, ById(results[..]), store.present, store.doomed, store.content, mode, log.configured)
      invariant Sends(chunk, t0, store.traffic, p0, store.present)
      invariant Confined(chunk, v0, p0, d0, c0, ById(results[..]), store.present, store.doomed, store.content)
    {
      ghost var t1 := store.traffic;
      ghost var v1, p1, d1, c1 := ById(results[..]), store.present, store.doomed, store.content;
      var count: nat := *; // the upload workers that happened to be free, at least one
      var end := if 0 < count < |chunk| - offset then offset + count else |chunk|;
      var cancelled: bool := *;
      if cancelled && !store.calm {
        status := Error({});
        ProgressTruthful(chunk, offset, v1, p1, d1, c1, mode, log.configured);
        return;
      }
      NextReady(chunk, offset, end, v1, p1, d1);
      status := CommitReadyChunk(store, log, chunk[offset..end], results, mode);
      BatchAdvances(chunk, offset, end, v1, p1, d1, c1, ById(results[..]), store.present, store.doomed, store.content, mode, status, log.configured);
      DisjointParts(chunk, offset, end);
      ConfinedComposes(chunk, chunk[offset..end], v0, p0, d0, c0, v1, p1, d1, c1, ById(results[..]), store.present, store.doomed, store.content);
      SendsNext(chunk, offset, end, t0, p0, t1, p1, store.traffic, store.present);
      if status.Error? {
        return;
      }
      offset := end;
    }
    assert chunk[..|chunk|] == chunk;
    status := Ok;
  }

  // Lines 435-452: the missing Objects, in chunks sized from the bytes the registration lifetime allows.
  method CommitMissing(store: Store, log: LifecycleLog, missing: seq<PreparedObject>, results: array<ObjectResult>, mode: VerificationMode)
      returns (status: Status)
    requires Distinct(results[..]) && ChunkReady(missing, ById(results[..]), store.present, store.doomed)
    requires PublishedFinal(log.published, ById(results[..]))
    modifies store, results, log`published
    ensures Confined(missing, old(ById(results[..])), old(store.present), old(store.doomed), old(store.content), ById(results[..]), store.present, store.doomed, store.content)
    ensures Distinct(results[..])
    ensures AllTruthful(missing, ById(results[..]), store.present, store.doomed, store.content, mode, status.Naming())
    ensures status.Ok? ==> AllIngested(missing, ById(results[..]), log.configured)
    ensures PublishedFinal(log.published, ById(results[..]))
    ensures Sends(missing, old(store.traffic), store.traffic, old(store.present), store.present)
    ensures AllSent(missing, ById(results[..]), store.traffic[|old(store.traffic)|..])
    ensures Calm(store, missing) && log.accepting ==> status.Ok?
  {
    ghost var v0, p0, d0, c0 := ById(results[..]), store.present, store.doomed, store.content;
    ghost var t0 := store.traffic;
    NothingSent(missing, t0, p0, p0);
    WholeIsReady(missing, v0, p0, d0, c0, mode, log.configured);
    var offset := 0;
    while offset < |missing|
      invariant 0 <= offset <= |missing|
      invariant Distinct(results[..]) && PublishedFinal(log.published, ById(results[..]))
      invariant Progressed(missing, offset, ById(results[..]), store.present, store.doomed, store.content, mode, log.configured)
      invariant Sends(missing, t0, store.traffic, p0, store.present)
      invariant Confined(missing, v0, p0, d0, c0, ById(results[..]), store.present, store.doomed, store.content)
    {
      ghost var t1 := store.traffic;
      ghost var v1, p1, d1, c1 := ById(results[..]), store.present, store.doomed, store.content;
      var budget: nat := *; // half the registration lifetime at the measured throughput
      var count := ChunkSize(missing[offset..], budget);
      var end := offset + count;
      NextReady(missing, offset, end, v1, p1, d1);
      status := CommitChunk(store, log, missing[offset..end], results, mode);
      BatchAdvances(missing, offset, end, v1, p1, d1, c1, ById(results[..]), store.present, store.doomed, store.content, mode, status, log.configured);
      DisjointParts(missing, offset, end);
      ConfinedComposes(missing, missing[offset..end], v0, p0, d0, c0, v1, p1, d1, c1, ById(results[..]), store.present, store.doomed, store.content);
      SendsNext(missing, offset, end, t0, p0, t1, p1, store.traffic, store.present);
      if status.Error? {
        AbsentUnclaimed(missing, v0, p0, d0);
        SentIfClaimed(missing, ById(results[..]), t0, store.traffic, p0, store.present, store.doomed, store.content, mode, status.Naming());
        return;
      }
      offset := end;
    }
    assert missing[..|missing|] == missing;
    status := Ok;
    AbsentUnclaimed(missing, v0, p0, d0);
    SentIfClaimed(missing, ById(results[..]), t0, store.traffic, p0, store.present, store.doomed, store.content, mode, {});
  }

  // None of these is claimed to have been registered by this run.
  ghost predicate NothingNew(objects: seq<PreparedObject>, view: map<string, ObjectResult>) {
    forall o :: o in objects && o.id in view ==> view[o.id].disposition !in {Registered, Ingested}
  }

  ghost predicate AllHold(objects: seq<PreparedObject>, content: map<string, string>) { forall o :: o in objects ==> HoldsBytes(o, content) }

  // What is registered already has the right bytes.
  ghost predicate ListedHold(objects: seq<PreparedObject>, present: set<Segment>, content: map<string, string>) {
    forall o :: o in objects && o.AsSegment() in present ==> HoldsBytes(o, content)
  }

  lemma {:induction false} ResolvedNotNew(known: seq<PreparedObject>, before: map<string, ObjectResult>, after: map<string, ObjectResult>, outcomes: seq<Outcome>)
    requires |outcomes| == |known| && Resolves(before, after, known, outcomes, |known|)
    requires forall o :: o in known ==> o.id in before && before[o.id].disposition == Resumed
    ensures NothingNew(known, after)
  {
    forall o | o in known ensures o.id in after && after[o.id].disposition !in {Registered, Ingested} {
      var k :| 0 <= k < |known| && known[k] == o;
      assert after[known[k].id] == ResultOf(before[known[k].id], outcomes[k]);
    }
  }

  method PublishResumed(store: Store, log: LifecycleLog, known: seq<PreparedObject>, results: array<ObjectResult>, mode: VerificationMode)
      returns (status: Status)
    requires Distinct(results[..]) && PublishedFinal(log.published, ById(results[..])) && AllResumed(known, ById(results[..]))
    requires AllTruthful(known, ById(results[..]), store.present, store.doomed, store.content, mode, {})
    modifies results, log`published
    ensures Distinct(results[..]) && PublishedFinal(log.published, ById(results[..])) && AllResumed(known, ById(results[..]))
    ensures Untouched(old(ById(results[..])), ById(results[..]), Ids(known))
    ensures AllTruthful(known, ById(results[..]), store.present, store.doomed, store.content, mode, {})
    ensures status.Naming() == {} && (log.accepting ==> status.Ok?)
  {
    ghost var mid := ById(results[..]);
    var accepted := Observe(log, results, Ids(known));
    status := if accepted then Ok else Error({});
    ReportingStaysTruthful(known, mid, ById(results[..]), store.present, store.doomed, store.content, mode);
  }

  // Lines 414-427: Objects found in the store are checked, when checking is asked for, and published.
  method CheckResumed(store: Store, log: LifecycleLog, known: seq<PreparedObject>, results: array<ObjectResult>, mode: VerificationMode)
      returns (status: Status)
    requires DistinctObjects(known) && Distinct(results[..]) && Ids(known) <= ById(results[..]).Keys && Unverifieds(known, ById(results[..]))
    requires forall o :: o in known ==> ById(results[..])[o.id].disposition == Resumed && !ById(results[..])[o.id].reported
    requires forall o :: o in known ==> o.AsSegment() in store.present && o.AsSegment() !in store.doomed
    requires PublishedFinal(log.published, ById(results[..]))
    modifies store`present, store`doomed, results, log`published
    ensures Confined(known, old(ById(results[..])), old(store.present), old(store.doomed), store.content, ById(results[..]), store.present, store.doomed, store.content)
    ensures Distinct(results[..])
    ensures AllTruthful(known, ById(results[..]), store.present, store.doomed, store.content, mode, status.Naming())
    ensures status.Ok? ==> forall o :: o in known ==> ById(results[..])[o.id].disposition == Resumed
    ensures PublishedFinal(log.published, ById(results[..]))
    ensures store.present <= old(store.present) && NothingNew(known, ById(results[..]))
    ensures store.calm && log.accepting && (mode == VerificationNone || AllHold(known, store.content)) ==> status.Ok?
  {
    if mode == VerificationNone || known == [] {
      return Ok;
    }
    ghost var start := ById(results[..]);
    ghost var outcomes;
    status, outcomes := VerifyAll(store, known, results);
    assert known[..|known|] == known;
    ghost var mid := ById(results[..]);
    VerifiedBatchTruthful(known, start, mid, outcomes, store.present, store.doomed, store.content, mode, status.Naming());
    ResolvedNotNew(known, start, mid, outcomes);
    UnreportedIn(known, start);
    PublishedStays(log.published, start, mid, Ids(known));
    if status.Error? {
      return;
    }
    VerifiedBatchComplete(known, start, mid, outcomes);
    status := PublishResumed(store, log, known, results, mode);
  }

  lemma ReportingStaysTruthful(objects: seq<PreparedObject>, view: map<string, ObjectResult>, after: map<string, ObjectResult>,
                               present: set<Segment>, doomed: set<Segment>, content: map<string, string>, mode: VerificationMode)
    requires AllTruthful(objects, view, present, doomed, content, mode, {})
    requires after.Keys == view.Keys && forall id :: id in view ==> after[id] == view[id] || after[id] == view[id].(reported := true)
    ensures AllTruthful(objects, after, present, doomed, content, mode, {})
  {
    forall o | o in objects ensures Truthful(o, after[o.id], present, doomed, content, mode, {}) {
      assert Truthful(o, view[o.id], present, doomed, content, mode, {});
    }
  }

  ghost predicate BatchFresh(objects: seq<PreparedObject>, view: map<string, ObjectResult>, doomed: set<Segment>) {
    && OnTimeline(objects) && BatchReady(objects, view, doomed)
    && forall o :: o in objects ==> view[o.id].disposition == Planned && !view[o.id].reported
  }

  lemma {:induction false} HalvesNew(objects: seq<PreparedObject>, existing: set<Segment>, view: map<string, ObjectResult>)
    requires NothingNew(Select(objects, existing, true), view)
    requires forall o :: o in Select(objects, existing, false) && o.id in view ==> view[o.id].disposition == Planned
    ensures NothingNew(objects, view)
  {
    SelectSound(objects, existing, true);
    SelectSound(objects, existing, false);
    forall o | o in objects && o.id in view ensures view[o.id].disposition !in {Registered, Ingested} {
      assert o in Select(objects, existing, o.AsSegment() in existing);
    }
  }

  // Lines 398-430: what the listing shows is resumed and checked; the missing Objects are still ready.
  method ResumeListed(store: Store, log: LifecycleLog, objects: seq<PreparedObject>, results: array<ObjectResult>, mode: VerificationMode,
                      existing: set<Segment>) returns (status: Status, missing: seq<PreparedObject>)
    requires Distinct(results[..]) && BatchFresh(objects, ById(results[..]), store.doomed)
    requires forall o :: o in objects ==> (o.AsSegment() in existing <==> o.AsSegment() in store.present)
    requires PublishedFinal(log.published, ById(results[..]))
    modifies store`present, store`doomed, results, log`published
    ensures Confined(objects, old(ById(results[..])), old(store.present), old(store.doomed), store.content, ById(results[..]), store.present, store.doomed, store.content)
    ensures Distinct(results[..]) && PublishedFinal(log.published, ById(results[..]))
    ensures missing == Select(objects, existing, false)
    ensures AllTruthful(objects, ById(results[..]), store.present, store.doomed, store.content, mode, status.Naming())
    ensures missing != [] ==> ChunkReady(missing, ById(results[..]), store.present, store.doomed)
    ensures status.Ok? ==> AllResumed(Select(objects, existing, true), ById(results[..]))
    ensures store.present <= old(store.present) && NothingNew(objects, ById(results[..]))
    ensures store.calm && log.accepting && (mode == VerificationNone || ListedHold(objects, old(store.present), store.content)) ==> status.Ok?
  {
    ghost var v0, p0, d0, c0 := ById(results[..]), store.present, store.doomed, store.content;
    var known;
    known, missing := Partition(Sort(existing, Resumed, None), objects, results);
    PartitionHalves(objects, existing);
    ghost var v1 := ById(results[..]);
    SplitReady(objects, existing, v0, v1, p0, d0);
    PublishedStays(log.published, v0, v1, Ids(objects));
    status := CheckResumed(store, log, known, results, mode);
    ghost var v2, p2, d2 := ById(results[..]), store.present, store.doomed;
    if missing != [] {
      ReadyStands(missing, known, v1, p0, d0, v2, p2, d2);
      PlannedTruthful(missing, v2, p2, d2, c0, mode);
    }
    HalvesTruthful(objects, existing, v2, p2, d2, c0, mode, status.Naming());
    HalvesNew(objects, existing, v2);
    ConfinedComposes(objects, known, v0, p0, d0, c0, v1, p0, d0, c0, v2, p2, d2, c0);
  }

  ghost predicate AllResumed(objects: seq<PreparedObject>, view: map<string, ObjectResult>) {
    forall o :: o in objects ==> o.id in view && view[o.id].disposition == Resumed
  }

  /** registerPreparedObjects: resume what a truthful listing shows, commit the rest. Whatever
      the store does, every disposition is true when it returns; without an error every
      Object is in the store, resumed exactly when it was listed. */
  method RegisterPreparedObjects(store: Store, log: LifecycleLog, objects: seq<PreparedObject>, results: array<ObjectResult>, mode: VerificationMode,
                                 existing: set<Segment>) returns (status: Status)
    requires Distinct(results[..]) && BatchFresh(objects, ById(results[..]), store.doomed)
    requires forall o :: o in objects ==> (o.AsSegment() in existing <==> o.AsSegment() in store.present)
    requires PublishedFinal(log.published, ById(results[..]))
    modifies store, results, log`published
    ensures Confined(objects, old(ById(results[..])), old(store.present), old(store.doomed), old(store.content), ById(results[..]), store.present, store.doomed, store.content)
    ensures Distinct(results[..]) && PublishedFinal(log.published, ById(results[..]))
    ensures AllTruthful(objects, ById(results[..]), store.present, store.doomed, store.content, mode, status.Naming())
    ensures status.Ok? ==> forall o :: o in objects ==>
        ById(results[..])[o.id].disposition == if o.AsSegment() in existing then Resumed else Ingested
    ensures Sends(objects, old(store.traffic), store.traffic, old(store.present), store.present)
    ensures AllSent(objects, ById(results[..]), store.traffic[|old(store.traffic)|..])
    ensures store.traffic == old(store.traffic) || store.traffic[|old(store.traffic)|] == Marked
    ensures Calm(store, objects) && log.accepting && (mode == VerificationNone || ListedHold(objects, old(store.present), old(store.content))) ==> status.Ok?
  {
    ghost var t0 := store.traffic;
    ghost var v0, p0, d0, c0 := ById(results[..]), store.present, store.doomed, store.content;
    var missing;
    status, missing := ResumeListed(store, log, objects, results, mode, existing);
    ghost var known := Select(objects, existing, true);
    PartitionHalves(objects, existing);
    SelectSound(objects, existing, true);
    SelectSound(objects, existing, false);
    NothingSent(objects, t0, p0, store.present);
    if status.Error? || missing == [] {
      return;
    }
    ghost var v2, p2, d2 := ById(results[..]), store.present, store.doomed;
    var marked := store.MarkIngesting();
    if !marked {
      return Error({});
    }
    status := CommitMissing(store, log, missing, results, mode);
    MissingCommitted(objects, existing, v2, p2, d2, c0, ById(results[..]), store.present, store.doomed, store.content, mode, status);
    CommittedSends(objects, missing, t0, p0, p2, store.traffic, store.present);
    forall o | o in objects && o.AsSegment() in p0 ensures ById(results[..])[o.id].disposition !in {Registered, Ingested} {
      assert o in known;
    }
    SentIfClaimed(objects, ById(results[..]), t0, store.traffic, p0, store.present, store.doomed, store.content, mode, status.Naming());
    ConfinedComposes(objects, missing, v0, p0, d0, c0, v2, p2, d2, c0, ById(results[..]), store.present, store.doomed, store.content);
  }

  // Marking the Flow and then committing the missing half.
  lemma {:induction false} CommittedSends(objects: seq<PreparedObject>, missing: seq<PreparedObject>, t0: seq<Traffic>, p0: set<Segment>, p1: set<Segment>, t2: seq<Traffic>, p2: set<Segment>)
    requires p1 <= p0 && Sends(missing, t0 + [Marked], t2, p1, p2) && forall o :: o in missing ==> o in objects
    ensures Sends(objects, t0, t2, p0, p2) && t2 != t0 && t2[|t0|] == Marked
  {
    var t1 := t0 + [Marked];
    assert t1[|t0|..] == [Marked] && t2[|t0|] == t1[|t0|];
    forall k | 0 <= k < |[Marked]| ensures OrderedAt(missing, [Marked], k) {
    }
    SendsCompose(missing, missing, objects, t0, p0, t1, p1, t2, p2);
  }

  // Committing the missing half leaves what was said about the resumed half standing.
  lemma {:induction false} MissingCommitted(objects: seq<PreparedObject>, existing: set<Segment>,
                         view: map<string, ObjectResult>, present: set<Segment>, doomed: set<Segment>, content: map<string, string>,
                         after: map<string, ObjectResult>, presentAfter: set<Segment>, doomedAfter: set<Segment>, contentAfter: map<string, string>,
                         mode: VerificationMode, status: Status)
    requires DistinctObjects(objects) && AllTruthful(objects, view, present, doomed, content, mode, {})
    requires var known, missing := Select(objects, existing, true), Select(objects, existing, false);
      && AllResumed(known, view)
      && Confined(missing, view, present, doomed, content, after, presentAfter, doomedAfter, contentAfter)
      && AllTruthful(missing, after, presentAfter, doomedAfter, contentAfter, mode, status.Naming())
    ensures AllTruthful(objects, after, presentAfter, doomedAfter, contentAfter, mode, status.Naming())
    ensures AllResumed(Select(objects, existing, true), after)
  {
    var known, missing := Select(objects, existing, true), Select(objects, existing, false);
    PartitionHalves(objects, existing);
    TruthStands(known, view, present, doomed, content, mode, {}, missing, after, presentAfter, doomedAfter, contentAfter, status.Naming());
    HalvesTruthful(objects, existing, after, presentAfter, doomedAfter, contentAfter, mode, status.Naming());
    forall o | o in known ensures o.id in after && after[o.id] == view[o.id] {
      assert o.id in Ids(known);
    }
  }

  lemma {:induction false} SplitReady(objects: seq<PreparedObject>, existing: set<Segment>, before: map<string, ObjectResult>, after: map<string, ObjectResult>,
                   present: set<Segment>, doomed: set<Segment>)
    requires BatchFresh(objects, before, doomed)
    requires SameOutside(before, after, Ids(objects))
    requires forall o :: o in objects ==> (o.AsSegment() in existing <==> o.AsSegment() in present)
    requires forall o :: o in objects ==> o.id in after && after[o.id] == Sort(existing, Resumed, None).Write(o, before[o.id])
    ensures var known, missing := Select(objects, existing, true), Select(objects, existing, false);
      && Unverifieds(known, after)
      && (forall o :: o in known ==> o.AsSegment() in present && o.AsSegment() !in doomed && after[o.id].disposition == Resumed && !after[o.id].reported)
      && (missing != [] ==> ChunkReady(missing, after, present, doomed))
  {
    SelectSound(objects, existing, true);
    SelectSound(objects, existing, false);
    forall o | o in objects ensures o.AsSegment() !in doomed {
      assert o.AsSegment() in Segments(objects);
    }
  }

  ghost predicate AllLanded(objects: seq<PreparedObject>, view: map<string, ObjectResult>, present: set<Segment>) {
    forall o :: o in objects ==>
      o.id in view && (view[o.id].disposition == Ingested || view[o.id].disposition == Resumed) && o.AsSegment() in present
  }

  lemma TruthLands(objects: seq<PreparedObject>, existing: set<Segment>, view: map<string, ObjectResult>, present: set<Segment>, doomed: set<Segment>,
                   content: map<string, string>, mode: VerificationMode)
    requires AllTruthful(objects, view, present, doomed, content, mode, {})
    requires forall o :: o in objects ==> view[o.id].disposition == if o.AsSegment() in existing then Resumed else Ingested
    ensures AllLanded(objects, view, present)
  {
    forall o | o in objects ensures o.AsSegment() in present {
      assert Truthful(o, view[o.id], present, doomed, content, mode, {});
    }
  }

  lemma NothingNewSent(objects: seq<PreparedObject>, view: map<string, ObjectResult>)
    requires forall o :: o in objects ==> o.id in view && view[o.id].disposition == Planned
    ensures forall sent :: AllSent(objects, view, sent)
  {
  }

  /** registerFlow: one complete listing decides what to resume. A failed listing changes nothing. */
  method RegisterFlow(store: Store, log: LifecycleLog, objects: seq<PreparedObject>, results: array<ObjectResult>, mode: VerificationMode)
      returns (status: Status, listed: bool)
    requires Distinct(results[..]) && BatchFresh(objects, ById(results[..]), store.doomed)
    requires PublishedFinal(log.published, ById(results[..]))
    modifies store, results, log`published
    ensures Distinct(results[..]) && PublishedFinal(log.published, ById(results[..]))
    ensures Confined(objects, old(ById(results[..])), old(store.present), old(store.doomed), old(store.content), ById(results[..]), store.present, store.doomed, store.content)
    ensures !listed ==> status.Error? && results[..] == old(results[..]) && store.present <= old(store.present)
    ensures listed ==> AllTruthful(objects, ById(results[..]), store.present, store.doomed, store.content, mode, status.Naming())
    ensures status.Ok? ==> AllLanded(objects, ById(results[..]), store.present)
    ensures Sends(objects, old(store.traffic), store.traffic, old(store.present), store.present)
    ensures AllSent(objects, ById(results[..]), store.traffic[|old(store.traffic)|..])
    ensures Calm(store, objects) && log.accepting && (mode == VerificationNone || ListedHold(objects, old(store.present), old(store.content))) ==> listed && status.Ok?
  {
    ghost var v0, p0, d0, c0 := ById(results[..]), store.present, store.doomed, store.content;
    var existing := store.List(Query(None, None));
    NothingSent(objects, store.traffic, p0, store.present);
    if existing.None? {
      NothingNewSent(objects, v0);
      return Error({}), false;
    }
    ghost var p1 := store.present;
    ghost var t1 := store.traffic;
    SelectSound(objects, existing.value, true);
    status := RegisterPreparedObjects(store, log, objects, results, mode, existing.value);
    if status.Ok? {
      TruthLands(objects, existing.value, ById(results[..]), store.present, store.doomed, store.content, mode);
    }
    SendsCompose(objects, objects, objects, t1, p0, t1, p1, store.traffic, store.present);
    ConfinedComposes(objects, objects, v0, p0, d0, c0, v0, p1, d0, c0, ById(results[..]), store.present, store.doomed, store.content);
    listed := true;
  }

  // An Object whose Segment the batch filter cannot list (see BatchFilterSees).
  ghost predicate TrailingInstant(objects: seq<PreparedObject>, o: PreparedObject)
    requires objects != []
  {
    o.duration == 0 && o.start == LastEnd(objects) && 0 < LastEnd(objects) - FirstStart(objects) < INT64_LIMIT
  }

  /** registerRollingChunk lists only the batch's own span. It keeps the same promise unless a Segment
      already in the store is an instant at the end of that span: such a Segment is taken for missing,
      although it is registered (RollingTruthExact, RollingListingMissesInstant). */
  method RegisterRollingChunk(store: Store, log: LifecycleLog, objects: seq<PreparedObject>, results: array<ObjectResult>, mode: VerificationMode)
      returns (status: Status, listed: bool)
    requires objects != [] && Distinct(results[..]) && BatchFresh(objects, ById(results[..]), store.doomed)
    requires forall o :: o in objects && o.AsSegment() in store.present ==> !TrailingInstant(objects, o)
    requires PublishedFinal(log.published, ById(results[..]))
    modifies store, results, log`published
    ensures Distinct(results[..]) && PublishedFinal(log.published, ById(results[..]))
    ensures Confined(objects, old(ById(results[..])), old(store.present), old(store.doomed), old(store.content), ById(results[..]), store.present, store.doomed, store.content)
    ensures !listed ==> status.Error? && results[..] == old(results[..]) && store.present <= old(store.present)
    ensures listed ==> AllTruthful(objects, ById(results[..]), store.present, store.doomed, store.content, mode, status.Naming())
    ensures status.Ok? ==> AllLanded(objects, ById(results[..]), store.present)
    ensures Sends(objects, old(store.traffic), store.traffic, old(store.present), store.present)
    ensures AllSent(objects, ById(results[..]), store.traffic[|old(store.traffic)|..])
    ensures Calm(store, objects) && log.accepting && (mode == VerificationNone || ListedHold(objects, old(store.present), old(store.content))) ==> listed && status.Ok?
  {
    var timerange := ChunkTimerange(objects);
    ghost var v0, p0, d0, c0 := ById(results[..]), store.present, store.doomed, store.content;
    var existing := store.List(Query(None, timerange));
    NothingSent(objects, store.traffic, p0, store.present);
    if existing.None? {
      NothingNewSent(objects, v0);
      return Error({}), false;
    }
    ghost var p1 := store.present;
    forall o | o in objects
      ensures o.AsSegment() in existing.value <==> o.AsSegment() in store.present
    {
      SpanWithin(objects, o);
      RollingListingShows(objects, o, timerange);
    }
    ghost var t1 := store.traffic;
    SelectSound(objects, existing.value, true);
    status := RegisterPreparedObjects(store, log, objects, results, mode, existing.value);
    if status.Ok? {
      TruthLands(objects, existing.value, ById(results[..]), store.present, store.doomed, store.content, mode);
    }
    SendsCompose(objects, objects, objects, t1, p0, t1, p1, store.traffic, store.present);
    ConfinedComposes(objects, objects, v0, p0, d0, c0, v0, p1, d0, c0, ById(results[..]), store.present, store.doomed, store.content);
    listed := true;
  }

  /** The filter ChunkTimerange computes lists a registered Object of the batch exactly when it is
      no trailing instant. */
  lemma {:induction false} RollingListingShows(objects: seq<PreparedObject>, o: PreparedObject, timerange: Option<Timerange>)
    requires o in objects && LastEnd(objects) >= FirstStart(objects)
    requires timerange.None? <==> LastEnd(objects) - FirstStart(objects) >= INT64_LIMIT
    requires timerange.Some? ==> timerange.value == Timerange(FirstStart(objects), LastEnd(objects) - FirstStart(objects))
    ensures Query(None, timerange).Selects(o.AsSegment()) <==> !TrailingInstant(objects, o)
  {
    BatchFilterSees(objects, o);
  }

  /** What a rolling batch says of its Objects once it has listed them, and says at exit if nothing more
      succeeds, is true exactly when none of its registered Objects is a trailing instant. */
  lemma {:induction false} RollingTruthExact(objects: seq<PreparedObject>, timerange: Option<Timerange>, existing: set<Segment>, before: map<string, ObjectResult>, after: map<string, ObjectResult>,
                           present: set<Segment>, doomed: set<Segment>, content: map<string, string>)
    requires objects != [] && BatchFresh(objects, before, doomed)
    requires timerange.None? <==> LastEnd(objects) - FirstStart(objects) >= INT64_LIMIT
    requires timerange.Some? ==> timerange.value == Timerange(FirstStart(objects), LastEnd(objects) - FirstStart(objects))
    requires forall o :: o in objects ==> (o.AsSegment() in existing <==> o.AsSegment() in present && Query(None, timerange).Selects(o.AsSegment()))
    requires forall o :: o in objects ==> o.id in after && after[o.id] == Sort(existing, Resumed, None).Write(o, before[o.id])
    ensures AllTruthful(objects, after, present, doomed, content, VerificationNone, {}) <==>
      forall o :: o in objects && o.AsSegment() in present ==> !TrailingInstant(objects, o)
  {
    forall o | o in objects
      ensures o.id in after && (Truthful(o, after[o.id], present, doomed, content, VerificationNone, {}) <==>
        (o.AsSegment() in present ==> !TrailingInstant(objects, o)))
    {
      SpanWithin(objects, o);
      RollingListingShows(objects, o, timerange);
      assert o.AsSegment() in Segments(objects);
    }
  }

  // Ten nanoseconds of media followed by an instant: the listing of that batch omits the instant.
  lemma RollingListingMissesInstant()
    ensures var media, instant := PreparedObject("a", 1, "x", 0, 10), PreparedObject("b", 1, "y", 10, 0);
      TrailingInstant([media, instant], instant) &&
      !Query(None, Some(Timerange(0, 10))).Selects(instant.AsSegment())
  {
    var media, instant := PreparedObject("a", 1, "x", 0, 10), PreparedObject("b", 1, "y", 10, 0);
    assert [media, instant][..1] == [media];
    assert LastEnd([media, instant]) == 10 && FirstStart([media, instant]) == 0;
  }
}
