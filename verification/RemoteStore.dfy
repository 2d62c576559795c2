/** The media store as its client can know it: a set of registered Flow Segments, changed by
    requests whose replies may be lost, partial or late. Every `*` is the service's or the
    network's choice. Assumed of the environment: listings are truthful, nobody else writes
    to the Flow, a POST whose reply was an error has stopped having effects, a typed partial
    reply names exactly the Segments that failed, and equal SHA-256 digests mean equal bytes. */
module RemoteStore {
  import opened Text

  // [start_start+duration), or the single instant [start] when the duration is zero.
  datatype Timerange = Timerange(start: int, duration: nat) {
    function End(): int { start + duration }

    predicate Covers(instant: int) {
      if duration == 0 then instant == start else start <= instant < End()
    }

    predicate Overlaps(other: Timerange) {
      var latest := if start < other.start then other.start else start;
      Covers(latest) && other.Covers(latest)
    }
  }

  datatype Segment = Segment(objectId: string, timerange: Timerange)

  datatype PreparedObject = PreparedObject(id: string, size: nat, sha256: string, start: int, duration: nat) {
    function Span(): Timerange { Timerange(start, duration) }
    function AsSegment(): Segment { Segment(id, Span()) }
  }

  function Segments(objects: seq<PreparedObject>): set<Segment> {
    set o | o in objects :: o.AsSegment()
  }

  function Ids(objects: seq<PreparedObject>): set<string> {
    set o | o in objects :: o.id
  }

  // A listing filter; an absent member does not filter.
  datatype Query = Query(objectId: Option<string>, timerange: Option<Timerange>) {
    predicate Selects(s: Segment) {
      && (objectId.Some? ==> s.objectId == objectId.value)
      && (timerange.Some? ==> timerange.value.Overlaps(s.timerange))
    }
  }

  // One failed member of a bulk POST; an absent timerange stands for any.
  datatype FailedSegment = FailedSegment(objectId: string, timerange: Option<Timerange>)

  predicate FailedRegistration(failures: seq<FailedSegment>, request: Segment) {
    exists f :: f in failures && f.objectId == request.objectId &&
      (f.timerange.None? || f.timerange.value == request.timerange)
  }

  datatype PostReply = Accepted(failures: seq<FailedSegment>) | NoReply

  datatype DeleteReply = Acknowledged | Queued | NotFound | Ambiguous | Refused

  datatype PollReply = Running | Completed | Expired | Broken

  datatype UploadReply = UploadFailed | Receipt(sentSize: nat, sentSha256: string, storageSha256: Option<string>)

  // What the client sent and the store acknowledged, in order.
  datatype Traffic =
    | Marked                                                      // the Flow is being ingested
    | Allocated(ids: set<string>)                                 // upload destinations
    | Sent(objectId: string, size: nat, sha256: string)           // an acknowledged upload, as transmitted
    | Posted(requests: seq<Segment>)                              // a registration, whatever became of it

  // Nothing was registered, and only Segments already accepted for deletion disappeared.
  ghost predicate Shrinks(before: set<Segment>, after: set<Segment>, doomed: set<Segment>) {
    after <= before && before - after <= doomed
  }

  /** In a calm environment nothing fails, is refused or cancelled, and deletions are done at once; only the
      reply to a registration may still be lost, unless the store also answers those. */
  class Store {
    const calm: bool
    const answersPosts: bool
    var present: set<Segment>        // registered against the Flow
    var doomed: set<Segment>         // accepted for deletion: may vanish at any later moment
    var content: map<string, string> // digest of the bytes stored behind each Object ID
    ghost var traffic: seq<Traffic>

    constructor (registered: set<Segment>, stored: map<string, string>, calm: bool, answersPosts: bool)
      ensures present == registered && doomed == {} && content == stored && traffic == []
      ensures this.calm == calm && this.answersPosts == answersPosts
    {
      this.calm, this.answersPosts := calm, answersPosts;
      present, doomed, content, traffic := registered, {}, stored, [];
    }

    // The Flow's status write that precedes every allocation.
    method MarkIngesting() returns (marked: bool)
      modifies this`traffic
      ensures traffic == old(traffic) + if marked then [Marked] else []
      ensures calm ==> marked
    {
      marked := *;
      marked := marked || calm;
      if marked {
        traffic := traffic + [Marked];
      }
    }

    // Upload destinations, which a service may refuse or leave incomplete.
    method Allocate(ids: set<string>) returns (destinations: set<string>)
      modifies this`traffic
      ensures traffic == old(traffic) + [Allocated(destinations)]
      ensures calm ==> ids <= destinations
    {
      destinations := *;
      if calm {
        destinations := destinations + ids;
      }
      traffic := traffic + [Allocated(destinations)];
    }

    // Deletions complete when the service gets round to them.
    method Settle()
      modifies this`present
      ensures Shrinks(old(present), present, doomed)
    {
      var gone: set<Segment> := *;
      present := present - (doomed * gone);
    }

    method List(query: Query) returns (listed: Option<set<Segment>>)
      modifies this`present
      ensures Shrinks(old(present), present, doomed)
      ensures listed.Some? ==> listed.value == set s | s in present && query.Selects(s)
      ensures calm ==> listed.Some?
    {
      Settle();
      var answered: bool := *;
      listed := if answered || calm then Some(set s | s in present && query.Selects(s)) else None;
    }

    // Bulk registration. Without a reply any part of it may have been committed.
    method Post(requests: seq<Segment>) returns (reply: PostReply)
      modifies this`present, this`traffic
      ensures traffic == old(traffic) + [Posted(requests)]
      ensures calm ==> (forall s :: s in requests ==> s in present) && (reply.Accepted? ==> reply.failures == [])
      ensures calm && answersPosts ==> reply.Accepted?
      ensures forall s :: s in old(present) && s !in doomed ==> s in present
      ensures forall s :: s in present && s !in requests ==> s in old(present)
      ensures reply.Accepted? ==> forall s :: s in requests && !FailedRegistration(reply.failures, s) ==> s in present
      ensures reply.Accepted? ==> forall s :: s in requests && FailedRegistration(reply.failures, s) && s in present ==> s in old(present)
    {
      Settle();
      traffic := traffic + [Posted(requests)];
      var answered: bool := *;
      if answered || (calm && answersPosts) {
        var failures: seq<FailedSegment> := *;
        if calm {
          failures := [];
        }
        present := present + set s | s in requests && !FailedRegistration(failures, s);
        reply := Accepted(failures);
      } else {
        var committed: set<Segment> := *;
        present := present + set s | s in requests && (s in committed || calm);
        reply := NoReply;
      }
    }

    // A POST of a single Segment, which a service either creates or refuses.
    method PostOne(request: Segment) returns (created: bool)
      modifies this`present, this`traffic
      ensures traffic == old(traffic) + [Posted([request])]
      ensures calm ==> request in present
      ensures calm && answersPosts ==> created
      ensures forall s :: s in old(present) && s !in doomed ==> s in present
      ensures forall s :: s in present && s != request ==> s in old(present)
      ensures created ==> request in present
    {
      Settle();
      traffic := traffic + [Posted([request])];
      var committed: bool := *;
      committed := committed || calm;
      if committed {
        present := present + {request};
      }
      created := *;
      created := committed && (created || (calm && answersPosts));
    }

    method Delete(segment: Segment) returns (reply: DeleteReply)
      modifies this`present, this`doomed
      ensures old(doomed) <= doomed <= old(doomed) + {segment}
      ensures Shrinks(old(present), present, doomed)
      ensures calm ==> !reply.Refused? && segment !in present
    {
      reply := *;
      if calm && reply.Refused? {
        reply := Acknowledged;
      }
      var accepted: bool := *;
      if accepted || calm || reply.Acknowledged? || reply.Queued? {
        doomed := doomed + {segment};
      }
      Settle();
      if calm {
        present := present - {segment};
      }
    }

    method PollDeletion() returns (reply: PollReply)
      modifies this`present
      ensures Shrinks(old(present), present, doomed)
      ensures calm ==> reply.Completed?
    {
      Settle();
      reply := *;
      if calm {
        reply := Completed;
      }
    }

    // A presigned PUT of the file prepared for this Object, which may have changed since. Only a reported
    // storage digest says anything about the stored bytes.
    method Upload(o: PreparedObject) returns (reply: UploadReply)
      modifies this`content, this`traffic
      ensures forall other :: other != o.id ==> (other in content <==> other in old(content))
      ensures forall other :: other != o.id && other in content ==> content[other] == old(content)[other]
      ensures traffic == old(traffic) + if reply.Receipt? then [Sent(o.id, reply.sentSize, reply.sentSha256)] else []
      ensures reply.Receipt? && reply.storageSha256.Some? ==> o.id in content && content[o.id] == reply.storageSha256.value
      ensures calm ==> reply.Receipt? && reply.sentSize == o.size && reply.sentSha256 == o.sha256 && o.id in content && content[o.id] == o.sha256
    {
      var stored: string := *;
      var sentSize: nat := *;
      var sent: string := *;
      if calm {
        sentSize, sent, stored := o.size, o.sha256, o.sha256;
      }
      content := content[o.id := stored];
      var answered: bool := *;
      if answered || calm {
        var reports: bool := *;
        reply := Receipt(sentSize, sent, if reports then Some(stored) else None);
        traffic := traffic + [Sent(o.id, sentSize, sent)];
      } else {
        reply := UploadFailed;
      }
    }

    method DownloadDigest(id: string) returns (digest: Option<string>)
      ensures digest.Some? ==> id in content && content[id] == digest.value
      ensures calm && id in content ==> digest.Some?
    {
      var answered: bool := *;
      digest := if (answered || calm) && id in content then Some(content[id]) else None;
    }
  }
}
