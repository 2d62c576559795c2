/** Reopening an HTTP or S3 input at an offset (the get closures of internal/source/resolver.go:395-529
    and internal/source/resolver.go:745-859). The server is arbitrary except that an equal strong
    entity tag, ETag or version names equal bytes (section 8.8.1 of RFC 9110), that it honours
    If-Range and If-Match (sections 13.1.5 and 13.1.1), that the ranges and lengths it states are
    true, and that a full body ends cleanly only at its end. */
module HttpSource {
  import opened Text
  import opened ByteRanges
  import opened ResponseBody

  datatype Opened = Failed | Opened(body: Body, continuing: bool)

  // A request for the whole resource, or for the bytes from an offset under If-Range.
  datatype Request = Whole | From(offset: nat, ifRange: string)

  datatype Response =
    | NoResponse
    | Response(status: int, encoded: bool, etag: string, contentLength: int, contentRange: string, wire: Bytes)

  /** In a steady environment the server always answers, serves ranges, and holds one representation
      throughout, with a strong tag. */
  class HttpItem {
    const bytesOf: string -> Bytes // what each strong tag stands for, at any time
    const steady: bool
    const resource: Bytes
    const tag: string
    var validator: string
    var totalSize: int
    ghost var current: Bytes // the representation the last full body came from

    ghost predicate Valid()
      reads this
    {
      && (validator != "" ==> current == bytesOf(validator))
      && (totalSize >= 0 ==> totalSize == |current|)
      && Settled() && (steady ==> validator == "" || Tracks())
    }

    ghost predicate Settled() { steady ==> IsStrong(tag) && bytesOf(tag) == resource && |resource| <= INT64_MAX }

    // The one representation of a steady server has been recorded.
    predicate Tracks()
      reads this`validator, this`totalSize
    {
      steady && validator == tag && tag != "" && totalSize == |resource|
    }

    constructor (tags: string -> Bytes, steady: bool, resource: Bytes, tag: string)
      requires steady ==> IsStrong(tag) && tags(tag) == resource && |resource| <= INT64_MAX
      ensures Valid() && bytesOf == tags && this.steady == steady && this.resource == resource && this.tag == tag
    {
      bytesOf, validator, totalSize, current := tags, "", -1, [];
      this.steady, this.resource, this.tag := steady, resource, tag;
    }

    // What a conforming server may answer.
    predicate Honest(request: Request, r: Response)
      reads this
    {
      r.Response? ==>
        && (200 <= r.status < 300 && r.status != 206 ==>
          (IsStrong(r.etag) ==> r.wire == bytesOf(r.etag)) && (r.contentLength >= 0 ==> r.contentLength == |r.wire|))
        && (r.status == 206 && request.From? && ParseContentRange(r.contentRange).Some? ==>
          var range := ParseContentRange(r.contentRange).value;
          |bytesOf(request.ifRange)| == range.total && Comparable(r.wire, bytesOf(request.ifRange)[range.start..range.end + 1]))
    }

    // The answers of a steady server.
    function SteadyReply(request: Request): Response {
      if request.From? && request.ifRange == tag then
        if request.offset < |resource| then
          Response(206, false, tag, |resource| - request.offset,
            PrintRange(ContentRange(request.offset, |resource| - 1, |resource|)), resource[request.offset..])
        else Response(416, false, "", -1, PrintUnsatisfied(|resource|), [])
      else Response(200, false, tag, |resource|, "", resource)
    }

    lemma SteadyHonest(request: Request)
      requires Settled() && steady
      ensures Honest(request, SteadyReply(request))
    {
      if request.From? && request.ifRange == tag && request.offset < |resource| {
        RangeRoundTrip(ContentRange(request.offset, |resource| - 1, |resource|));
        assert resource[request.offset..|resource|] == resource[request.offset..];
      }
    }

    method Exchange(request: Request) returns (r: Response)
      requires Settled()
      ensures Honest(request, r) && (steady ==> r == SteadyReply(request))
    {
      r := *;
      if steady {
        SteadyHonest(request);
        r := SteadyReply(request);
      } else if !Honest(request, r) {
        r := NoResponse;
      }
    }

    method RecordRepresentation(r: Response)
      requires r.Response? && 200 <= r.status < 300 && r.status != 206 && Honest(Whole, r)
      requires Settled() && (steady ==> r == SteadyReply(Whole))
      modifies this
      ensures Valid() && current == r.wire && (steady ==> Tracks() && current == resource)
      ensures validator == (if IsStrong(r.etag) then r.etag else "") && totalSize == r.contentLength
    {
      StrongExactly(r.etag);
      validator, totalSize := if ValidStrongETag(r.etag) then r.etag else "", r.contentLength;
      current := r.wire;
    }

    // An accepted partial response is the rest of the recorded representation.
    method Continue(offset: nat, r: Response) returns (reply: Opened)
      requires Valid() && validator != "" && offset > 0
      requires r.Response? && r.status == 206 && Honest(From(offset, validator), r) && (steady ==> r == SteadyReply(From(offset, validator)))
      modifies this
      ensures Valid() && current == old(current) && (reply.Opened? ==> reply.continuing)
      ensures reply.Opened? ==> fresh(reply.body) && reply.body.Valid() && reply.body.given == 0
      ensures reply.Opened? ==> offset <= |current| && reply.body.promised == current[offset..]
      ensures steady ==> reply.Opened? && Tracks()
    {
      if steady {
        CompleteRangeAccepted(offset, |resource|, totalSize, r.contentLength);
      }
      var range := ValidateCompleteRange(r.contentRange, offset, totalSize, r.contentLength);
      if range.None? || (r.etag != "" && r.etag != validator) {
        return Failed;
      }
      if totalSize < 0 {
        totalSize := range.value.total;
      }
      assert current[offset..range.value.end + 1] == current[offset..];
      var body := new Body.Exactly(r.wire, range.value.Span(), current[offset..]);
      return Opened(body, true);
    }

    /** Continuing means: the body is what is left, after the offset, of the representation already
        recorded (or anything at all from offset zero). Otherwise it is a whole new one. */
    method Get(offset: nat) returns (reply: Opened)
      requires Valid()
      modifies this
      ensures Valid()
      ensures reply.Opened? ==> fresh(reply.body) && reply.body.Valid() && reply.body.given == 0
      ensures reply.Opened? && reply.continuing && offset > 0 ==>
        current == old(current) && offset <= |current| && reply.body.promised == current[offset..]
      ensures reply.Opened? && (!reply.continuing || offset == 0) ==> reply.body.promised == current
      ensures offset == 0 && reply.Opened? ==> reply.continuing
      ensures steady ==> reply.Opened? && Tracks() && current == resource
      ensures old(Tracks()) && offset <= |resource| ==> reply.continuing
      decreases offset
    {
      var knownValidator, knownTotal := validator, totalSize;
      var ranged := offset > 0 && knownValidator != "";
      var request := if ranged then From(offset, knownValidator) else Whole;
      var r := Exchange(request);
      if r.NoResponse? || r.encoded {
        return Failed;
      }
      if ranged && r.status == 206 {
        reply := Continue(offset, r);
        return;
      }
      if ranged && r.status == 416 {
        UnsatisfiedRoundTrip(|resource|);
        var total := ParseUnsatisfied(r.contentRange);
        if total.Some? && knownTotal >= 0 && offset == knownTotal && total.value == knownTotal {
          var body := new Body.Whole([]);
          return Opened(body, true);
        }
        var restarted := Get(0);
        return if restarted.Opened? then Opened(restarted.body, false) else Failed;
      }
      if r.status < 200 || r.status >= 300 || r.status == 206 {
        return Failed;
      }
      RecordRepresentation(r);
      var body := new Body.Whole(r.wire);
      return Opened(body, offset == 0);
    }
  }

  datatype S3Error = NotAnError | PreconditionFailed | RangeRejected(contentRange: string) | OtherError

  // Empty strings stand for headers the store did not send.
  datatype S3Response = S3Response(error: S3Error, etag: string, version: string, contentLength: int, contentRange: string, wire: Bytes)

  datatype S3Request = S3Whole | S3From(offset: nat, ifMatch: string, version: string)

  // In a steady environment the store always answers and the object never changes.
  class S3Item {
    const bytesOfTag: string -> Bytes
    const bytesOfVersion: string -> Bytes
    const steady: bool
    const resource: Bytes
    const tag: string
    const version: string
    var etag: string
    var versionID: string
    var totalSize: int
    ghost var current: Bytes

    ghost predicate Valid()
      reads this
    {
      && (etag != "" ==> current == bytesOfTag(etag)) && (versionID != "" ==> current == bytesOfVersion(versionID))
      && (totalSize >= 0 ==> totalSize == |current|)
      && Settled() && (steady ==> (etag == "" && versionID == "") || Tracks())
    }

    ghost predicate Settled() {
      steady ==> tag != "" && bytesOfTag(tag) == resource && (version != "" ==> bytesOfVersion(version) == resource) && |resource| <= INT64_MAX
    }

    // The one object of a steady store has been recorded.
    predicate Tracks()
      reads this`etag, this`versionID, this`totalSize
    {
      steady && etag == tag && tag != "" && versionID == version && totalSize == |resource|
    }

    constructor (tags: string -> Bytes, versions: string -> Bytes, steady: bool, resource: Bytes, tag: string, version: string)
      requires steady ==> tag != "" && tags(tag) == resource && (version != "" ==> versions(version) == resource) && |resource| <= INT64_MAX
      ensures Valid() && bytesOfTag == tags && bytesOfVersion == versions
      ensures this.steady == steady && this.resource == resource && this.tag == tag && this.version == version
    {
      bytesOfTag, bytesOfVersion := tags, versions;
      etag, versionID, totalSize, current := "", "", -1, [];
      this.steady, this.resource, this.tag, this.version := steady, resource, tag, version;
    }

    // The object a pinned request names.
    function Pinned(request: S3Request): Bytes
      requires request.S3From?
      reads this
    {
      if request.ifMatch != "" then bytesOfTag(request.ifMatch) else bytesOfVersion(request.version)
    }

    predicate Honest(request: S3Request, r: S3Response)
      reads this
    {
      r.error == NotAnError ==>
        match request
        case S3Whole =>
          && (r.etag != "" ==> r.wire == bytesOfTag(r.etag)) && (r.version != "" ==> r.wire == bytesOfVersion(r.version))
          && (r.contentLength >= 0 ==> r.contentLength == |r.wire|)
        case S3From(_, _, _) =>
          ParseContentRange(r.contentRange).Some? ==>
            var range := ParseContentRange(r.contentRange).value;
            |Pinned(request)| == range.total && Comparable(r.wire, Pinned(request)[range.start..range.end + 1])
    }

    // The answers of a steady store.
    function SteadyObject(request: S3Request): S3Response {
      if request.S3From? && request.offset < |resource| then
        S3Response(NotAnError, tag, version, |resource| - request.offset,
          PrintRange(ContentRange(request.offset, |resource| - 1, |resource|)), resource[request.offset..])
      else if request.S3From? then S3Response(RangeRejected(PrintUnsatisfied(|resource|)), "", "", -1, "", [])
      else S3Response(NotAnError, tag, version, |resource|, "", resource)
    }

    lemma SteadyHonest(request: S3Request)
      requires Settled() && steady && (request.S3From? ==> request.ifMatch == tag)
      ensures Honest(request, SteadyObject(request))
    {
      if request.S3From? && request.offset < |resource| {
        RangeRoundTrip(ContentRange(request.offset, |resource| - 1, |resource|));
        assert resource[request.offset..|resource|] == resource[request.offset..];
      }
    }

    method GetObject(request: S3Request) returns (r: S3Response)
      requires Settled() && (steady && request.S3From? ==> request.ifMatch == tag)
      ensures Honest(request, r) && (steady ==> r == SteadyObject(request))
    {
      r := *;
      if steady {
        SteadyHonest(request);
        r := SteadyObject(request);
      } else if !Honest(request, r) {
        r := S3Response(OtherError, "", "", -1, "", []);
      }
    }

    // A whole reply becomes the object that later requests pin.
    method RecordObject(r: S3Response)
      requires r.error == NotAnError && Honest(S3Whole, r) && Settled() && (steady ==> r == SteadyObject(S3Whole))
      modifies this
      ensures Valid() && current == r.wire && etag == r.etag && versionID == r.version && (steady ==> Tracks() && current == resource)
    {
      etag, versionID, totalSize := r.etag, r.version, if r.contentLength >= 0 then r.contentLength else -1;
      current := r.wire;
    }

    method Get(offset: nat) returns (reply: Opened)
      requires Valid()
      modifies this
      ensures Valid()
      ensures reply.Opened? ==> fresh(reply.body) && reply.body.Valid() && reply.body.given == 0
      ensures reply.Opened? && reply.continuing && offset > 0 ==>
        current == old(current) && offset <= |current| && reply.body.promised == current[offset..]
      ensures reply.Opened? && (!reply.continuing || offset == 0) ==> reply.body.promised == current
      ensures offset == 0 && reply.Opened? ==> reply.continuing
      ensures steady ==> reply.Opened? && Tracks() && current == resource
      ensures old(Tracks()) && offset <= |resource| ==> reply.continuing
      decreases offset
    {
      var knownETag, knownVersion, knownTotal := etag, versionID, totalSize;
      var ranged := offset > 0 && (knownETag != "" || knownVersion != "");
      var request := if ranged then S3From(offset, knownETag, knownVersion) else S3Whole;
      var r := GetObject(request);
      if r.error != NotAnError {
        if !ranged || r.error == OtherError {
          return Failed;
        }
        if r.error.RangeRejected? {
          UnsatisfiedRoundTrip(|resource|);
          var total := ParseUnsatisfied(r.error.contentRange);
          if total.Some? && knownTotal >= 0 && offset == knownTotal && total.value == knownTotal {
            var nothing := new Body.Whole([]);
            return Opened(nothing, true);
          }
        }
        var restarted := Get(0);
        return if restarted.Opened? then Opened(restarted.body, false) else Failed;
      }
      if !ranged {
        RecordObject(r);
        var whole := new Body.Whole(r.wire);
        return Opened(whole, offset == 0);
      }
      reply := Continue(offset, request, r);
    }

    lemma SteadyAccepted(offset: nat, request: S3Request, r: S3Response)
      requires Tracks() && Settled() && request == S3From(offset, etag, versionID) && r == SteadyObject(request) && r.error == NotAnError
      ensures ValidateCompleteRange(r.contentRange, offset, totalSize, r.contentLength).Some? && r.etag == etag
    {
      CompleteRangeAccepted(offset, |resource|, totalSize, r.contentLength);
    }

    // The claim of an accepted range.
    lemma RestClaimed(offset: nat, request: S3Request, r: S3Response, range: ContentRange)
      requires Valid() && (etag != "" || versionID != "") && request == S3From(offset, etag, versionID)
      requires r.error == NotAnError && Honest(request, r)
      requires ValidateCompleteRange(r.contentRange, offset, totalSize, r.contentLength) == Some(range)
      ensures offset <= |current| == range.total && Comparable(r.wire, current[offset..]) && |current[offset..]| == range.Span()
    {
      assert current[offset..range.end + 1] == current[offset..];
    }

    // An accepted range reply is the rest of the recorded object.
    method Continue(offset: nat, request: S3Request, r: S3Response) returns (reply: Opened)
      requires Valid() && (etag != "" || versionID != "") && request == S3From(offset, etag, versionID)
      requires r.error == NotAnError && Honest(request, r) && (steady ==> r == SteadyObject(request))
      modifies this
      ensures Valid() && current == old(current) && (reply.Opened? ==> reply.continuing)
      ensures steady ==> reply.Opened? && Tracks()
      ensures reply.Opened? ==> fresh(reply.body) && reply.body.Valid() && reply.body.given == 0
      ensures reply.Opened? ==> offset <= |current| && reply.body.promised == current[offset..]
    {
      if steady {
        SteadyAccepted(offset, request, r);
      }
      var range := ValidateCompleteRange(r.contentRange, offset, totalSize, r.contentLength);
      if range.None? || (r.etag != "" && etag != "" && r.etag != etag) {
        return Failed;
      }
      RestClaimed(offset, request, r, range.value);
      if totalSize < 0 {
        totalSize := range.value.total;
      }
      var body := new Body.Exactly(r.wire, range.value.Span(), current[offset..]);
      return Opened(body, true);
    }
  }
}
