/** Random-access reads of one pinned representation (internal/source/bridge.go:98-209,
    internal/source/snapshot.go:99-131). The server answers a matching entity tag with true ranges of
    the pinned bytes; connections drop whenever they like. */
module PinnedReader {
  import opened Text
  import opened ByteRanges
  import opened ResponseBody

  // Sustained progress after a reconnect that proves the source is serving again.
  const RECONNECT_RESET_BYTES := 1048576

  datatype Whence = SeekStart | SeekCurrent | SeekEnd | OtherWhence

  datatype RangeResponse = RangeResponse(sameResource: bool, status: int, etag: string, encoded: bool, contentLength: int,
    contentRange: string, wire: Bytes)

  datatype ReadResult = Delivered(bytes: Bytes) | EndOfFile(bytes: Bytes) | Failure(bytes: Bytes)

  class Reader {
    const snapshot: Bytes
    const revision: string  // its strong entity tag
    const retries: nat
    const steady: bool      // nobody cancels, every range is served, and only connections drop
    var position: nat
    var body: Body?
    var attempt: nat
    var progress: nat
    ghost var reconnects: nat
    ghost var delivered: nat    // bytes handed out, seeks notwithstanding
    ghost var resets: nat

    ghost predicate Valid()
      reads this, body
    {
      && position <= |snapshot| && attempt <= retries && (attempt > 0 ==> progress < RECONNECT_RESET_BYTES)
      && (body != null ==> body.Valid() && body.given <= position && body.promised[body.given..] == snapshot[position..])
      && Budget() && Settled()
    }

    ghost predicate Settled() { steady ==> |snapshot| <= INT64_MAX }

    // Every block of retries was paid for with a megabyte of progress.
    ghost predicate Budget()
      reads this`attempt, this`progress, this`reconnects, this`delivered, this`resets
    {
      && reconnects <= retries * resets + attempt
      && RECONNECT_RESET_BYTES * resets + (if attempt > 0 then progress else 0) <= delivered
    }

    constructor (bytes: Bytes, etag: string, allowed: nat, steady: bool)
      requires steady ==> |bytes| <= INT64_MAX
      ensures Valid() && snapshot == bytes && retries == allowed && position == 0 && delivered == 0 && reconnects == 0 && this.steady == steady
    {
      snapshot, revision, retries, position, body, this.steady := bytes, etag, allowed, 0, null, steady;
      attempt, progress, reconnects, delivered, resets := 0, 0, 0, 0, 0;
    }

    predicate Honest(r: RangeResponse)
    {
      r.status == 206 && r.sameResource && r.etag == revision && ParseContentRange(r.contentRange).Some? ==>
        var range := ParseContentRange(r.contentRange).value;
        |snapshot| == range.total && Comparable(r.wire, snapshot[range.start..range.end + 1])
    }

    // A true range response for the rest of the bytes.
    function SteadyRange(offset: nat): RangeResponse
      requires offset < |snapshot|
    {
      RangeResponse(true, 206, revision, false, |snapshot| - offset, PrintRange(ContentRange(offset, |snapshot| - 1, |snapshot|)), snapshot[offset..])
    }

    method OpenAt(offset: nat) returns (opening: Body?)
      requires offset <= |snapshot| && Settled()
      ensures opening != null ==> fresh(opening) && opening.Valid() && opening.given == 0 && opening.promised == snapshot[offset..]
      ensures steady ==> opening != null
    {
      if offset == |snapshot| {
        opening := new Body.Whole([]);
        return;
      }
      var r: RangeResponse, failed: bool := *, *;
      if steady {
        r, failed := SteadyRange(offset), false;
        RangeRoundTrip(ContentRange(offset, |snapshot| - 1, |snapshot|));
        CompleteRangeAccepted(offset, |snapshot|, |snapshot|, r.contentLength);
        assert snapshot[offset..|snapshot|] == snapshot[offset..];
      }
      if failed || !Honest(r) || !r.sameResource || r.status != 206 || r.etag != revision || r.encoded {
        return null;
      }
      var range := ValidateCompleteRange(r.contentRange, offset, |snapshot|, r.contentLength);
      if range.None? {
        return null;
      }
      assert snapshot[offset..range.value.end + 1] == snapshot[offset..];
      opening := new Body.Exactly(r.wire, |snapshot| - offset, snapshot[offset..]);
    }

    // Moves only inside the representation, and drops the connection only when it moves.
    method Seek(offset: int, whence: Whence) returns (at: Option<nat>)
      requires Valid()
      modifies this`position, this`body
      ensures Valid()
      ensures var target := if whence == SeekStart then offset else if whence == SeekCurrent then offset + old(position) else offset + |snapshot|;
        if whence == OtherWhence || target < 0 || target > |snapshot| then at == None && position == old(position)
        else at == Some(target) && position == target
    {
      if whence == OtherWhence {
        return None;
      }
      var target := match whence
        case SeekStart => offset
        case SeekCurrent => offset + position
        case _ => offset + |snapshot|;
      if target < 0 || target > |snapshot| {
        return None;
      }
      if target != position {
        position, body := target, null;
      }
      return Some(target);
    }

    /** Whatever the connections do, the bytes handed out are the snapshot's at the position, and the
        end of the file is reported only there. Every reconnect spends an attempt, and where only
        connections drop nothing fails before the attempts are spent. */
    method Read(limit: nat) returns (result: ReadResult)
      requires Valid() && limit > 0
      modifies this, body
      ensures Valid() && |result.bytes| <= limit
      ensures position == old(position) + |result.bytes| && result.bytes == snapshot[old(position)..position]
      ensures delivered == old(delivered) + |result.bytes|
      ensures result.EndOfFile? ==> position == |snapshot|
      ensures steady && result.Failure? ==> attempt == retries || position == |snapshot|
    {
      while true
        invariant Valid() && position == old(position) && delivered == old(delivered)
        invariant body == old(body) || body == null || fresh(body)
        decreases retries - attempt
      {
        var cancelled: bool := *;
        if cancelled && !steady {
          return Failure([]);
        }
        var connected := EnsureBody();
        if !connected {
          return Failure([]);
        }
        var bytes, status := Advance(limit);
        if status == More {
          return Delivered(bytes);
        }
        if status == End {
          return EndOfFile(bytes);
        }
        var retryable := *;
        if (retryable || steady) && position < |snapshot| && attempt < retries {
          Reconnect();
          if |bytes| > 0 {
            return Delivered(bytes);
          }
        } else {
          return Failure(bytes);
        }
      }
    }

    method EnsureBody() returns (connected: bool)
      requires Valid()
      modifies this`body
      ensures Valid() && connected == (body != null) && (steady ==> connected)
      ensures body == old(body) || fresh(body)
    {
      if body == null {
        body := OpenAt(position);
      }
      return body != null;
    }

    method Advance(limit: nat) returns (bytes: Bytes, status: ReadStatus)
      requires Valid() && body != null && limit > 0
      modifies this`position, this`progress, this`attempt, this`delivered, this`resets, body
      ensures Valid() && |bytes| <= limit && body == old(body) && attempt <= old(attempt)
      ensures position == old(position) + |bytes| && bytes == snapshot[old(position)..position]
      ensures delivered == old(delivered) + |bytes|
      ensures bytes == [] ==> attempt == old(attempt)
      ensures status == End ==> position == |snapshot|
    {
      bytes, status := body.Read(limit);
      Follow(body.promised, old(body.given), body.given, position);
      position, progress, delivered := position + |bytes|, progress + |bytes|, delivered + |bytes|;
      if attempt > 0 && progress >= RECONNECT_RESET_BYTES {
        AnotherBlock(retries, resets, attempt);
        attempt, resets := 0, resets + 1;
      }
    }

    lemma Follow(promised: Bytes, before: nat, after: nat, at: nat)
      requires before <= after <= |promised| && at <= |snapshot| && promised[before..] == snapshot[at..]
      ensures promised[before..after] == snapshot[at..at + (after - before)] && promised[after..] == snapshot[at + (after - before)..]
    {
      var n := after - before;
      assert promised[before..][..n] == promised[before..after] && promised[before..][n..] == promised[after..];
      assert snapshot[at..][..n] == snapshot[at..at + n] && snapshot[at..][n..] == snapshot[at + n..];
    }

    method Reconnect()
      requires Valid() && attempt < retries
      modifies this`body, this`attempt, this`progress, this`reconnects
      ensures Valid() && body == null && attempt == old(attempt) + 1 && reconnects == old(reconnects) + 1
    {
      body, attempt, progress, reconnects := null, attempt + 1, 0, reconnects + 1;
    }

    /** However many bytes a reader has handed out, it reconnected at most retries times per started
        megabyte. */
    lemma ReconnectsBounded()
      requires Valid()
      ensures reconnects <= retries * (1 + delivered / 1048576)
    {
      assert resets <= delivered / RECONNECT_RESET_BYTES;
      Monotone(retries, resets, delivered / RECONNECT_RESET_BYTES);
    }
  }

  lemma AnotherBlock(retries: nat, resets: nat, attempt: nat)
    requires attempt <= retries
    ensures retries * resets + attempt <= retries * (resets + 1)
  {
  }

  lemma Monotone(a: nat, b: nat, c: nat)
    requires b <= c
    ensures a * b <= a * c
  {
  }
}
