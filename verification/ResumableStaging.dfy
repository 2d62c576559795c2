/** Staging a remote input across dropped connections (internal/ingest/stage.go:52-162,
    internal/ingest/pipeline.go:1373-1421, internal/ingest/staging_capacity.go:445-459). File, digest, byte
    count and lease move together; SHA-256 is represented by the bytes it has absorbed. */
module ResumableStaging {
  import opened ResponseBody
  import opened HttpSource

  // The lease as staging sees it: bytes in use, and a budget that may refuse more.
  class Lease {
    const granting: bool    // never refuses
    var used: int

    constructor (held: nat, granting: bool)
      ensures used == held && this.granting == granting
    {
      this.granting, used := granting, held;
    }

    method Add(bytes: nat) returns (granted: bool)
      modifies this
      ensures used == old(used) + if granted then bytes else 0
      ensures bytes == 0 || granting ==> granted
    {
      granted := *;
      granted := granted || bytes == 0 || granting;
      if granted {
        used := used + bytes;
      }
    }

    method Subtract(bytes: int)
      modifies this
      ensures used == if bytes <= 0 then old(used) else if old(used) < bytes then 0 else old(used) - bytes
    {
      if bytes > 0 {
        used := if used < bytes then 0 else used - bytes;
      }
    }
  }

  datatype CopyEnd = Done | SourceError | DestinationError | Cancelled

  method OpenOnce(bytes: Bytes) returns (reply: Opened)
    ensures reply.Opened? && fresh(reply.body) && reply.body.Valid() && reply.body.given == 0 && reply.body.promised == bytes
  {
    var body := new Body.Whole(bytes);
    reply := Opened(body, true);
  }

  datatype Source =
    | Http(http: HttpItem)
    | S3(s3: S3Item)
    | Once(bytes: Bytes) // no way to reopen, such as a pipe
  {
    function Repr(): set<object> {
      match this
      case Http(item) => {item}
      case S3(item) => {item}
      case Once(_) => {}
    }

    ghost predicate Valid()
      reads Repr()
    {
      match this
      case Http(item) => item.Valid()
      case S3(item) => item.Valid()
      case Once(_) => true
    }

    // A source that keeps answering, with one representation that it has recorded.
    predicate Tracks()
      reads Repr()
    {
      match this
      case Http(item) => item.Tracks()
      case S3(item) => item.Tracks()
      case Once(_) => false
    }

    predicate Steady() {
      match this
      case Http(item) => item.steady
      case S3(item) => item.steady
      case Once(_) => false
    }

    // The one representation whose bytes may be in the file.
    ghost function Current(): Bytes
      reads Repr()
    {
      match this
      case Http(item) => item.current
      case S3(item) => item.current
      case Once(bytes) => bytes
    }

    method Open() returns (reply: Opened)
      requires Valid()
      modifies Repr()
      ensures Valid()
      ensures reply.Opened? ==> fresh(reply.body) && reply.body.Valid() && reply.body.given == 0 && reply.body.promised == Current()
      ensures Steady() ==> reply.Opened? && Tracks()
    {
      match this
      case Http(item) => reply := item.Get(0);
      case S3(item) => reply := item.Get(0);
      case Once(bytes) =>
        reply := OpenOnce(bytes);
    }

    method Reopen(offset: nat) returns (reply: Opened)
      requires Valid() && !Once?
      modifies Repr()
      ensures Valid()
      ensures reply.Opened? ==> fresh(reply.body) && reply.body.Valid() && reply.body.given == 0
      ensures reply.Opened? && reply.continuing && offset > 0 ==>
        Current() == old(Current()) && offset <= |Current()| && reply.body.promised == Current()[offset..]
      ensures reply.Opened? && (!reply.continuing || offset == 0) ==> reply.body.promised == Current()
      ensures reply.Opened? && offset == 0 ==> reply.continuing
      ensures old(Tracks()) && offset <= |old(Current())| ==> reply.Opened? && reply.continuing && Tracks() && Current() == old(Current())
    {
      match this
      case Http(item) => reply := item.Get(offset);
      case S3(item) => reply := item.Get(offset);
    }
  }

  // Not after success, on a source that cannot be reopened, past the allowance, or when writing failed.
  predicate WorthResuming(end: CopyEnd, canReopen: bool, attempt: nat, retries: nat) {
    end != Done && canReopen && attempt < retries && end != DestinationError
  }

  // Some more of the bytes that come next.
  lemma PrefixGrows(all: Bytes, from: nat, next: Bytes, n: nat)
    requires from + |next| <= |all| && next == all[from..from + |next|] && n <= |next|
    ensures all[..from] + next[..n] == all[..from + n]
  {
    assert next[..n] == all[from..from + n];
  }

  datatype Outcome = Staged(file: Bytes, size: nat, hashed: Bytes) | Refused

  class Staging {
    const lease: Lease
    const sound: bool       // the file takes every write
    ghost const base: int   // what the lease counted before
    var file: Bytes
    var hashed: Bytes
    var size: nat
    var stagedBytes: nat

    constructor (l: Lease, sound: bool)
      ensures lease == l && this.sound == sound && base == l.used && file == [] && hashed == [] && size == 0 && stagedBytes == 0
    {
      lease, base, file, hashed, size, stagedBytes := l, l.used, [], [], 0, 0;
      this.sound := sound;
    }

    // Nothing refuses the bytes.
    predicate Willing() { sound && lease.granting }

    // Everything moves together; the digest may trail only after a failed write.
    ghost predicate Counted()
      reads this, lease
    {
      base >= 0 && size == stagedBytes == |file| && lease.used == base + size
    }

    // io.MultiWriter over the counting writer and the digest.
    method Write(data: Bytes) returns (written: nat, ok: bool)
      modifies this`file, this`hashed, lease
      requires base >= 0 && lease.used == base + |file|
      ensures written <= |data| && file == old(file) + data[..written] && lease.used == base + |file|
      ensures ok ==> written == |data| && hashed == old(hashed) + data
      ensures Willing() ==> ok
    {
      ok := lease.Add(|data|);
      if !ok {
        return 0, false;
      }
      var n: int := *;
      written := if 0 <= n <= |data| && !sound then n else |data|;
      file := file + data[..written];
      if written < |data| {
        lease.Subtract(|data| - written);
      }
      ok := *;
      ok := (ok || sound) && written == |data|;
      if ok {
        assert data[..written] == data;
        hashed := hashed + data;
      }
    }

    /** Copies until the body ends, fails, or cannot be written: whatever happens, what the file gained
        is the next bytes of the body, all of them on success. */
    method Copy(input: Body) returns (written: nat, end: CopyEnd)
      requires input.Valid() && input.given == 0 && hashed == file && base >= 0 && lease.used == base + |file|
      modifies this`file, this`hashed, lease, input
      ensures input.Valid() && written <= |input.promised| && file == old(file) + input.promised[..written]
      ensures lease.used == base + |file|
      ensures end != DestinationError ==> hashed == file
      ensures end == Done ==> written == |input.promised|
      ensures Willing() ==> end != DestinationError
    {
      written := 0;
      var patience: nat := *;  // how long until the run is cancelled
      while true
        invariant input.Valid() && written == input.given && file == old(file) + input.promised[..written]
        invariant hashed == file && lease.used == base + |file|
        decreases patience
      {
        if patience == 0 {
          return written, Cancelled;
        }
        patience := patience - 1;
        var data, status := input.Read(131072);
        if |data| > 0 {
          ghost var before := written;
          var n, ok := Write(data);
          written := written + n;
          PrefixGrows(input.promised, before, data, n);
          if !ok {
            return written, DestinationError;
          }
          assert data[..n] == data;
        }
        if status == End {
          assert input.promised[..written] == input.promised;
          return written, Done;
        }
        if status == Broken {
          return written, SourceError;
        }
      }
    }

    // Truncate, reset the digest, give the bytes back: or nothing, when the file refuses.
    method Restart() returns (ok: bool)
      requires Counted()
      modifies this, lease
      ensures Counted()
      ensures if ok then file == [] && hashed == [] else file == old(file) && hashed == old(hashed)
      ensures sound ==> ok
    {
      ok := *;
      ok := ok || sound;
      if ok {
        lease.Subtract(size);
        file, hashed, size, stagedBytes := [], [], 0, 0;
      }
    }

    method Cleanup()
      requires Counted()
      modifies this, lease
      ensures lease.used == base && stagedBytes == 0 && file == []
    {
      file := [];
      lease.Subtract(stagedBytes);
      stagedBytes := 0;
    }

    /** On success the file is one whole representation the server sent, the digest absorbed exactly
        the file, and the lease counts exactly its bytes; on failure nothing stays counted. At most
        retries + 1 bodies are read; and a steady source whose bytes nothing refuses is given up only when
        cancelled, when every attempt was dropped, or when it is not of the size announced. */
    method Stage(source: Source, itemSize: int, retries: nat) returns (result: Outcome, attempts: nat, ghost end: CopyEnd)
      requires source.Valid() && lease !in source.Repr() && this !in source.Repr()
      requires base >= 0 && lease.used == base && file == [] && hashed == [] && size == 0 && stagedBytes == 0
      modifies this, lease, source.Repr()
      ensures result.Staged? ==> result.file == source.Current() == result.hashed && result.size == |result.file|
      ensures result.Staged? ==> file == result.file && lease.used == base + result.size && (itemSize >= 0 ==> result.size == itemSize)
      ensures result.Refused? ==> lease.used == base
      ensures attempts <= retries + 1
      ensures source.Steady() && Willing() && result.Refused? ==>
        end == Cancelled || attempts == retries + 1 || (itemSize >= 0 && itemSize != |source.Current()|)
    {
      attempts, end := 0, SourceError;
      var reply := source.Open();
      if reply.Failed? {
        return Refused, attempts, end;
      }
      var ended;
      ended, attempts := CopyAll(source, reply.body, retries);
      end := ended;
      var closed := *;
      closed := closed || sound;
      if ended != Done || !closed || (itemSize >= 0 && size != itemSize) {
        Cleanup();
        return Refused, attempts, end;
      }
      result := Staged(file, size, hashed);
    }

    // The resume loop.
    method CopyAll(source: Source, first: Body, retries: nat) returns (end: CopyEnd, attempts: nat)
      requires source.Valid() && lease !in source.Repr() && this !in source.Repr()
      requires Counted() && file == [] && hashed == []
      requires first.Valid() && first.given == 0 && first.promised == source.Current()
      modifies this, lease, first, source.Repr()
      ensures source.Valid() && Counted() && attempts <= retries + 1
      ensures end == Done ==> hashed == file == source.Current()
      ensures old(source.Tracks()) && Willing() ==> end == Done || end == Cancelled || attempts == retries + 1
    {
      var input, attempt := first, 0;
      while true
        invariant old(source.Tracks()) ==> source.Tracks()
        invariant source.Valid() && Counted() && attempt <= retries
        invariant hashed == file && size <= |source.Current()| && file == source.Current()[..size]
        invariant input.Valid() && input.given == 0 && input.promised == source.Current()[size..]
        invariant input == first || fresh(input)
        decreases retries - attempt
      {
        attempts := attempt + 1;
        end := CopyOnce(source, input);
        if end == Done || end == Cancelled || !WorthResuming(end, !source.Once?, attempt, retries) {
          return;
        }
        var reply := source.Reopen(size);
        if reply.Failed? {
          return;
        }
        if !reply.continuing {
          var ok := Restart();
          if !ok {
            return;
          }
        }
        input, attempt := reply.body, attempt + 1;
      }
    }

    method CopyOnce(source: Source, input: Body) returns (end: CopyEnd)
      requires source.Valid() && lease !in source.Repr() && this !in source.Repr()
      requires Counted() && hashed == file && size <= |source.Current()| && file == source.Current()[..size]
      requires input.Valid() && input.given == 0 && input.promised == source.Current()[size..]
      modifies this, lease, input
      ensures Counted() && size <= |source.Current()| && file == source.Current()[..size]
      ensures end != DestinationError ==> hashed == file
      ensures end == Done ==> file == source.Current()
      ensures Willing() ==> end != DestinationError
    {
      var written: nat;
      written, end := Copy(input);
      PrefixGrows(source.Current(), size, source.Current()[size..], written);
      size, stagedBytes := size + written, size + written;
    }
  }
}
