/** Response bodies: short reads, dropped connections, and the reader that holds a ranged response to
    its declared length (internal/source/range.go:108-150). */
module ResponseBody {
  type Bytes = seq<bv8>

  datatype ReadStatus = More | End | Broken

  // One of the two is the beginning of the other.
  predicate Comparable(a: Bytes, b: Bytes) { a <= b || b <= a }

  lemma Agree(a: Bytes, b: Bytes, from: nat, to: nat)
    requires Comparable(a, b) && from <= to <= |a| && to <= |b|
    ensures a[from..to] == b[from..to]
  {
    assert a[..to] == b[..to];
    assert a[..to][from..] == a[from..to] && b[..to][from..] == b[from..to];
  }

  class Body {
    const wire: Bytes           // what arrives if the connection lives to its end
    const exact: bool
    ghost const promised: Bytes // what the response claims to carry
    var position: nat
    var remaining: int
    ghost var given: nat        // bytes handed to the reader

    ghost predicate Valid()
      reads this
    {
      && position <= |wire|
      && (exact ==> Comparable(wire, promised) && 0 <= remaining && remaining + given == |promised|)
      && (exact ==> position == given || (remaining == 0 && position > given))
      && (!exact ==> wire == promised && position == given)
      && given <= |promised|
    }

    // The full body of a response that claims nothing about its length.
    constructor Whole(bytes: Bytes)
      ensures Valid() && promised == bytes && given == 0 && !exact
    {
      wire, exact, promised, position, remaining, given := bytes, false, bytes, 0, 0, 0;
    }

    // A body that must carry exactly this many bytes.
    constructor Exactly(bytes: Bytes, length: nat, ghost claim: Bytes)
      requires Comparable(bytes, claim) && |claim| == length
      ensures Valid() && promised == claim && given == 0 && exact
    {
      wire, exact, promised, position, remaining, given := bytes, true, claim, 0, length, 0;
    }

    // The connection: any number of bytes, and possibly its end or its failure.
    method RawRead(limit: nat) returns (read: Bytes, status: ReadStatus)
      requires position <= |wire|
      modifies this`position
      ensures position <= |wire| && old(position) <= position <= old(position) + limit
      ensures read == wire[old(position)..position]
      ensures status == End ==> position == |wire|
    {
      var n: int := *;
      n := if 0 <= n <= limit && n <= |wire| - position then n else 0;
      read := wire[position..position + n];
      position, status := position + n, *;
      if status == End && position < |wire| {
        status := Broken;
      }
    }

    // One byte of read-ahead: true when the connection ended cleanly instead.
    method Probe() returns (extra: bool, ended: bool)
      requires position <= |wire|
      modifies this`position
      ensures position <= |wire| && position >= old(position)
      ensures ended ==> position == |wire| == old(position)
      ensures extra ==> position > old(position)
      ensures !extra ==> position == old(position)
    {
      var tries: nat := *;
      extra, ended := false, false;
      while tries > 0 && !extra && !ended
        invariant position <= |wire| && position >= old(position)
        invariant if extra then position > old(position) else position == old(position)
        invariant ended ==> !extra && position == |wire|
      {
        var read, status := RawRead(1);
        extra, ended, tries := |read| > 0, status == End && |read| == 0, tries - 1;
      }
    }

    /** Whatever arrives, the reader is handed the claimed bytes in order, and a clean end only
        after all of them. */
    method Read(limit: nat) returns (read: Bytes, status: ReadStatus)
      requires Valid() && limit > 0
      modifies this`position, this`remaining, this`given
      ensures Valid() && given == old(given) + |read| && |read| <= limit
      ensures read == promised[old(given)..given]
      ensures status == End ==> given == |promised|
    {
      if !exact {
        read, status := RawRead(limit);
        given := given + |read|;
        return;
      }
      if remaining == 0 {
        read, status := RawRead(1);
        return [], if |read| > 0 then Broken else status;
      }
      ghost var before := given;
      read, status := RawRead(if limit > remaining then remaining else limit);
      Agree(wire, promised, before, position);
      remaining, given := remaining - |read|, given + |read|;
      if status == End && remaining > 0 {
        status := Broken;
      } else if remaining == 0 && status == More {
        var extra, ended := Probe();
        status := if ended then End else Broken;
      }
    }
  }
}
