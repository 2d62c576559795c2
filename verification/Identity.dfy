/** The byte strings identifiers are derived from (internal/ingest/identity.go:69-86,
    internal/ingest/pipeline.go:1543-1546). Two inputs share an identifier only if the hash collides, because
    the framing is injective. */
module Identity {
  import opened Text

  newtype Byte = b: int | 0 <= b < 256
  type Bytes = seq<Byte>

  // ---------- Unsigned varints ----------

  function Uvarint(x: nat): (r: Bytes)
    ensures r != []
  {
    if x < 128 then [x as Byte] else [(x % 128 + 128) as Byte] + Uvarint(x / 128)
  }

  // The number in groups of seven bits, the lowest first.
  ghost function Groups(bytes: Bytes): nat {
    if bytes == [] then 0 else bytes[0] as int % 128 + 128 * Groups(bytes[1..])
  }

  // All bytes but the last carry the continuation bit, and there is no group more than needed.
  ghost predicate Minimal(bytes: Bytes) {
    && bytes != [] && (|bytes| > 1 ==> bytes[|bytes| - 1] != 0)
    && forall k :: 0 <= k < |bytes| ==> (bytes[k] >= 128 <==> k < |bytes| - 1)
  }

  /** A number has one varint, the shortest text of its groups. */
  lemma {:induction false} UvarintExactly(x: nat, bytes: Bytes)
    ensures bytes == Uvarint(x) <==> Minimal(bytes) && Groups(bytes) == x
  {
    if bytes != [] {
      var rest := bytes[1..];
      if rest != [] {
        UvarintExactly(x / 128, rest);
        assert bytes == [bytes[0]] + rest;
        if x >= 128 {
          MinimalRest(bytes);
          assert bytes == Uvarint(x) <==> bytes[0] as int == x % 128 + 128 && rest == Uvarint(x / 128);
        } else if Minimal(bytes) {
          MinimalRest(bytes);
          MinimalPositive(rest);
        }
      }
    }
  }

  lemma {:induction false} MinimalRest(bytes: Bytes)
    requires |bytes| > 1
    ensures Minimal(bytes) <==> bytes[0] >= 128 && Minimal(bytes[1..]) && bytes[|bytes| - 1] != 0
  {
    if bytes[0] >= 128 && Minimal(bytes[1..]) && bytes[|bytes| - 1] != 0 {
      forall k | 0 <= k < |bytes| ensures bytes[k] >= 128 <==> k < |bytes| - 1 {
        assert k > 0 ==> bytes[1..][k - 1] == bytes[k];
      }
    }
  }

  lemma {:induction false} MinimalPositive(bytes: Bytes)
    requires Minimal(bytes) && bytes[|bytes| - 1] != 0
    ensures Groups(bytes) > 0
  {
    if |bytes| > 1 {
      MinimalRest(bytes);
      MinimalPositive(bytes[1..]);
    }
  }

  // binary.AppendUvarint.
  method AppendUvarint(buffer: Bytes, value: nat) returns (longer: Bytes)
    ensures longer == buffer + Uvarint(value)
  {
    longer := buffer;
    var x := value;
    while x >= 128
      invariant longer + Uvarint(x) == buffer + Uvarint(value)
    {
      assert longer + Uvarint(x) == longer + [(x % 128 + 128) as Byte] + Uvarint(x / 128);
      longer, x := longer + [(x % 128 + 128) as Byte], x / 128;
    }
    longer := longer + [x as Byte];
  }

  function ReadUvarint(s: Bytes): (r: Option<(nat, Bytes)>)
    ensures r.Some? ==> |r.value.1| < |s|
  {
    if s == [] then None
    else if s[0] < 128 then Some((s[0] as int, s[1..]))
    else match ReadUvarint(s[1..])
      case None => None
      case Some(r) => Some((s[0] as int - 128 + 128 * r.0, r.1))
  }

  lemma {:induction false} UvarintBack(x: nat, rest: Bytes)
    ensures ReadUvarint(Uvarint(x) + rest) == Some((x, rest))
  {
    var s := Uvarint(x) + rest;
    if x >= 128 {
      UvarintBack(x / 128, rest);
      assert s[1..] == Uvarint(x / 128) + rest;
    } else {
      assert s[1..] == rest;
    }
  }

  // ---------- Length framing ----------

  function Framed(parts: seq<Bytes>): Bytes {
    if parts == [] then [] else Uvarint(|parts[0]|) + parts[0] + Framed(parts[1..])
  }

  function IdentityName(encoding: Bytes, parts: seq<Bytes>): Bytes { encoding + Uvarint(|parts|) + Framed(parts) }

  method BuildIdentityName(encoding: Bytes, parts: seq<Bytes>) returns (name: Bytes)
    ensures name == IdentityName(encoding, parts)
  {
    name := AppendUvarint(encoding, |parts|);
    var k := 0;
    while k < |parts|
      invariant k <= |parts| && name + Framed(parts[k..]) == IdentityName(encoding, parts)
    {
      ghost var before := name;
      name := AppendUvarint(name, |parts[k]|);
      name := name + parts[k];
      assert parts[k..][1..] == parts[k + 1..];
      assert before + Framed(parts[k..]) == name + Framed(parts[k + 1..]);
      k := k + 1;
    }
    assert name + [] == name;
  }

  // Reading count parts back.
  function Unframe(count: nat, s: Bytes): Option<(seq<Bytes>, Bytes)> {
    if count == 0 then Some(([], s))
    else match ReadUvarint(s)
      case None => None
      case Some(r) =>
        if r.0 > |r.1| then None
        else match Unframe(count - 1, r.1[r.0..])
          case None => None
          case Some(more) => Some(([r.1[..r.0]] + more.0, more.1))
  }

  lemma {:induction false} UnframeBack(parts: seq<Bytes>, rest: Bytes)
    ensures Unframe(|parts|, Framed(parts) + rest) == Some((parts, rest))
    decreases |parts|
  {
    if parts != [] {
      var tail := Framed(parts[1..]) + rest;
      var body := parts[0] + tail;
      assert Framed(parts) + rest == Uvarint(|parts[0]|) + body;
      UvarintBack(|parts[0]|, body);
      assert body[..|parts[0]|] == parts[0] && body[|parts[0]|..] == tail;
      UnframeBack(parts[1..], rest);
      assert [parts[0]] + parts[1..] == parts;
    } else {
      assert Framed(parts) + rest == rest;
    }
  }

  /** Equal names come from equal component sequences, whatever bytes the components contain; even a
      name that is only the beginning of another is equal to it. */
  lemma NamesInjective(encoding: Bytes, p: seq<Bytes>, q: seq<Bytes>, rest: Bytes)
    requires IdentityName(encoding, p) + rest == IdentityName(encoding, q)
    ensures p == q && rest == []
  {
    var n := |encoding|;
    var a, b := Uvarint(|p|) + (Framed(p) + rest), Uvarint(|q|) + (Framed(q) + []);
    assert (IdentityName(encoding, p) + rest)[n..] == a;
    assert IdentityName(encoding, q)[n..] == b by { assert Framed(q) + [] == Framed(q); }
    UvarintBack(|p|, Framed(p) + rest);
    UvarintBack(|q|, Framed(q) + []);
    UnframeBack(p, rest);
    UnframeBack(q, []);
  }

  // ---------- The older NUL join ----------

  function JoinNul(parts: seq<Bytes>): Bytes
    requires parts != []
  {
    if |parts| == 1 then parts[0] else parts[0] + [0] + JoinNul(parts[1..])
  }

  ghost predicate NulFree(parts: seq<Bytes>) { forall k :: 0 <= k < |parts| ==> 0 !in parts[k] }

  function BeforeNul(s: Bytes): nat { if s == [] || s[0] == 0 then 0 else 1 + BeforeNul(s[1..]) }

  lemma {:induction false} BeforeNulOf(a: Bytes, rest: Bytes)
    requires 0 !in a && (rest == [] || rest[0] == 0)
    ensures BeforeNul(a + rest) == |a|
  {
    if a != [] {
      assert (a + rest)[1..] == a[1..] + rest;
      BeforeNulOf(a[1..], rest);
    } else {
      assert a + rest == rest;
    }
  }

  // What follows the first component.
  function AfterFirst(parts: seq<Bytes>): Bytes
    requires parts != []
  {
    if |parts| == 1 then [] else [0] + JoinNul(parts[1..])
  }

  lemma {:induction false} FirstOfJoin(p: seq<Bytes>)
    requires p != [] && NulFree(p)
    ensures var s, n := JoinNul(p), |p[0]|;
      BeforeNul(s) == n <= |s| && s[..n] == p[0] && s[n..] == AfterFirst(p)
  {
    assert JoinNul(p) == p[0] + AfterFirst(p);
    BeforeNulOf(p[0], AfterFirst(p));
  }

  /** Joining with NUL tells sequences without NUL apart. */
  lemma {:induction false} JoinInjective(p: seq<Bytes>, q: seq<Bytes>)
    requires p != [] && q != [] && NulFree(p) && NulFree(q) && JoinNul(p) == JoinNul(q)
    ensures p == q
    decreases |p|
  {
    FirstOfJoin(p);
    FirstOfJoin(q);
    if |p| > 1 && |q| > 1 {
      assert AfterFirst(p)[1..] == JoinNul(p[1..]) && AfterFirst(q)[1..] == JoinNul(q[1..]);
      JoinInjective(p[1..], q[1..]);
      assert p == [p[0]] + p[1..] && q == [q[0]] + q[1..];
    } else {
      assert p == [p[0]] && q == [q[0]];
    }
  }

  ghost predicate JoinedAlone(parts: seq<Bytes>)
    requires parts != []
  {
    forall other: seq<Bytes> :: other != [] && JoinNul(other) == JoinNul(parts) ==> other == parts
  }

  /** Among all sequences, the joined bytes identify exactly those of a single component without NUL:
      any other can be cut differently. */
  lemma JoinAmbiguous(parts: seq<Bytes>)
    requires parts != []
    ensures JoinedAlone(parts) <==> |parts| == 1 && NulFree(parts)
  {
    if |parts| > 1 {
      assert JoinNul([JoinNul(parts)]) == JoinNul(parts);
      assert [JoinNul(parts)] != parts;
    } else if 0 in parts[0] {
      var s := parts[0];
      var k :| 0 <= k < |s| && s[k] == 0;
      var cut := [s[..k], s[k + 1..]];
      assert cut[1..] == [s[k + 1..]];
      assert JoinNul(cut) == s[..k] + [0] + s[k + 1..] == s;
      assert cut != parts;
    } else {
      assert NulFree(parts);
      forall other: seq<Bytes> | other != [] && JoinNul(other) == JoinNul(parts) ensures other == parts {
        NulsInside(other);
        JoinInjective(other, parts);
      }
    }
  }

  // A join without NUL has one component, and that has none.
  lemma {:induction false} NulsInside(parts: seq<Bytes>)
    requires parts != []
    ensures 0 !in JoinNul(parts) ==> NulFree(parts)
    decreases |parts|
  {
    if |parts| > 1 {
      var s := parts[0] + [0] + JoinNul(parts[1..]);
      assert s[|parts[0]|] == 0;
    }
  }
}
