/** Content-Range and entity tags (internal/source/range.go:11-106). */
module ByteRanges {
  import opened Text

  datatype ContentRange = ContentRange(start: nat, end: nat, total: nat) {
    function Span(): int { end - start + 1 }
  }

  // strings.EqualFold(unit, "bytes"): ASCII case, and the long s that folds to s.
  predicate IsBytesUnit(unit: string) {
    && |unit| == 5 && unit[0] in {'b', 'B'} && unit[1] in {'y', 'Y'} && unit[2] in {'t', 'T'} && unit[3] in {'e', 'E'}
    && unit[4] in {'s', 'S', '\U{017F}'}
  }

  function ParsePadded(s: string): Option<nat> { ParseDigits(Trim(s)) }

  // The part after the unit, as "range/total".
  function RangeParts(value: string): Option<(string, string)> {
    match Cut(Trim(value), ' ')
    case None => None
    case Some(unit) => if IsBytesUnit(unit.0) then Cut(Trim(unit.1), '/') else None
  }

  function ParseContentRange(value: string): (r: Option<ContentRange>)
    ensures r.Some? ==> r.value.start <= r.value.end < r.value.total <= INT64_MAX
  {
    match RangeParts(value)
    case None => None
    case Some(parts) =>
      match Cut(Trim(parts.0), '-')
      case None => None
      case Some(bounds) =>
        var start, end, total := ParsePadded(bounds.0), ParsePadded(bounds.1), ParsePadded(parts.1);
        if start.Some? && end.Some? && total.Some? && start.value <= end.value < total.value
        then Some(ContentRange(start.value, end.value, total.value)) else None
  }

  function ParseUnsatisfied(value: string): (r: Option<nat>)
    ensures r.Some? ==> r.value <= INT64_MAX
  {
    match RangeParts(value)
    case None => None
    case Some(parts) => if Trim(parts.0) == "*" then ParsePadded(parts.1) else None
  }

  function PrintRange(r: ContentRange): string {
    "bytes " + Decimal(r.start) + "-" + Decimal(r.end) + "/" + Decimal(r.total)
  }

  function PrintUnsatisfied(total: nat): string { "bytes */" + Decimal(total) }

  lemma RangePartsOf(spec: string, total: string)
    requires spec != "" && total != "" && !IsSpace(spec[0]) && !IsSpace(total[|total| - 1]) && '/' !in spec
    ensures RangeParts("bytes " + spec + "/" + total) == Some((spec, total))
  {
    var rest := spec + "/" + total;
    var value := "bytes " + rest;
    assert value == "bytes " + spec + "/" + total;
    TrimTight(value);
    assert value == "bytes" + [' '] + rest;
    CutAtFirst("bytes", ' ', rest);
    TrimTight(rest);
    assert rest == spec + ['/'] + total;
    CutAtFirst(spec, '/', total);
  }

  lemma {:induction false} DecimalTight(n: nat)
    ensures Trim(Decimal(n)) == Decimal(n)
    ensures ParsePadded(Decimal(n)) == if n <= INT64_MAX then Some(n) else None
  {
    TrimTight(Decimal(n));
    ParseDecimal(n);
  }

  /** Reading a printed range gives it back exactly when it is a range of some representation
      whose length fits 64 bits; the same for the unsatisfied form. */
  lemma RangeRoundTrip(r: ContentRange)
    ensures ParseContentRange(PrintRange(r)) == if r.start <= r.end < r.total <= INT64_MAX then Some(r) else None
    ensures ParseUnsatisfied(PrintRange(r)) == None
  {
    var bounds, total := Decimal(r.start) + "-" + Decimal(r.end), Decimal(r.total);
    assert PrintRange(r) == "bytes " + bounds + "/" + total;
    RangePartsOf(bounds, total);
    TrimTight(bounds);
    assert bounds == Decimal(r.start) + ['-'] + Decimal(r.end);
    CutAtFirst(Decimal(r.start), '-', Decimal(r.end));
    DecimalTight(r.start);
    DecimalTight(r.end);
    DecimalTight(r.total);
    assert bounds[0] != '*';
  }

  lemma UnsatisfiedRoundTrip(total: nat)
    ensures ParseUnsatisfied(PrintUnsatisfied(total)) == if total <= INT64_MAX then Some(total) else None
    ensures ParseContentRange(PrintUnsatisfied(total)) == None
  {
    assert PrintUnsatisfied(total) == "bytes " + "*" + "/" + Decimal(total);
    RangePartsOf("*", Decimal(total));
    DecimalTight(total);
    TrimTight("*");
    assert Cut("", '-') == None;
  }

  // validateCompleteRange: a negative total or length is one the response did not state.
  function ValidateCompleteRange(value: string, offset: nat, knownTotal: int, contentLength: int): (r: Option<ContentRange>)
    ensures r.Some? ==> r == ParseContentRange(value) && r.value.start == offset && r.value.end == r.value.total - 1
    ensures r.Some? && knownTotal >= 0 ==> r.value.total == knownTotal
    ensures r.Some? && contentLength >= 0 ==> contentLength == r.value.Span()
    ensures ParseContentRange(value).Some? && r.None? ==>
      var range := ParseContentRange(value).value;
      range.start != offset || range.end != range.total - 1 || (knownTotal >= 0 && range.total != knownTotal) || (contentLength >= 0 && contentLength != range.Span())
  {
    match ParseContentRange(value)
    case None => None
    case Some(range) =>
      if range.start != offset || (knownTotal >= 0 && range.total != knownTotal) || range.end != range.total - 1
        || (contentLength >= 0 && contentLength != range.Span())
      then None else Some(range)
  }

  /** The range a server states for everything from an offset on is accepted. */
  lemma CompleteRangeAccepted(offset: nat, total: nat, knownTotal: int, contentLength: int)
    requires offset < total <= INT64_MAX && (knownTotal < 0 || knownTotal == total) && (contentLength < 0 || contentLength == total - offset)
    ensures ValidateCompleteRange(PrintRange(ContentRange(offset, total - 1, total)), offset, knownTotal, contentLength)
         == Some(ContentRange(offset, total - 1, total))
  {
    RangeRoundTrip(ContentRange(offset, total - 1, total));
  }

  predicate ValidStrongETag(value: string) {
    && |value| >= 2 && value[0] == '"' && value[|value| - 1] == '"'
    && forall k :: 1 <= k < |value| - 1 ==> value[k] as int > 0x20 && value[k] != '"' && value[k] as int != 0x7f
  }

  // A strong entity tag: an opaque text in quotes, without a weakness prefix (section 8.8.3 of RFC 9110).
  predicate IsStrong(tag: string) { |tag| >= 2 && tag == "\"" + tag[1..|tag| - 1] + "\"" && IsOpaque(tag[1..|tag| - 1]) }

  predicate IsOpaque(inner: string) { forall c <- inner :: c as int > 0x20 && c != '"' && c as int != 0x7f }

  lemma {:induction false} StrongExactly(tag: string)
    ensures ValidStrongETag(tag) <==> IsStrong(tag)
  {
    if |tag| >= 2 {
      var inner := tag[1..|tag| - 1];
      assert forall k :: 0 <= k < |inner| ==> inner[k] == tag[k + 1];
      assert forall k :: 1 <= k < |tag| - 1 ==> tag[k] == inner[k - 1];
      if ValidStrongETag(tag) {
        assert tag == "\"" + inner + "\"";
      }
      if IsStrong(tag) {
        assert tag[0] == '"' && tag[|tag| - 1] == '"';
        forall k | 1 <= k < |tag| - 1 ensures tag[k] as int > 0x20 && tag[k] != '"' && tag[k] as int != 0x7f {
          assert inner[k - 1] in inner;
        }
      }
    }
  }
}
