/** Timestamps and the placement of Segments on a Flow's timeline (internal/media/timeline.go:15-100,
    internal/tamstime/timestamp.go:17-34, internal/ingest/pipeline.go:1208-1258). Times are 64-bit
    nanoseconds; no sum may leave that range. */
module Timeline {
  import opened Text

  const NANOSECONDS := 1000000000

  predicate Fits(n: int) { INT64_MIN <= n <= INT64_MAX }

  // ---------- Timestamps as text ----------

  // strconv.ParseInt in base ten: an optional sign, then digits.
  function ParseInt(s: string): (r: Option<int>)
    ensures r.Some? ==> Fits(r.value)
  {
    var negative := s != "" && s[0] == '-';
    var digits := if s != "" && (s[0] == '-' || s[0] == '+') then s[1..] else s;
    if digits == "" || !AllDigits(digits) then None
    else
      var n: int := if negative then Negate(Value(digits)) else Value(digits);
      if Fits(n) then Some(n) else None
  }

  function Negate(n: int): int { -n }

  function ParseParts(value: string): (r: Option<(int, int)>)
    ensures r.Some? ==> Fits(r.value.0) && 0 <= r.value.1 < NANOSECONDS
  {
    match Cut(value, ':')
    case None => None
    case Some(parts) =>
      match (ParseInt(parts.0), ParseInt(parts.1))
      case (Some(seconds), Some(nanoseconds)) => if 0 <= nanoseconds < NANOSECONDS then Some((seconds, nanoseconds)) else None
      case _ => None
  }

  // The sign is the text's: seconds alone cannot carry it between minus one second and zero.
  function Total(seconds: int, nanoseconds: int, negative: bool): (r: Option<int>)
    ensures r.Some? ==> Fits(r.value)
  {
    var total := seconds * NANOSECONDS + if negative then -nanoseconds else nanoseconds;
    if Fits(total) then Some(total) else None
  }

  function ParseTimestamp(value: string): (r: Option<int>)
    ensures r.Some? ==> Fits(r.value)
  {
    var trimmed := Trim(value);
    match ParseParts(trimmed)
    case None => None
    case Some(parts) => Total(parts.0, parts.1, trimmed != "" && trimmed[0] == '-')
  }

  function FormatInt(n: int): string { if n < 0 then "-" + Decimal(-n) else Decimal(n) }

  // Go's division truncates toward zero.
  function Quo(a: int, b: int): int
    requires b > 0
  {
    if a >= 0 then a / b else -(-a / b)
  }

  function Rem(a: int, b: int): int
    requires b > 0
  {
    a - Quo(a, b) * b
  }

  function Stamp(seconds: int, remainder: int): string { FormatInt(seconds) + ":" + FormatInt(remainder) }

  function Timestamp(nanoseconds: int): string {
    var seconds, remainder := Quo(nanoseconds, NANOSECONDS), Rem(nanoseconds, NANOSECONDS);
    if nanoseconds < 0 then "-" + Stamp(-seconds, -remainder) else Stamp(seconds, remainder)
  }

  lemma {:induction false} ParseFormatted(n: nat)
    requires n <= INT64_MAX
    ensures ParseInt(Decimal(n)) == Some(n as int) && ParseInt("-" + Decimal(n)) == Some(Negate(n))
  {
    DecimalValue(n);
    assert IsDigit(Decimal(n)[0]);
    assert ("-" + Decimal(n))[1..] == Decimal(n);
  }

  lemma CutParts(first: string, last: string, seconds: int, nanoseconds: int)
    requires ':' !in first && ParseInt(first) == Some(seconds) && ParseInt(last) == Some(nanoseconds) && 0 <= nanoseconds < NANOSECONDS
    ensures ParseParts(first + ":" + last) == Some((seconds, nanoseconds))
  {
    assert first + ":" + last == first + [':'] + last;
    CutAtFirst(first, ':', last);
  }

  lemma TextTight(first: string, last: string)
    requires first != "" && last != "" && !IsSpace(first[0]) && !IsSpace(last[|last| - 1])
    ensures var text := first + ":" + last; Trim(text) == text && text != "" && text[0] == first[0]
  {
    var text := first + ":" + last;
    assert text[0] == first[0] && text[|text| - 1] == last[|last| - 1];
    TrimTight(text);
  }

  lemma {:induction false} DecimalPlain(n: nat)
    ensures ':' !in Decimal(n) && ':' !in "-" + Decimal(n) && IsDigit(Decimal(n)[0]) && IsDigit(Decimal(n)[|Decimal(n)| - 1])
  {
  }

  lemma TextBack(text: string, first: string, last: string, seconds: int, nanoseconds: int)
    requires text == first + ":" + last
    requires first != "" && last != "" && !IsSpace(first[0]) && !IsSpace(last[|last| - 1])
    requires ':' !in first && ParseInt(first) == Some(seconds) && ParseInt(last) == Some(nanoseconds) && 0 <= nanoseconds < NANOSECONDS
    ensures ParseTimestamp(text) == Total(seconds, nanoseconds, first[0] == '-')
  {
    CutParts(first, last, seconds, nanoseconds);
    TextTight(first, last);
  }

  lemma StampBack(text: string, seconds: nat, nanoseconds: nat)
    requires text == Stamp(seconds, nanoseconds) && seconds <= INT64_MAX && nanoseconds < NANOSECONDS
    ensures ParseTimestamp(text) == Total(seconds, nanoseconds, false)
  {
    var first, last := Decimal(seconds), Decimal(nanoseconds);
    assert text == first + ":" + last;
    ParseFormatted(seconds);
    ParseFormatted(nanoseconds);
    DecimalPlain(seconds);
    DecimalPlain(nanoseconds);
    assert first[0] != '-';
    TextBack(text, first, last, seconds, nanoseconds);
  }

  lemma SignedStamp(first: string, last: string)
    ensures "-" + (first + ":" + last) == ("-" + first) + ":" + last
  {
  }

  lemma NegativeStampBack(text: string, seconds: nat, nanoseconds: nat)
    requires text == "-" + Stamp(seconds, nanoseconds) && seconds <= INT64_MAX && nanoseconds < NANOSECONDS
    ensures ParseTimestamp(text) == Total(Negate(seconds), nanoseconds, true)
  {
    ParseFormatted(seconds);
    ParseFormatted(nanoseconds);
    DecimalPlain(seconds);
    DecimalPlain(nanoseconds);
    SignedStamp(Decimal(seconds), Decimal(nanoseconds));
    TextBack(text, "-" + Decimal(seconds), Decimal(nanoseconds), Negate(seconds), nanoseconds);
  }

  lemma QuoRem(n: int)
    requires Fits(n)
    ensures var q, r := Quo(n, NANOSECONDS), Rem(n, NANOSECONDS);
      n == q * NANOSECONDS + r && (if n >= 0 then 0 <= q <= INT64_MAX && 0 <= r < NANOSECONDS else 0 <= -q <= INT64_MAX && 0 <= -r < NANOSECONDS)
  {
  }

  lemma TotalBack(n: int)
    requires Fits(n)
    ensures var q, r := Quo(n, NANOSECONDS), Rem(n, NANOSECONDS);
      if n < 0 then Total(Negate(-q), -r, true) == Some(n) else Total(q, r, false) == Some(n)
  {
    QuoRem(n);
  }

  lemma QuoExactly(seconds: nat, nanoseconds: nat)
    requires nanoseconds < 1000000000
    ensures var n: int := seconds * 1000000000 + nanoseconds;
      && Quo(n, NANOSECONDS) == seconds && Rem(n, NANOSECONDS) == nanoseconds
      && Quo(-n, NANOSECONDS) == Negate(seconds) && Rem(-n, NANOSECONDS) == Negate(nanoseconds)
  {
    var n := seconds * 1000000000 + nanoseconds;
    assert n / 1000000000 == seconds;
  }

  /** A timestamp prints whole seconds and the nanoseconds beyond them, after a sign. */
  lemma {:induction false} TimestampExactly(seconds: nat, nanoseconds: nat)
    requires nanoseconds < 1000000000
    ensures Timestamp(seconds * 1000000000 + nanoseconds) == Decimal(seconds) + ":" + Decimal(nanoseconds)
    ensures seconds + nanoseconds > 0 ==> Timestamp(Negate(seconds * 1000000000 + nanoseconds)) == "-" + (Decimal(seconds) + ":" + Decimal(nanoseconds))
  {
    QuoExactly(seconds, nanoseconds);
    assert Stamp(seconds, nanoseconds) == Decimal(seconds) + ":" + Decimal(nanoseconds);
  }

  // The two numbers a timestamp prints.
  lemma Parts(n: int) returns (q: int, r: int)
    requires Fits(n)
    ensures Timestamp(n) == if n < 0 then "-" + Stamp(-q, -r) else Stamp(q, r)
    ensures if n < 0 then 0 <= -q <= INT64_MAX && 0 <= -r < NANOSECONDS else 0 <= q <= INT64_MAX && 0 <= r < NANOSECONDS
    ensures (if n < 0 then Total(Negate(-q), -r, true) else Total(q, r, false)) == Some(n)
  {
    q, r := Quo(n, NANOSECONDS), Rem(n, NANOSECONDS);
    QuoRem(n);
    TotalBack(n);
  }

  /** Reading a printed timestamp gives it back on the whole 64-bit range, also between minus one
      second and zero. */
  lemma TimestampRoundTrip(n: int)
    requires Fits(n)
    ensures ParseTimestamp(Timestamp(n)) == Some(n)
  {
    var q, r := Parts(n);
    if n < 0 {
      NegativeStampBack(Timestamp(n), -q, -r);
    } else {
      StampBack(Timestamp(n), q, r);
    }
  }

  // ---------- Seconds to nanoseconds ----------

  // The rounding of ParseSeconds, for a number of seconds given as a fraction.
  function Rounded(numerator: int, denominator: int): int
    requires denominator > 0
  {
    var n := numerator * NANOSECONDS;
    var quotient, remainder := Quo(n, denominator), Rem(n, denominator);
    if 2 * Abs(remainder) >= denominator then (if n < 0 then quotient - 1 else quotient + 1) else quotient
  }

  function Abs(x: int): nat { if x < 0 then -x else x }

  // q is nearest to n / d, and the one further from zero when two are equally near.
  predicate IsNearest(q: int, n: int, d: int) {
    2 * Abs(q * d - n) <= d && (2 * Abs(q * d - n) == d ==> Abs(q * d) > Abs(n))
  }

  lemma Nearest(numerator: int, denominator: int)
    requires denominator > 0
    ensures IsNearest(Rounded(numerator, denominator), numerator * NANOSECONDS, denominator)
  {
    var n, d := numerator * NANOSECONDS, denominator;
    var q := Quo(n, d);
    assert Abs(Rem(n, d)) < d by { Remainder(n, d); }
    Remainder(n, d);
    assert (q - 1) * d == q * d - d && (q + 1) * d == q * d + d;
  }

  lemma Remainder(n: int, d: int)
    requires d > 0
    ensures n == Quo(n, d) * d + Rem(n, d) && Abs(Rem(n, d)) < d
    ensures if n >= 0 then Rem(n, d) >= 0 else Rem(n, d) <= 0
  {
    if n < 0 {
      assert -n == (-n / d) * d + (-n) % d;
      assert Quo(n, d) * d == -((-n / d) * d);
    } else {
      assert n == (n / d) * d + n % d;
    }
  }

  /** There is only one such integer, so the rounding is exactly nearest, ties away from zero. */
  lemma NearestUnique(p: int, q: int, n: int, d: int)
    requires d > 0 && IsNearest(p, n, d) && IsNearest(q, n, d)
    ensures p == q
  {
    if p < q {
      Apart(p, q, d);
      NotBoth(p * d, q * d, n, d);
    } else if q < p {
      Apart(q, p, d);
      NotBoth(q * d, p * d, n, d);
    }
  }

  // A tie on one side of n cannot be won on the other.
  lemma NotBoth(x: int, y: int, n: int, d: int)
    requires d > 0 && y - x >= d && (x >= 0 || x <= -d) && 2 * Abs(x - n) <= d
    requires 2 * Abs(x - n) == d ==> Abs(x) > Abs(n)
    ensures !(2 * Abs(y - n) <= d && (2 * Abs(y - n) == d ==> Abs(y) > Abs(n)))
  {
  }

  lemma Apart(p: int, q: int, d: int)
    requires d > 0 && p < q
    ensures q * d - p * d >= d && (p * d >= 0 || p * d <= -d)
  {
    var k := q - p;
    assert q * d - p * d == k * d;
    AtLeast(k, d);
    if p < 0 {
      AtLeast(-p, d);
      assert p * d == -(-p * d);
    }
  }

  lemma AtLeast(k: int, d: int)
    requires k >= 1 && d > 0
    ensures k * d >= d
  {
  }

  function ParseSeconds(numerator: int, denominator: int): Option<int>
    requires denominator > 0
  {
    if Fits(Rounded(numerator, denominator)) then Some(Rounded(numerator, denominator)) else None
  }

  /** ParseSeconds gives the nearest nanosecond, ties away from zero, and refuses exactly when that is out of
      the 64-bit range. */
  lemma ParseSecondsExactly(numerator: int, denominator: int)
    requires denominator > 0
    ensures var parsed, n := ParseSeconds(numerator, denominator), numerator * 1000000000;
      && (forall q :: IsNearest(q, n, denominator) ==> parsed == if Fits(q) then Some(q) else None)
      && (parsed.Some? ==> IsNearest(parsed.value, n, denominator))
  {
    Nearest(numerator, denominator);
    var n := numerator * NANOSECONDS;
    forall q | IsNearest(q, n, denominator) ensures q == Rounded(numerator, denominator) {
      NearestUnique(q, Rounded(numerator, denominator), n, denominator);
    }
  }

  // ---------- Placing Segments ----------

  datatype Measurement = Measurement(objectStart: int, duration: int)

  // A Segment on the timeline; its texts are TimeRange(start, duration), TimeRange(objectStart,
  // duration) and, unless the offset is zero, Timestamp(offset).
  datatype Placed = Placed(start: int, duration: int, objectStart: int, offset: int)

  function Shift(timestamp: int, offset: int): Option<int> { if Fits(timestamp + offset) then Some(timestamp + offset) else None }

  predicate RangeOk(start: int, duration: int) { duration == 0 || (duration > 0 && Shift(start, duration).Some?) }

  function TimeRange(start: int, duration: int): Option<string> {
    if !RangeOk(start, duration) then None
    else if duration == 0 then Some("[" + Timestamp(start) + "]")
    else Some("[" + Timestamp(start) + "_" + Timestamp(start + duration) + ")")
  }

  lemma {:induction false} NoMark(nanoseconds: int)
    ensures '_' !in Timestamp(nanoseconds)
  {
    var seconds, remainder := Quo(nanoseconds, NANOSECONDS), Rem(nanoseconds, NANOSECONDS);
    if nanoseconds < 0 {
      StampPlain(-seconds, -remainder);
    } else {
      StampPlain(seconds, remainder);
    }
  }

  lemma {:induction false} StampPlain(seconds: int, remainder: int)
    ensures '_' !in Stamp(seconds, remainder)
  {
    forall c | c in Stamp(seconds, remainder) ensures c != '_' {
    }
  }

  // The text between the brackets.
  function Inside(start: int, duration: int): string {
    if duration == 0 then Timestamp(start) else Timestamp(start) + "_" + Timestamp(start + duration)
  }

  lemma {:induction false} InsideBack(start: int, duration: int)
    requires RangeOk(start, duration) && Fits(start) && Fits(start + duration)
    ensures Cut(Inside(start, duration), '_') == if duration == 0 then None else Some((Timestamp(start), Timestamp(start + duration)))
  {
    NoMark(start);
    if duration == 0 {
      NoCut(Timestamp(start), '_');
    } else {
      CutAtFirst(Timestamp(start), '_', Timestamp(start + duration));
      assert Inside(start, duration) == Timestamp(start) + ['_'] + Timestamp(start + duration);
    }
  }

  lemma {:induction false} NoCut(s: string, sep: char)
    requires sep !in s
    ensures Cut(s, sep) == None
  {
    if s != "" {
      NoCut(s[1..], sep);
    }
  }

  lemma {:induction false} Bracketed(start: int, duration: int)
    requires TimeRange(start, duration).Some?
    ensures var text := TimeRange(start, duration).value; |text| >= 2 && text[1..|text| - 1] == Inside(start, duration)
  {
    var inside := Inside(start, duration);
    var text := "[" + inside + if duration == 0 then "]" else ")";
    assert text[1..|text| - 1] == inside;
    if duration != 0 {
      assert "[" + Timestamp(start) + "_" + Timestamp(start + duration) == "[" + inside;
    }
  }

  lemma {:induction false} SameInside(start: int, duration: int, otherStart: int, otherDuration: int)
    requires Fits(start) && Fits(otherStart) && RangeOk(start, duration) && RangeOk(otherStart, otherDuration)
    requires Inside(start, duration) == Inside(otherStart, otherDuration)
    ensures Timestamp(start) == Timestamp(otherStart) && (duration == 0 <==> otherDuration == 0)
    ensures duration != 0 ==> Timestamp(start + duration) == Timestamp(otherStart + otherDuration)
  {
    InsideBack(start, duration);
    InsideBack(otherStart, otherDuration);
  }

  lemma SameTime(n: int, m: int)
    requires Fits(n) && Fits(m) && Timestamp(n) == Timestamp(m)
    ensures n == m
  {
    TimestampRoundTrip(n);
    TimestampRoundTrip(m);
  }

  /** Two Segments have the same timerange text exactly when they span the same time, which is how a resume
      tells registered Segments apart. */
  lemma {:induction false} TimeRangeInjective(start: int, duration: int, otherStart: int, otherDuration: int)
    requires Fits(start) && Fits(otherStart) && TimeRange(start, duration).Some? && TimeRange(start, duration) == TimeRange(otherStart, otherDuration)
    ensures start == otherStart && duration == otherDuration
  {
    Bracketed(start, duration);
    Bracketed(otherStart, otherDuration);
    SameInside(start, duration, otherStart, otherDuration);
    SameTime(start, otherStart);
    if duration != 0 {
      SameTime(start + duration, otherStart + otherDuration);
    }
  }

  /** A timerange text reads back: an instant between square brackets, a span half open with both its ends. There
      is none exactly for a negative duration or an end outside 64 bits. */
  lemma {:induction false} TimeRangeRoundTrip(start: int, duration: int)
    requires Fits(start)
    ensures TimeRange(start, duration).Some? <==> duration >= 0 && start + duration <= INT64_MAX
    ensures TimeRange(start, duration).Some? ==>
      var text := TimeRange(start, duration).value; var inside := text[1..|text| - 1];
      && |text| >= 2 && text[0] == '['
      && (if duration == 0 then text[|text| - 1] == ']' && ParseTimestamp(inside) == Some(start)
          else && text[|text| - 1] == ')' && Cut(inside, '_').Some?
               && ParseTimestamp(Cut(inside, '_').value.0) == Some(start) && ParseTimestamp(Cut(inside, '_').value.1) == Some(start + duration))
  {
    if TimeRange(start, duration).Some? {
      Bracketed(start, duration);
      InsideBack(start, duration);
      TimestampRoundTrip(start);
      TimestampRoundTrip(start + duration);
    }
  }

  function PlaceObject(m: Measurement, position: int): Option<(Placed, int)> {
    if !RangeOk(position, m.duration) || !RangeOk(m.objectStart, m.duration) || Shift(position, -m.objectStart).None? || Shift(position, m.duration).None?
    then None
    else Some((Placed(position, m.duration, m.objectStart, position - m.objectStart), position + m.duration))
  }

  function Duration(ms: seq<Measurement>): int { if ms == [] then 0 else ms[0].duration + Duration(ms[1..]) }

  // Everything a placement computes stays in range.
  predicate Placeable(m: Measurement, position: int) {
    m.duration >= 0 && Fits(position + m.duration) && Fits(m.objectStart + m.duration) && Fits(position - m.objectStart)
  }

  predicate AllPlaceable(ms: seq<Measurement>, start: int) {
    ms == [] || (Placeable(ms[0], start) && AllPlaceable(ms[1..], start + ms[0].duration))
  }

  ghost predicate PlacedAt(o: Placed, m: Measurement, position: int) {
    && o == Placed(position, m.duration, m.objectStart, position - m.objectStart)
    && m.duration >= 0 && Fits(position) && Fits(position + m.duration) && Fits(o.offset)
  }

  // The objects cover the timeline from start, each beginning where the one before it ended.
  ghost predicate Tiles(objects: seq<Placed>, ms: seq<Measurement>, start: int) {
    if ms == [] then objects == []
    else objects != [] && PlacedAt(objects[0], ms[0], start) && Tiles(objects[1..], ms[1..], start + ms[0].duration)
  }

  lemma PlaceIff(m: Measurement, position: int)
    requires Fits(position) && Fits(m.objectStart)
    ensures PlaceObject(m, position).Some? <==> Placeable(m, position)
    ensures PlaceObject(m, position).Some? ==>
      PlacedAt(PlaceObject(m, position).value.0, m, position) && PlaceObject(m, position).value.1 == position + m.duration
  {
  }

  // Placing one after another.
  function Placements(ms: seq<Measurement>, start: int): Option<(seq<Placed>, int)> {
    if ms == [] then Some(([], start))
    else match PlaceObject(ms[0], start)
      case None => None
      case Some(one) => Prepend([one.0], Placements(ms[1..], one.1))
  }

  function Prepend(placed: seq<Placed>, rest: Option<(seq<Placed>, int)>): Option<(seq<Placed>, int)> {
    match rest
    case None => None
    case Some(more) => Some((placed + more.0, more.1))
  }

  method PlaceAll(ms: seq<Measurement>, start: int) returns (placed: Option<(seq<Placed>, int)>)
    ensures placed == Placements(ms, start)
  {
    var objects: seq<Placed>, position, k := [], start, 0;
    assert ms[0..] == ms;
    PrependNothing(Placements(ms, start));
    while k < |ms|
      invariant 0 <= k <= |ms| && Placements(ms, start) == Prepend(objects, Placements(ms[k..], position))
    {
      assert ms[k..][1..] == ms[k + 1..];
      var next := PlaceObject(ms[k], position);
      if next.None? {
        return None;
      }
      PrependTwice(objects, next.value.0, Placements(ms[k + 1..], next.value.1));
      objects, position, k := objects + [next.value.0], next.value.1, k + 1;
    }
    assert objects + [] == objects;
    return Some((objects, position));
  }

  lemma PrependNothing(rest: Option<(seq<Placed>, int)>)
    ensures Prepend([], rest) == rest
  {
    if rest.Some? {
      assert [] + rest.value.0 == rest.value.0;
    }
  }

  lemma PrependTwice(objects: seq<Placed>, one: Placed, rest: Option<(seq<Placed>, int)>)
    ensures Prepend(objects + [one], rest) == Prepend(objects, Prepend([one], rest))
  {
    if rest.Some? {
      assert objects + [one] + rest.value.0 == objects + ([one] + rest.value.0);
    }
  }

  /** Placing any measurements tiles the timeline from start, ending at start plus the sum of the
      durations, or fails: exactly when some value would leave the 64-bit range or a duration is
      negative. */
  lemma {:induction false} PlacementsTile(ms: seq<Measurement>, start: int)
    requires Fits(start) && forall k :: 0 <= k < |ms| ==> Fits(ms[k].objectStart)
    ensures Placements(ms, start).Some? <==> AllPlaceable(ms, start)
    ensures Placements(ms, start).Some? ==>
      var (objects, end) := Placements(ms, start).value; Tiles(objects, ms, start) && end == start + Duration(ms) && Fits(end)
    decreases |ms|
  {
    if ms != [] {
      PlaceIff(ms[0], start);
      if PlaceObject(ms[0], start).Some? {
        var next := start + ms[0].duration;
        PlacementsTile(ms[1..], next);
        TilesMore(ms, start);
      }
    }
  }

  lemma TilesMore(ms: seq<Measurement>, start: int)
    requires ms != [] && PlaceObject(ms[0], start).Some?
    requires PlacedAt(PlaceObject(ms[0], start).value.0, ms[0], start) && PlaceObject(ms[0], start).value.1 == start + ms[0].duration
    requires Placements(ms[1..], start + ms[0].duration).Some? ==> Tiles(Placements(ms[1..], start + ms[0].duration).value.0, ms[1..], start + ms[0].duration)
    ensures Placements(ms, start).Some? ==> Tiles(Placements(ms, start).value.0, ms, start)
  {
    if Placements(ms, start).Some? {
      var o, rest := PlaceObject(ms[0], start).value.0, Placements(ms[1..], start + ms[0].duration).value.0;
      assert Placements(ms, start).value.0 == [o] + rest && ([o] + rest)[1..] == rest;
    }
  }

  /** Neighbours meet exactly: no gap and no overlap. */
  lemma {:induction false} NoGapNoOverlap(objects: seq<Placed>, ms: seq<Measurement>, start: int, k: nat)
    requires Tiles(objects, ms, start) && k + 1 < |ms|
    ensures k + 1 < |objects| && objects[k + 1].start == objects[k].start + objects[k].duration
    ensures objects[0].start == start && objects[k].duration == ms[k].duration
    decreases k
  {
    assert Tiles(objects[1..], ms[1..], start + ms[0].duration) && objects[1..] != [];
    if k > 0 {
      NoGapNoOverlap(objects[1..], ms[1..], start + ms[0].duration, k - 1);
    } else {
      assert PlacedAt(objects[1..][0], ms[1..][0], start + ms[0].duration);
    }
  }
}
