/** Constant or variable cadence from per-Segment summaries (internal/media/presentation.go:144-345). The
    summaries keep two bounds; the placed timeline has every frame. Rational arithmetic is exact. */
module Cadence {
  import opened Text
  import Timeline

  // ---------- One Segment ----------

  datatype Span = Span(first: int, last: int, frames: nat, lastDuration: int, minimumStep: int, maximumStep: int, invalid: bool)

  ghost function Gap(ts: seq<int>, k: int): int
    requires 0 <= k < |ts| - 1
  {
    ts[k + 1] - ts[k]
  }

  // Every step is positive and representable.
  ghost predicate Increasing(ts: seq<int>) { forall k :: 0 <= k < |ts| - 1 ==> 0 < Gap(ts, k) && Timeline.Fits(Gap(ts, k)) }

  ghost predicate StepBounds(ts: seq<int>, low: int, high: int) {
    if |ts| <= 1 then low == high == 0
    else
      && (forall k :: 0 <= k < |ts| - 1 ==> low <= Gap(ts, k) <= high)
      && (exists k :: 0 <= k < |ts| - 1 && Gap(ts, k) == low)
      && (exists k :: 0 <= k < |ts| - 1 && Gap(ts, k) == high)
  }

  // Is the step to this timestamp positive and representable?
  predicate Rises(ts: seq<int>, value: int) { ts != [] ==> value > ts[|ts| - 1] && Timeline.Fits(value - ts[|ts| - 1]) }

  // The summary of a scan.
  ghost predicate Summarizes(span: Span, ts: seq<int>) {
    && span.frames == |ts| && (ts != [] ==> span.first == ts[0] && span.last == ts[|ts| - 1])
    && (!span.invalid ==> Increasing(ts) && StepBounds(ts, span.minimumStep, span.maximumStep))
  }

  class CadenceState {
    var first: int
    var previous: int
    var lastDuration: int
    var frames: nat
    var minimumStep: int
    var maximumStep: int
    var invalid: bool
    ghost var seen: seq<int>

    ghost predicate Valid()
      reads this
    {
      Summarizes(Summary(), seen)
    }

    function Summary(): Span
      reads this
    {
      Span(first, previous, frames, lastDuration, minimumStep, maximumStep, invalid)
    }

    constructor ()
      ensures Valid() && seen == [] && !invalid
    {
      first, previous, lastDuration, frames, minimumStep, maximumStep, invalid, seen := 0, 0, 0, 0, 0, 0, false, [];
    }

    // One timestamp, or None for a text that is none: it is not counted and spoils the evidence.
    method Observe(reading: Option<int>)
      requires Valid()
      modifies this
      ensures Valid() && seen == old(seen) + if reading.Some? then [reading.value] else []
      ensures !invalid <==> (!old(invalid) && reading.Some? && Rises(old(seen), reading.value))
    {
      if reading.None? {
        invalid := true;
        return;
      }
      var value := reading.value;
      ghost var before, low, high := seen, minimumStep, maximumStep;
      if frames > 0 {
        var step := value - previous;
        if !Timeline.Fits(step) || step <= 0 {
          invalid := true;
        } else {
          if minimumStep == 0 || step < minimumStep {
            minimumStep := step;
          }
          if step > maximumStep {
            maximumStep := step;
          }
        }
      } else {
        first := value;
      }
      previous, frames, seen := value, frames + 1, seen + [value];
      if !invalid {
        MoreSteps(before, value, low, high, minimumStep, maximumStep);
      }
    }
  }

  lemma MoreSteps(ts: seq<int>, value: int, low: int, high: int, newLow: int, newHigh: int)
    requires Increasing(ts) && StepBounds(ts, low, high)
    requires ts == [] ==> newLow == newHigh == 0
    requires ts != [] ==> var step := value - ts[|ts| - 1];
      step > 0 && Timeline.Fits(step) && newLow == (if low == 0 || step < low then step else low) && newHigh == (if step > high then step else high)
    ensures Increasing(ts + [value]) && StepBounds(ts + [value], newLow, newHigh)
  {
    var more, last := ts + [value], |ts| - 1;
    forall k | 0 <= k < |more| - 1 ensures Gap(more, k) == if k < last then Gap(ts, k) else value - ts[last] {
    }
    if |ts| >= 2 {
      var i :| 0 <= i < last && Gap(ts, i) == low;
      var j :| 0 <= j < last && Gap(ts, j) == high;
      assert Gap(more, i) == low && Gap(more, j) == high && Gap(more, last) == value - ts[last];
    } else if |ts| == 1 {
      assert Gap(more, 0) == value - ts[0];
    }
  }

  datatype Evidence = Unknown | Fixed | Variable | Invalid

  // The verdict on one file: a rational rate on a coarser tick alternates between adjacent counts.
  function FileVerdict(span: Span, rated: bool): Evidence {
    if span.invalid || span.frames == 0 then Unknown
    else if span.frames > 1 && span.maximumStep - span.minimumStep > 1 then Variable
    else if rated then Fixed
    else Unknown
  }

  /** A file is variable exactly when two of its steps differ by more than a tick. A readable one that is not
      variable is fixed exactly when it states a rate. */
  lemma {:induction false} FileVariable(span: Span, ts: seq<int>, rated: bool)
    requires Summarizes(span, ts)
    ensures FileVerdict(span, rated) == Variable <==>
      !span.invalid && exists i, j :: 0 <= i < |ts| - 1 && 0 <= j < |ts| - 1 && Gap(ts, i) - Gap(ts, j) > 1
    ensures FileVerdict(span, rated) == Fixed <==> !span.invalid && ts != [] && rated && FileVerdict(span, rated) != Variable
    ensures FileVerdict(span, rated) != Invalid
  {
    if !span.invalid && |ts| > 1 {
      var i :| 0 <= i < |ts| - 1 && Gap(ts, i) == span.maximumStep;
      var j :| 0 <= j < |ts| - 1 && Gap(ts, j) == span.minimumStep;
    }
  }

  // ---------- The placed timeline ----------

  // Frame times in seconds; None marks missing evidence, across which nothing is adjacent.
  type Placed = seq<Option<real>>

  ghost predicate HasStep(p: Placed, k: int) { 0 <= k < |p| - 1 && p[k].Some? && p[k + 1].Some? }

  ghost function Step(p: Placed, k: int): real
    requires HasStep(p, k)
  {
    p[k + 1].value - p[k].value
  }

  ghost predicate AllWithin(p: Placed, low: real, high: real) { forall k :: HasStep(p, k) ==> low <= Step(p, k) <= high }

  ghost predicate Attains(p: Placed, bound: real) { exists k :: HasStep(p, k) && Step(p, k) == bound }

  // The least and the greatest interval between adjacent frames, None when there is none.
  ghost predicate IsBounds(p: Placed, low: Option<real>, high: Option<real>) {
    if low.None? || high.None? then low.None? && high.None? && forall k :: !HasStep(p, k)
    else AllWithin(p, low.value, high.value) && Attains(p, low.value) && Attains(p, high.value)
  }

  ghost function Last(p: Placed): Option<real> { if p == [] then None else p[|p| - 1] }

  function Least(low: Option<real>, step: real): Option<real> { Some(if low.None? || step < low.value then step else low.value) }

  function Greatest(high: Option<real>, step: real): Option<real> { Some(if high.None? || step > high.value then step else high.value) }

  // Steps of a longer timeline are those of its beginning and those that come after.
  lemma StepsOn(p: Placed, more: Placed, k: int)
    requires HasStep(p + more, k)
    ensures k < |p| - 1 ==> HasStep(p, k) && Step(p + more, k) == Step(p, k)
  {
  }

  lemma StepsKept(p: Placed, more: Placed, k: int)
    requires HasStep(p, k)
    ensures HasStep(p + more, k) && Step(p + more, k) == Step(p, k)
  {
  }

  lemma BoundsMore(p: Placed, more: Placed, low: Option<real>, high: Option<real>, l: real, h: real)
    requires IsBounds(p, low, high) && l <= h
    requires forall k :: k >= |p| - 1 && HasStep(p + more, k) ==> l <= Step(p + more, k) <= h
    requires Attains(p + more, l) && Attains(p + more, h)
    ensures IsBounds(p + more, Least(low, l), Greatest(high, h))
  {
    var q := p + more;
    forall k | HasStep(q, k) ensures Least(low, l).value <= Step(q, k) <= Greatest(high, h).value {
      StepsOn(p, more, k);
    }
    if low.Some? && high.Some? {
      var i :| HasStep(p, i) && Step(p, i) == low.value;
      var j :| HasStep(p, j) && Step(p, j) == high.value;
      StepsKept(p, more, i);
      StepsKept(p, more, j);
    }
  }

  lemma BoundsSame(p: Placed, more: Placed, low: Option<real>, high: Option<real>)
    requires IsBounds(p, low, high) && forall k :: k >= |p| - 1 ==> !HasStep(p + more, k)
    ensures IsBounds(p + more, low, high)
  {
    forall k | HasStep(p + more, k) ensures HasStep(p, k) && Step(p + more, k) == Step(p, k) {
      StepsOn(p, more, k);
    }
    if low.Some? && high.Some? {
      var i :| HasStep(p, i) && Step(p, i) == low.value;
      var j :| HasStep(p, j) && Step(p, j) == high.value;
      StepsKept(p, more, i);
      StepsKept(p, more, j);
    }
  }

  // What the comparison of the bounds with the nominal interval says.
  function Verdict(low: real, high: real, tick: real, interval: Option<real>): Evidence {
    var tolerance := tick + 0.000001;
    if high - low > tolerance then Variable
    else match interval
      case None => Unknown
      case Some(nominal) => if Away(low, nominal, tolerance) || Away(high, nominal, tolerance) then Variable else Fixed
  }

  predicate Away(step: real, nominal: real, tolerance: real) { step - nominal > tolerance || nominal - step > tolerance }

  // Two measured intervals differ by more than one tick and a microsecond, or one is that far from nominal.
  ghost predicate Irregular(p: Placed, tick: real, interval: Option<real>) {
    || (exists i, j :: HasStep(p, i) && HasStep(p, j) && Step(p, j) - Step(p, i) > tick + 0.000001)
    || (interval.Some? && exists k :: HasStep(p, k) && (Step(p, k) - interval.value > tick + 0.000001 || interval.value - Step(p, k) > tick + 0.000001))
  }

  /** The verdict on the bounds is the verdict on the intervals themselves. */
  lemma VerdictExactly(p: Placed, low: real, high: real, tick: real, interval: Option<real>)
    requires IsBounds(p, Some(low), Some(high))
    ensures Verdict(low, high, tick, interval) == if Irregular(p, tick, interval) then Variable else if interval.Some? then Fixed else Unknown
  {
    var i :| HasStep(p, i) && Step(p, i) == low;
    var j :| HasStep(p, j) && Step(p, j) == high;
  }

  /** Fixed means every interval measured so far is within one tick and a microsecond of nominal. */
  lemma FixedMeansNear(p: Placed, low: real, high: real, tick: real, nominal: real)
    requires IsBounds(p, Some(low), Some(high))
    ensures Verdict(low, high, tick, Some(nominal)) == Fixed <==>
      high - low <= tick + 0.000001 && forall k :: HasStep(p, k) ==> !Away(Step(p, k), nominal, tick + 0.000001)
  {
    var i :| HasStep(p, i) && Step(p, i) == low;
    var j :| HasStep(p, j) && Step(p, j) == high;
  }

  /** With one time base and one rate, once variable is always variable. */
  lemma VariableStays(p: Placed, more: Placed, low: real, high: real, l: real, h: real, tick: real, interval: Option<real>)
    requires IsBounds(p, Some(low), Some(high)) && IsBounds(p + more, Some(l), Some(h))
    requires Verdict(low, high, tick, interval) == Variable
    ensures Verdict(l, h, tick, interval) == Variable
  {
    var i :| HasStep(p, i) && Step(p, i) == low;
    var j :| HasStep(p, j) && Step(p, j) == high;
    StepsKept(p, more, i);
    StepsKept(p, more, j);
  }

  // ---------- Placing a Segment's frames ----------

  function Seconds(ticks: int, tick: real): real { ticks as real * tick }

  ghost function Frames(ts: seq<int>, tick: real, offset: real): Placed {
    seq(|ts|, k requires 0 <= k < |ts| => Some(Seconds(ts[k], tick) + offset))
  }

  lemma Scaled(a: int, b: int, tick: real)
    ensures Seconds(b, tick) - Seconds(a, tick) == Seconds(b - a, tick)
  {
  }

  lemma Product(x: real, tick: real)
    requires x >= 0.0 && tick > 0.0
    ensures x * tick >= 0.0
  {
  }

  lemma ScaledOrder(a: int, b: int, tick: real)
    requires a <= b && tick > 0.0
    ensures Seconds(a, tick) <= Seconds(b, tick)
  {
    Scaled(a, b, tick);
    Product((b - a) as real, tick);
  }

  // Each interval inside a Segment is a scaled step of its scan.
  lemma InsideStep(p: Placed, ts: seq<int>, tick: real, offset: real, j: int)
    requires |ts| > 1 && 0 <= j < |ts| - 1 && Last(p) == Some(Seconds(ts[0], tick) + offset)
    ensures var q := p + Frames(ts, tick, offset)[1..];
      |q| == |p| - 1 + |ts| && HasStep(q, |p| - 1 + j) && Step(q, |p| - 1 + j) == Seconds(Gap(ts, j), tick)
  {
    var all := Frames(ts, tick, offset);
    var q, n := p + all[1..], |p| - 1;
    Scaled(ts[j], ts[j + 1], tick);
    assert q[n + j + 1] == all[j + 1];
    assert q[n + j] == if j == 0 then Last(p) else all[j];
  }

  // The intervals inside a Segment, once its first frame is placed.
  lemma InsideSteps(p: Placed, ts: seq<int>, tick: real, offset: real, low: int, high: int)
    requires |ts| > 1 && tick > 0.0 && Increasing(ts) && StepBounds(ts, low, high)
    requires Last(p) == Some(Seconds(ts[0], tick) + offset)
    ensures var more := Frames(ts, tick, offset)[1..]; var q := p + more;
      && (forall k :: k >= |p| - 1 && HasStep(q, k) ==> Seconds(low, tick) <= Step(q, k) <= Seconds(high, tick))
      && Attains(q, Seconds(low, tick)) && Attains(q, Seconds(high, tick)) && Seconds(low, tick) <= Seconds(high, tick)
      && Last(q) == Some(Seconds(ts[|ts| - 1], tick) + offset)
  {
    var q, n := p + Frames(ts, tick, offset)[1..], |p| - 1;
    forall k | k >= n && HasStep(q, k) ensures Seconds(low, tick) <= Step(q, k) <= Seconds(high, tick) {
      var j := k - n;
      InsideStep(p, ts, tick, offset, 0);
      InsideStep(p, ts, tick, offset, j);
      ScaledOrder(low, Gap(ts, j), tick);
      ScaledOrder(Gap(ts, j), high, tick);
    }
    var i :| 0 <= i < |ts| - 1 && Gap(ts, i) == low;
    var j :| 0 <= j < |ts| - 1 && Gap(ts, j) == high;
    InsideStep(p, ts, tick, offset, i);
    InsideStep(p, ts, tick, offset, j);
    ScaledOrder(low, high, tick);
    assert q[|q| - 1] == Frames(ts, tick, offset)[|ts| - 1];
  }

  // A scanned stream: its summary, its time base and its nominal frame interval, where they could be read.
  datatype Stream = Stream(span: Span, tick: Option<real>, interval: Option<real>)

  // Does this Segment's evidence allow placing its frames?
  predicate Usable(stream: Stream, reference: Stream) {
    && stream.tick.Some? && reference.tick.Some? && stream.tick.value > 0.0 && reference.tick.value > 0.0
    && stream.span.frames > 0 && reference.span.frames > 0 && reference.span.lastDuration > 0
  }

  // Puts the reference's end at the Segment's end.
  function Offset(reference: Stream, segmentEnd: int): real
    requires reference.tick.Some?
  {
    segmentEnd as real / 1000000000.0 - (Seconds(reference.span.last, reference.tick.value) + Seconds(reference.span.lastDuration, reference.tick.value))
  }

  /** Frame k is placed as far from the Segment's end as its timestamp is from the end of the reference's last
      frame, each in its own time base. */
  lemma {:induction false} PlacedFromEnd(ts: seq<int>, tick: real, reference: Stream, segmentEnd: int, k: nat)
    requires reference.tick.Some? && k < |ts|
    ensures var frames := Frames(ts, tick, Offset(reference, segmentEnd));
      && |frames| == |ts| && frames[k].Some?
      && frames[k].value - segmentEnd as real / 1000000000.0
         == ts[k] as real * tick - (reference.span.last + reference.span.lastDuration) as real * reference.tick.value
  {
  }

  class CadenceTimeline {
    var previous: Option<real>
    var minimum: Option<real>
    var maximum: Option<real>
    ghost var placed: Placed

    ghost predicate Valid()
      reads this
    {
      IsBounds(placed, minimum, maximum) && previous == Last(placed)
    }

    constructor ()
      ensures Valid() && placed == []
    {
      previous, minimum, maximum, placed := None, None, None, [];
    }

    // The code's add, for one interval or for the two that bound a Segment's.
    method Widen(low: real, high: real) returns (ok: bool)
      modifies this`minimum, this`maximum
      requires low <= high
      ensures ok <==> low > 0.0
      ensures ok ==> minimum == Least(old(minimum), low) && maximum == Greatest(old(maximum), high)
    {
      ok := low > 0.0;
      if ok {
        minimum, maximum := Least(minimum, low), Greatest(maximum, high);
      }
    }

    // The interval across the join.
    method Join(first: real) returns (ok: bool)
      requires Valid()
      modifies this`minimum, this`maximum, this`previous, this`placed
      ensures ok <==> (old(previous).Some? ==> first > old(previous).value)
      ensures ok ==> Valid() && placed == old(placed) + [Some(first)]
    {
      ghost var p, low, high := placed, minimum, maximum;
      ok := true;
      if previous.Some? {
        var step := first - previous.value;
        ok := Widen(step, step);
        if ok {
          assert HasStep(p + [Some(first)], |p| - 1) && Step(p + [Some(first)], |p| - 1) == step;
          BoundsMore(p, [Some(first)], low, high, step, step);
        }
      } else {
        BoundsSame(p, [Some(first)], low, high);
      }
      previous, placed := Some(first), placed + [Some(first)];
    }

    // The intervals inside the Segment, by its two bounds.
    method Inside(span: Span, tick: real, offset: real, ghost ts: seq<int>) returns (ok: bool)
      requires Valid() && Summarizes(span, ts) && !span.invalid && ts != [] && tick > 0.0
      requires previous == Some(Seconds(ts[0], tick) + offset)
      modifies this`minimum, this`maximum, this`previous, this`placed
      ensures ok && Valid() && placed == old(placed) + Frames(ts, tick, offset)[1..]
    {
      ghost var p, more, low, high := placed, Frames(ts, tick, offset)[1..], minimum, maximum;
      ok := true;
      if span.frames > 1 {
        InsideSteps(p, ts, tick, offset, span.minimumStep, span.maximumStep);
        assert Seconds(span.minimumStep, tick) > 0.0;
        ok := Widen(Seconds(span.minimumStep, tick), Seconds(span.maximumStep, tick));
        BoundsMore(p, more, low, high, Seconds(span.minimumStep, tick), Seconds(span.maximumStep, tick));
      } else {
        assert more == [] && p + more == p;
      }
      previous, placed := Some(Seconds(span.last, tick) + offset), placed + more;
    }

    /** After every Segment the two bounds are the least and greatest of all frame intervals of the placed
        timeline, across joins but never across missing evidence, and the verdict follows from them. */
    method Observe(stream: Stream, reference: Stream, segmentEnd: int, ghost ts: seq<int>) returns (evidence: Evidence)
      requires Valid() && Summarizes(stream.span, ts)
      modifies this
      ensures evidence == Invalid <==>
        (stream.span.invalid || reference.span.invalid ||
         (Usable(stream, reference) && old(previous).Some? && stream.span.first as real * stream.tick.value + Offset(reference, segmentEnd) <= old(previous).value))
      ensures evidence != Invalid ==> Valid()
      ensures evidence != Invalid && Usable(stream, reference) ==> placed == old(placed) + Frames(ts, stream.tick.value, Offset(reference, segmentEnd))
      ensures evidence != Invalid && !Usable(stream, reference) ==> placed == old(placed) + [None] && evidence == Unknown
      ensures evidence != Invalid && Usable(stream, reference) && (minimum.None? || maximum.None?) ==> evidence == Unknown
      ensures evidence != Invalid && Usable(stream, reference) && minimum.Some? && maximum.Some? ==>
                evidence == if Irregular(placed, stream.tick.value, stream.interval) then Variable else if stream.interval.Some? then Fixed else Unknown
    {
      if stream.span.invalid || reference.span.invalid {
        return Invalid;
      }
      if !Usable(stream, reference) {
        BoundsSame(placed, [None], minimum, maximum);
        previous, placed := None, placed + [None];
        return Unknown;
      }
      var tick, offset := stream.tick.value, Offset(reference, segmentEnd);
      ghost var frames := Frames(ts, tick, offset);
      var ok := Join(Seconds(stream.span.first, tick) + offset);
      if !ok {
        return Invalid;
      }
      ok := Inside(stream.span, tick, offset, ts);
      assert old(placed) + [frames[0]] + frames[1..] == old(placed) + frames;
      if minimum.None? || maximum.None? {
        return Unknown;
      }
      VerdictExactly(placed, minimum.value, maximum.value, tick, stream.interval);
      return Verdict(minimum.value, maximum.value, tick, stream.interval);
    }
  }
}
