/** Average and peak Segment bit rates with a sliding window (internal/media/bitrate.go:33-135; the peak
    segment bit rate of section 4.1 of RFC 8216). Times are nanoseconds; the running int64 sums are
    taken not to overflow. */
module BitRate {
  import opened Text

  datatype Segment = Segment(bytes: int, duration: int)

  function Bytes(s: seq<Segment>): int { if s == [] then 0 else s[0].bytes + Bytes(s[1..]) }

  function Duration(s: seq<Segment>): int { if s == [] then 0 else s[0].duration + Duration(s[1..]) }

  // From the i-th on.
  function Tail(s: seq<Segment>, i: nat): int
    requires i <= |s|
  {
    Duration(s[i..])
  }

  function TailBytes(s: seq<Segment>, i: nat): int
    requires i <= |s|
  {
    Bytes(s[i..])
  }

  ghost predicate Measured(s: seq<Segment>) { forall k :: 0 <= k < |s| ==> s[k].duration > 0 && s[k].bytes >= 0 }

  // Thousands of bits per second, truncated; zero when it does not fit 64 bits.
  function Rate(bytes: int, nanoseconds: int): (r: int)
    requires bytes >= 0
    ensures 0 <= r <= INT64_MAX
  {
    if nanoseconds <= 0 || Truncated(bytes, nanoseconds) > INT64_MAX then 0 else Truncated(bytes, nanoseconds)
  }

  function Truncated(bytes: int, nanoseconds: int): (r: int)
    requires bytes >= 0 && nanoseconds > 0
    ensures r >= 0
  {
    Quotient(bytes * 8000000000, nanoseconds * 1000)
  }

  function Quotient(a: nat, d: nat): nat
    requires d > 0
  {
    a / d
  }

  function Lower(target: int): int { if target >= 0 then target / 2 else -(-target / 2) }

  function Upper(target: int): int { if target >= 0 then target * 3 / 2 else -(-target * 3 / 2) }

  // ---------- What the peak is: a maximum over all contiguous runs ----------

  ghost predicate Eligible(s: seq<Segment>, i: nat, j: nat, lower: int, upper: int)
    requires i < j <= |s|
  {
    if upper <= 0 then j == i + 1
    else lower <= Duration(s[i..j]) <= upper || (j == i + 1 && Duration(s[i..j]) > upper)
  }

  function RunRate(s: seq<Segment>, i: nat, j: nat): int
    requires i < j <= |s|
  {
    if Bytes(s[i..j]) < 0 then 0 else Rate(Bytes(s[i..j]), Duration(s[i..j]))
  }

  ghost predicate Bounds(s: seq<Segment>, lower: int, upper: int, peak: int) {
    forall i, j :: 0 <= i < j <= |s| && Eligible(s, i, j, lower, upper) ==> RunRate(s, i, j) <= peak
  }

  ghost predicate Attained(s: seq<Segment>, lower: int, upper: int, peak: int) {
    peak == 0 || exists i, j :: 0 <= i < j <= |s| && Eligible(s, i, j, lower, upper) && RunRate(s, i, j) == peak
  }

  ghost predicate IsPeak(s: seq<Segment>, lower: int, upper: int, peak: int) { peak >= 0 && Bounds(s, lower, upper, peak) && Attained(s, lower, upper, peak) }

  // ---------- The same against the target itself ----------

  // A run of half to one and a half targets, both rounded down, or a Segment that is longer; without a target, any Segment.
  ghost predicate EligibleFor(s: seq<Segment>, i: nat, j: nat, target: int)
    requires i < j <= |s|
  {
    var d := Duration(s[i..j]);
    if target <= 0 then j == i + 1
    else target - 1 <= 2 * d <= 3 * target || (j == i + 1 && 2 * d > 3 * target)
  }

  // r thousand bits a second: in this time r + 1 thousand would be more than these bytes.
  ghost predicate RateIs(bytes: int, nanoseconds: int, r: int) { r * nanoseconds <= 8000000 * bytes < (r + 1) * nanoseconds }

  // Rates that do not fit 64 bits count as zero.
  ghost predicate RunRateIs(s: seq<Segment>, i: nat, j: nat, r: int)
    requires i < j <= |s|
  {
    (r <= INT64_MAX && RateIs(Bytes(s[i..j]), Duration(s[i..j]), r)) || (r == 0 && exists q :: q > INT64_MAX && RateIs(Bytes(s[i..j]), Duration(s[i..j]), q))
  }

  ghost predicate PeakFor(s: seq<Segment>, target: int, peak: int) {
    && peak >= 0
    && (forall i, j :: 0 <= i < j <= |s| && EligibleFor(s, i, j, target) ==> exists r :: r <= peak && RunRateIs(s, i, j, r))
    && (peak == 0 || exists i, j :: 0 <= i < j <= |s| && EligibleFor(s, i, j, target) && RunRateIs(s, i, j, peak))
  }

  lemma EligibleExactly(s: seq<Segment>, i: nat, j: nat, target: int)
    requires i < j <= |s|
    ensures Eligible(s, i, j, Lower(target), Upper(target)) <==> EligibleFor(s, i, j, target)
  {
  }

  lemma RateExactly(bytes: int, nanoseconds: int)
    requires bytes >= 0 && nanoseconds > 0
    ensures RateIs(bytes, nanoseconds, Truncated(bytes, nanoseconds))
  {
    var q := Truncated(bytes, nanoseconds);
    QuotientBelow(bytes * 8000000000, nanoseconds * 1000, q);
    QuotientBelow(bytes * 8000000000, nanoseconds * 1000, q - 1);
    Thousandfold(q, nanoseconds);
    Thousandfold(q + 1, nanoseconds);
  }

  lemma Thousandfold(q: int, n: int)
    ensures q * (n * 1000) == 1000 * (q * n)
  {
  }

  lemma {:induction false} RunRateExactly(s: seq<Segment>, i: nat, j: nat)
    requires Measured(s) && i < j <= |s|
    ensures RunRateIs(s, i, j, RunRate(s, i, j))
  {
    BytesNonNegative(s[i..j]);
    RateExactly(Bytes(s[i..j]), Duration(s[i..j]));
  }

  /** The peak kept for these bounds is the greatest rate of a run that the target admits. */
  lemma {:induction false} PeakExactly(s: seq<Segment>, target: int, peak: int)
    requires Measured(s) && IsPeak(s, Lower(target), Upper(target), peak)
    ensures PeakFor(s, target, peak)
  {
    forall i, j | 0 <= i < j <= |s| && EligibleFor(s, i, j, target) ensures exists r :: r <= peak && RunRateIs(s, i, j, r) {
      EligibleExactly(s, i, j, target);
      RunRateExactly(s, i, j);
      assert RunRate(s, i, j) <= peak;
    }
    if peak != 0 {
      var i, j :| 0 <= i < j <= |s| && Eligible(s, i, j, Lower(target), Upper(target)) && RunRate(s, i, j) == peak;
      EligibleExactly(s, i, j, target);
      RunRateExactly(s, i, j);
    }
  }

  // There is only one.
  lemma PeakUnique(s: seq<Segment>, lower: int, upper: int, p: int, q: int)
    requires IsPeak(s, lower, upper, p) && IsPeak(s, lower, upper, q)
    ensures p == q
  {
  }

  lemma {:induction false} BytesNonNegative(s: seq<Segment>)
    requires Measured(s)
    ensures Bytes(s) >= 0 && Duration(s) >= 0 && (s != [] ==> Duration(s) > 0)
  {
    if s != [] {
      BytesNonNegative(s[1..]);
    }
  }

  lemma {:induction false} Concatenate(a: seq<Segment>, b: seq<Segment>)
    ensures Bytes(a + b) == Bytes(a) + Bytes(b) && Duration(a + b) == Duration(a) + Duration(b)
  {
    if a != [] {
      assert (a + b)[1..] == a[1..] + b;
      Concatenate(a[1..], b);
    } else {
      assert a + b == b;
    }
  }

  lemma WholeTail(s: seq<Segment>, k: nat)
    requires k <= |s|
    ensures s[k..|s|] == s[k..]
  {
  }

  // Starting a run earlier makes it longer.
  lemma EarlierIsLonger(s: seq<Segment>, i: nat, k: nat)
    requires Measured(s) && i < k <= |s|
    ensures Duration(s[i..]) > Duration(s[k..])
  {
    assert s[i..] == s[i..k] + s[k..];
    Concatenate(s[i..k], s[k..]);
    BytesNonNegative(s[i..k]);
  }

  // Runs that end before the last Segment are runs of what came before.
  lemma OlderRun(s: seq<Segment>, x: Segment, i: nat, j: nat, lower: int, upper: int)
    requires i < j <= |s|
    ensures Eligible(s + [x], i, j, lower, upper) == Eligible(s, i, j, lower, upper) && RunRate(s + [x], i, j) == RunRate(s, i, j)
  {
    assert (s + [x])[i..j] == s[i..j];
  }

  // Every run ending at the last Segment and starting at k or later is bounded by the peak.
  ghost predicate BoundsFrom(s: seq<Segment>, k: nat, lower: int, upper: int, peak: int) {
    forall i :: k <= i < |s| && Eligible(s, i, |s|, lower, upper) ==> RunRate(s, i, |s|) <= peak
  }

  lemma NewPeak(s: seq<Segment>, x: Segment, lower: int, upper: int, before: int, peak: int)
    requires Bounds(s, lower, upper, before) && Attained(s, lower, upper, before) && 0 <= before <= peak
    requires BoundsFrom(s + [x], 0, lower, upper, peak) && (peak == before || Attained(s + [x], lower, upper, peak))
    ensures IsPeak(s + [x], lower, upper, peak)
  {
    var all := s + [x];
    forall i, j | 0 <= i < j <= |all| && Eligible(all, i, j, lower, upper)
      ensures RunRate(all, i, j) <= peak
    {
      if j <= |s| {
        OlderRun(s, x, i, j, lower, upper);
      }
    }
    if peak == before != 0 {
      var i, j :| 0 <= i < j <= |s| && Eligible(s, i, j, lower, upper) && RunRate(s, i, j) == before;
      OlderRun(s, x, i, j, lower, upper);
      assert Eligible(all, i, j, lower, upper) && RunRate(all, i, j) == peak;
    }
  }

  class Accumulator {
    const target: int
    const lower: int
    const upper: int
    var totalBytes: int
    var totalDuration: int
    var window: seq<Segment>
    var windowTime: int
    var maxBitRate: int
    ghost var all: seq<Segment>     // every measurement that counted

    // How many Segments are no longer in the window.
    ghost function Gone(): int reads this { |all| - |window| }

    ghost predicate Valid()
      reads this
    {
      Totals() && Peaks() && lower == Lower(target) && upper == Upper(target)
    }

    ghost predicate Totals()
      reads this
    {
      totalBytes == Bytes(all) && totalDuration == Duration(all)
    }

    ghost predicate Peaks()
      reads this
    {
      Measured(all) && IsPeak(all, lower, upper, maxBitRate) && (upper > 0 ==> WindowFits())
    }

    // The window is the end of the media; whatever was discarded is already too far back.
    ghost predicate WindowFits()
      reads this
    {
      && 0 <= Gone() && window == all[Gone()..] && windowTime == Duration(window)
      && (forall i :: 0 <= i < Gone() ==> Tail(all, i) > upper)
    }

    constructor (target: int)
      ensures Valid() && this.target == target && all == []
      ensures target >= 0 ==> 2 * lower <= target < 2 * lower + 2 && 2 * upper <= 3 * target < 2 * upper + 2
      ensures target < 0 ==> 2 * lower - 2 < target <= 2 * lower && 2 * upper - 2 < 3 * target <= 2 * upper
    {
      this.target, lower, upper := target, Lower(target), Upper(target);
      totalBytes, totalDuration, window, windowTime, maxBitRate, all := 0, 0, [], 0, 0, [];
    }

    method Consider(bytes: int, duration: int)
      requires bytes >= 0
      modifies this`maxBitRate
      ensures maxBitRate == if Rate(bytes, duration) > old(maxBitRate) then Rate(bytes, duration) else old(maxBitRate)
    {
      if Rate(bytes, duration) > maxBitRate {
        maxBitRate := Rate(bytes, duration);
      }
    }

    /** After any measurement the peak is the maximum over all runs so far, although only the window
        is kept. */
    method Add(segment: Segment)
      requires Valid()
      modifies this
      ensures Valid()
      ensures all == if segment.duration <= 0 || segment.bytes < 0 then old(all) else old(all) + [segment]
      ensures PeakFor(all, target, maxBitRate)
    {
      AddCounted(segment);
      PeakExactly(all, target, maxBitRate);
    }

    method AddCounted(segment: Segment)
      requires Valid()
      modifies this
      ensures Valid()
      ensures all == if segment.duration <= 0 || segment.bytes < 0 then old(all) else old(all) + [segment]
    {
      if segment.duration <= 0 || segment.bytes < 0 {
        return;
      }
      Concatenate(all, [segment]);
      totalBytes, totalDuration := totalBytes + segment.bytes, totalDuration + segment.duration;
      if upper <= 0 {
        AddSingle(segment);
      } else {
        Append(segment);
        Scan();
        Prune();
      }
    }

    // Without a target every Segment is its own run.
    method AddSingle(x: Segment)
      requires Peaks() && upper <= 0 && x.duration > 0 && x.bytes >= 0
      modifies this`maxBitRate, this`all
      ensures Peaks() && all == old(all) + [x]
    {
      Consider(x.bytes, x.duration);
      all := all + [x];
      assert all[|all| - 1..|all|] == [x];
      One(x);
      assert RunRate(all, |all| - 1, |all|) == Rate(x.bytes, x.duration);
      assert Eligible(all, |all| - 1, |all|, lower, upper);
      NewPeak(old(all), x, lower, upper, old(maxBitRate), maxBitRate);
    }

    method Append(x: Segment)
      requires Peaks() && upper > 0 && x.duration > 0 && x.bytes >= 0
      modifies this`window, this`windowTime, this`all
      ensures WindowFits() && Measured(all) && all == old(all) + [x] && window != []
      ensures IsPeak(all[..|all| - 1], lower, upper, maxBitRate)
    {
      ghost var gone := Gone();
      Concatenate(window, [x]);
      window, windowTime, all := window + [x], windowTime + x.duration, all + [x];
      assert all[gone..] == old(all)[gone..] + [x];
      forall i | 0 <= i < gone ensures Tail(all, i) > upper {
        assert all[i..] == old(all)[i..] + [x] && Tail(old(all), i) > upper;
        Concatenate(old(all)[i..], [x]);
      }
      assert all[..|all| - 1] == old(all);
    }

    // Tries every run that ends with the newest Segment, growing it backwards.
    method Scan()
      requires WindowFits() && Measured(all) && window != [] && upper > 0 && IsPeak(all[..|all| - 1], lower, upper, maxBitRate)
      modifies this`maxBitRate
      ensures IsPeak(all, lower, upper, maxBitRate)
    {
      TryRuns();
      assert all == all[..|all| - 1] + [all[|all| - 1]];
      NewPeak(all[..|all| - 1], all[|all| - 1], lower, upper, old(maxBitRate), maxBitRate);
    }

    method TryRuns()
      requires WindowFits() && Measured(all) && window != [] && upper > 0
      modifies this`maxBitRate
      ensures BoundsFrom(all, 0, lower, upper, maxBitRate)
      ensures old(maxBitRate) <= maxBitRate && (maxBitRate == old(maxBitRate) || Attained(all, lower, upper, maxBitRate))
    {
      var bytes, duration, index, far := 0, 0, |window|, false;
      while index > 0 && !far
        invariant 0 <= index <= |window|
        invariant bytes == TailBytes(window, index) && duration == Tail(window, index)
        invariant BoundsFrom(all, if far then 0 else Gone() + index, lower, upper, maxBitRate)
        invariant old(maxBitRate) <= maxBitRate && (maxBitRate == old(maxBitRate) || Attained(all, lower, upper, maxBitRate))
      {
        index := index - 1;
        bytes, duration, far := Extend(index, bytes, duration);
      }
      if !far && Gone() > 0 {
        TooFarBack(Gone() - 1);
      }
    }

    // One run more, starting at this Segment; far when it is longer than any run may be.
    method Extend(index: nat, bytes: int, duration: int) returns (moreBytes: int, longer: int, far: bool)
      requires WindowFits() && Measured(all) && upper > 0 && index < |window|
      requires bytes == TailBytes(window, index + 1) && duration == Tail(window, index + 1)
      requires BoundsFrom(all, Gone() + index + 1, lower, upper, maxBitRate)
      modifies this`maxBitRate
      ensures moreBytes == TailBytes(window, index) && longer == Tail(window, index)
      ensures BoundsFrom(all, if far then 0 else Gone() + index, lower, upper, maxBitRate)
      ensures old(maxBitRate) <= maxBitRate && (maxBitRate == old(maxBitRate) || Attained(all, lower, upper, maxBitRate))
    {
      ghost var i := Gone() + index;
      Grow(index);
      moreBytes, longer, far := bytes + window[index].bytes, duration + window[index].duration, false;
      if longer > upper {
        if index == |window| - 1 {
          TryRun(i, moreBytes, longer);
        }
        TooFarBack(i);
        far := true;
      } else if longer >= lower {
        TryRun(i, moreBytes, longer);
      }
    }

    method TryRun(ghost i: nat, bytes: int, duration: int)
      requires Measured(all) && i < |all| && Eligible(all, i, |all|, lower, upper)
      requires bytes == Bytes(all[i..|all|]) >= 0 && duration == Duration(all[i..|all|])
      requires BoundsFrom(all, i + 1, lower, upper, maxBitRate)
      modifies this`maxBitRate
      ensures old(maxBitRate) <= maxBitRate && (maxBitRate == old(maxBitRate) || Attained(all, lower, upper, maxBitRate))
      ensures BoundsFrom(all, i, lower, upper, maxBitRate)
    {
      Consider(bytes, duration);
      assert RunRate(all, i, |all|) == Rate(bytes, duration);
    }

    // The run that starts one Segment earlier.
    lemma Grow(index: nat)
      requires WindowFits() && Measured(all) && index < |window|
      ensures var i := Gone() + index;
        && TailBytes(window, index) == Bytes(all[i..|all|]) >= 0 && Tail(window, index) == Duration(all[i..|all|]) == Tail(all, i)
        && TailBytes(window, index) == window[index].bytes + TailBytes(window, index + 1)
        && Tail(window, index) == window[index].duration + Tail(window, index + 1)
    {
      var i := Gone() + index;
      assert window[index..][1..] == window[index + 1..];
      assert all[i..] == window[index..] && all[i..|all|] == window[index..];
      BytesNonNegative(window[index..]);
    }

    // Once a run is too long, every run that starts earlier is too.
    lemma TooFarBack(i: nat)
      requires Measured(all) && i < |all| && Tail(all, i) > upper > 0
      ensures forall k :: 0 <= k < i ==> !Eligible(all, k, |all|, lower, upper)
      ensures i < |all| - 1 ==> !Eligible(all, i, |all|, lower, upper)
    {
      assert all[i..|all|] == all[i..];
      forall k | 0 <= k < i ensures !Eligible(all, k, |all|, lower, upper) {
        WholeTail(all, k);
        EarlierIsLonger(all, k, i);
      }
    }

    // A prefix that is outside the longest run cannot come back.
    method Prune()
      requires WindowFits() && Measured(all) && window != [] && upper > 0 && IsPeak(all, lower, upper, maxBitRate)
      modifies this`window, this`windowTime
      ensures Peaks()
    {
      while |window| > 1 && windowTime > upper
        invariant WindowFits() && window != []
      {
        ghost var gone := Gone();
        assert all[gone..][1..] == all[gone + 1..] && Tail(all, gone) == windowTime;
        assert Duration(window) == window[0].duration + Duration(window[1..]);
        windowTime, window := windowTime - window[0].duration, window[1..];
        assert Gone() == gone + 1;
      }
    }

    /** The average over everything and the peak over all runs, which is the average when no run was
        long enough. */
    method Result() returns (average: int, peak: int, ok: bool)
      requires Valid()
      ensures ok == (all != [])
      ensures ok ==> RunRateIs(all, 0, |all|, average)
      ensures ok ==> exists p :: PeakFor(all, target, p) && peak == if p == 0 then average else p
    {
      BytesNonNegative(all);
      assert all[0..|all|] == all;
      if totalDuration <= 0 {
        return 0, 0, false;
      }
      RunRateExactly(all, 0, |all|);
      PeakExactly(all, target, maxBitRate);
      average, peak := Rate(totalBytes, totalDuration), maxBitRate;
      if peak == 0 {
        peak := average;
      }
      return average, peak, true;
    }
  }

  // ---------- When the peak is not below the average ----------

  function Average(s: seq<Segment>): int { if Bytes(s) < 0 then 0 else Rate(Bytes(s), Duration(s)) }

  // The rate of every eligible run fits 64 bits.
  ghost predicate Fits(s: seq<Segment>, lower: int, upper: int) {
    && Measured(s)
    && forall i, j :: 0 <= i < j <= |s| && Eligible(s, i, j, lower, upper) ==> Within(s, i, j)
  }

  ghost predicate Within(s: seq<Segment>, i: nat, j: nat)
    requires i < j <= |s|
  {
    Bytes(s[i..j]) >= 0 && Duration(s[i..j]) > 0 && Truncated(Bytes(s[i..j]), Duration(s[i..j])) <= INT64_MAX
  }

  // Can the first j Segments be cut into eligible runs?
  ghost predicate Cuts(s: seq<Segment>, j: nat, lower: int, upper: int)
    requires j <= |s|
  {
    j == 0 || exists i: nat :: i < j && Cuts(s, i, lower, upper) && Eligible(s, i, j, lower, upper)
  }

  lemma QuotientBelow(a: int, d: int, p: int)
    requires a >= 0 && d > 0
    ensures Quotient(a, d) <= p <==> a < (p + 1) * d
  {
    var q := Quotient(a, d);
    assert a == q * d + a % d;
    if q <= p { Monotone(d, q + 1, p + 1); } else { Monotone(d, p + 1, q); }
  }

  lemma Monotone(d: int, x: int, y: int)
    requires d >= 0 && x <= y
    ensures x * d <= y * d
  {
  }

  lemma Distribute(a: int, b: int, c: int)
    ensures a * (b + c) == a * b + a * c
  {
  }

  // The mediant inequality: if no run of a cut is above p, neither is what they make up.
  lemma {:induction false} Mediant(s: seq<Segment>, j: nat, lower: int, upper: int, p: int)
    requires Fits(s, lower, upper) && 0 < j <= |s| && Cuts(s, j, lower, upper) && Bounds(s, lower, upper, p)
    ensures Bytes(s[..j]) * 8000000000 < (p + 1) * (Duration(s[..j]) * 1000)
  {
    var i: nat :| i < j && Cuts(s, i, lower, upper) && Eligible(s, i, j, lower, upper);
    assert Within(s, i, j) && RunRate(s, i, j) <= p;
    QuotientBelow(Bytes(s[i..j]) * 8000000000, Duration(s[i..j]) * 1000, p);
    assert s[..j] == s[..i] + s[i..j];
    Concatenate(s[..i], s[i..j]);
    if i > 0 {
      Mediant(s, i, lower, upper, p);
      Distribute(p + 1, Duration(s[..i]) * 1000, Duration(s[i..j]) * 1000);
    } else {
      assert s[..i] == [];
    }
  }

  /** If the Segments can be cut into eligible runs, the peak is at least the average. */
  lemma {:induction false} PeakReachesAverage(s: seq<Segment>, lower: int, upper: int, p: int)
    requires Fits(s, lower, upper) && s != [] && Cuts(s, |s|, lower, upper) && Bounds(s, lower, upper, p) && p >= 0
    ensures Average(s) <= p
  {
    assert s[..|s|] == s;
    Mediant(s, |s|, lower, upper, p);
    BytesNonNegative(s);
    QuotientBelow(Bytes(s) * 8000000000, Duration(s) * 1000, p);
  }

  lemma {:induction false} One(x: Segment)
    ensures Bytes([x]) == x.bytes && Duration([x]) == x.duration
  {
    assert [x][1..] == [];
    assert Bytes([]) == 0 && Duration([]) == 0;
  }

  lemma {:induction false} SinglesCut(s: seq<Segment>, j: nat, lower: int, upper: int)
    requires j <= |s| && (upper > 0 ==> forall k :: 0 <= k < |s| ==> s[k].duration >= lower)
    ensures Cuts(s, j, lower, upper)
  {
    if j > 0 {
      SinglesCut(s, j - 1, lower, upper);
      assert s[j - 1..j] == [s[j - 1]];
      One(s[j - 1]);
      assert Eligible(s, j - 1, j, lower, upper);
    }
  }

  // In particular when every Segment lasts at least half the target.
  lemma PeakAtLeastAverage(s: seq<Segment>, lower: int, upper: int, peak: int)
    requires Fits(s, lower, upper) && s != [] && IsPeak(s, lower, upper, peak)
    requires upper > 0 ==> forall k :: 0 <= k < |s| ==> s[k].duration >= lower
    ensures Average(s) <= peak
  {
    SinglesCut(s, |s|, lower, upper);
    PeakReachesAverage(s, lower, upper, peak);
  }

  // ---------- And when it can be below ----------

  ghost predicate SameDurations(s: seq<Segment>, t: seq<Segment>) {
    |s| == |t| && forall k :: 0 <= k < |s| ==> s[k].duration == t[k].duration
  }

  // Zero where a cut can end, one elsewhere.
  ghost function Marks(s: seq<Segment>, lower: int, upper: int): (marks: seq<int>)
    ensures |marks| == |s| + 1
  {
    seq(|s| + 1, j requires 0 <= j <= |s| => if Cuts(s, j, lower, upper) then 0 else 1)
  }

  // The product, by repeated addition.
  function Times(c: int, x: int): int
    decreases if x < 0 then -x else x
  {
    if x == 0 then 0 else if x > 0 then Times(c, x - 1) + c else Times(c, x + 1) - c
  }

  lemma {:induction false} TimesIs(c: int, x: int)
    ensures Times(c, x) == c * x
    decreases if x < 0 then -x else x
  {
    if x > 0 {
      TimesIs(c, x - 1);
      Distribute(c, x - 1, 1);
    } else if x < 0 {
      TimesIs(c, x + 1);
      Distribute(c, x + 1, -1);
    }
  }

  // Bytes at c for each nanosecond, and c more where the marks rise, c fewer where they fall.
  function Moved(s: seq<Segment>, c: int, marks: seq<int>): (t: seq<Segment>)
    requires |marks| == |s| + 1
    ensures SameDurations(s, t)
  {
    seq(|s|, k requires 0 <= k < |s| => Segment(Times(c, s[k].duration + (marks[k + 1] - marks[k])), s[k].duration))
  }

  lemma Peel(s: seq<Segment>, i: nat, j: nat)
    requires i < j <= |s|
    ensures Bytes(s[i..j]) == s[i].bytes + Bytes(s[i + 1..j]) && Duration(s[i..j]) == s[i].duration + Duration(s[i + 1..j])
  {
    assert s[i..j][1..] == s[i + 1..j];
  }

  lemma {:induction false} MovedSums(s: seq<Segment>, c: int, marks: seq<int>, i: nat, j: nat)
    requires |marks| == |s| + 1 && i <= j <= |s|
    ensures var t := Moved(s, c, marks);
      Duration(t[i..j]) == Duration(s[i..j]) && Bytes(t[i..j]) == Times(c, Duration(s[i..j]) + (marks[j] - marks[i]))
    decreases j - i
  {
    var t := Moved(s, c, marks);
    if i < j {
      Peel(s, i, j);
      Peel(t, i, j);
      MovedSums(s, c, marks, i + 1, j);
      var first, rest := s[i].duration, Duration(s[i + 1..j]);
      assert t[i].bytes == Times(c, first + (marks[i + 1] - marks[i]));
      MovedStep(c, first, rest, marks[i], marks[i + 1], marks[j]);
      assert Duration(s[i..j]) + (marks[j] - marks[i]) == first + rest + (marks[j] - marks[i]);
    } else {
      assert t[i..j] == [] && s[i..j] == [];
    }
  }

  lemma MovedStep(c: int, first: int, rest: int, u: int, v: int, w: int)
    ensures Times(c, first + (v - u)) + Times(c, rest + (w - v)) == Times(c, first + rest + (w - u))
  {
    TimesIs(c, first + (v - u));
    TimesIs(c, rest + (w - v));
    TimesIs(c, first + rest + (w - u));
    Distribute(c, first + (v - u), rest + (w - v));
  }

  // Nanoseconds at c bytes each are 8000000 c thousand bits per second.
  lemma FlatRate(bytes: int, d: int, c: int)
    requires 0 <= bytes && d > 0
    ensures bytes <= c * d ==> Truncated(bytes, d) <= 8000000 * c
    ensures bytes == c * d + c && 8000000 * c >= d ==> Truncated(bytes, d) > 8000000 * c
  {
    QuotientBelow(bytes * 8000000000, d * 1000, 8000000 * c);
    assert (8000000 * c + 1) * (d * 1000) == 8000000000 * (c * d) + d * 1000;
  }

  lemma MarksFall(s: seq<Segment>, lower: int, upper: int, i: nat, j: nat)
    requires i < j <= |s| && Eligible(s, i, j, lower, upper)
    ensures var marks := Marks(s, lower, upper); -1 <= marks[j] - marks[i] <= 0
  {
  }

  lemma Scaled(c: int, d: int, w: int)
    requires c >= 0 && d + w >= 0 && w <= 0
    ensures 0 <= Times(c, d + w) <= c * d
  {
    TimesIs(c, d + w);
    Monotone(c, 0, d + w);
    Monotone(c, d + w, d);
  }

  lemma {:induction false} MovedRun(s: seq<Segment>, c: nat, marks: seq<int>, i: nat, j: nat)
    requires Measured(s) && |marks| == |s| + 1 && i < j <= |s| && -1 <= marks[j] - marks[i] <= 0
    ensures var t := Moved(s, c, marks);
      Bytes(t[i..j]) >= 0 && Duration(t[i..j]) > 0 && Truncated(Bytes(t[i..j]), Duration(t[i..j])) <= 8000000 * c
  {
    MovedSums(s, c, marks, i, j);
    BytesNonNegative(s[i..j]);
    Scaled(c, Duration(s[i..j]), marks[j] - marks[i]);
    FlatRate(Bytes(Moved(s, c, marks)[i..j]), Duration(s[i..j]), c);
  }

  lemma {:induction false} MovedMeasured(s: seq<Segment>, c: nat, marks: seq<int>)
    requires Measured(s) && |marks| == |s| + 1 && forall k :: 0 <= k < |s| ==> marks[k + 1] - marks[k] >= -1
    ensures Measured(Moved(s, c, marks))
  {
    var t := Moved(s, c, marks);
    forall k | 0 <= k < |t| ensures t[k].duration > 0 && t[k].bytes >= 0 {
      Scaled(c, s[k].duration + (marks[k + 1] - marks[k]), 0);
    }
  }

  lemma {:induction false} MovedBounds(s: seq<Segment>, c: nat, lower: int, upper: int)
    requires Measured(s) && 8000000 * c <= INT64_MAX
    ensures var t := Moved(s, c, Marks(s, lower, upper)); Fits(t, lower, upper) && Bounds(t, lower, upper, 8000000 * c)
  {
    var marks := Marks(s, lower, upper);
    var t := Moved(s, c, marks);
    MovedMeasured(s, c, marks);
    forall i, j | 0 <= i < j <= |t| && Eligible(t, i, j, lower, upper) ensures Within(t, i, j) && RunRate(t, i, j) <= 8000000 * c {
      DurationAlike(s[i..j], t[i..j]);
      MarksFall(s, lower, upper, i, j);
      MovedRun(s, c, marks, i, j);
    }
  }

  // Below any bound there is the peak.
  lemma {:induction false} PeakBelow(s: seq<Segment>, lower: int, upper: int, p: int)
    requires p >= 0 && Bounds(s, lower, upper, p)
    ensures exists q :: q <= p && IsPeak(s, lower, upper, q)
    decreases p
  {
    if Attained(s, lower, upper, p) {
      assert IsPeak(s, lower, upper, p);
    } else {
      forall i, j | 0 <= i < j <= |s| && Eligible(s, i, j, lower, upper) ensures RunRate(s, i, j) <= p - 1 {
        assert RunRate(s, i, j) != p;
      }
      PeakBelow(s, lower, upper, p - 1);
    }
  }

  // Where no cut exists, some sizes put the peak below the average.
  lemma {:induction false} UncutFails(s: seq<Segment>, lower: int, upper: int)
    requires Measured(s) && s != [] && Duration(s) <= INT64_MAX / 2 - 8000000 && !Cuts(s, |s|, lower, upper)
    ensures exists t, peak :: SameDurations(s, t) && Fits(t, lower, upper) && IsPeak(t, lower, upper, peak) && Average(t) > peak
  {
    BytesNonNegative(s);
    var d := Duration(s);
    var c := d / 8000000 + 1;
    var t := Moved(s, c, Marks(s, lower, upper));
    MovedBounds(s, c, lower, upper);
    PeakBelow(t, lower, upper, 8000000 * c);
    var peak :| peak <= 8000000 * c && IsPeak(t, lower, upper, peak);
    MovedAverage(s, c, lower, upper);
  }

  lemma {:induction false} MovedAverage(s: seq<Segment>, c: int, lower: int, upper: int)
    requires Measured(s) && s != [] && Duration(s) <= INT64_MAX / 2 - 8000000 && !Cuts(s, |s|, lower, upper)
    requires Duration(s) > 0 && c == Duration(s) / 8000000 + 1
    ensures Average(Moved(s, c, Marks(s, lower, upper))) > 8000000 * c
  {
    var d, marks := Duration(s), Marks(s, lower, upper);
    var t := Moved(s, c, marks);
    MovedSums(s, c, marks, 0, |s|);
    assert t[0..|s|] == t && s[0..|s|] == s;
    assert marks[|s|] - marks[0] == 1;
    TimesIs(c, d + 1);
    Distribute(c, d, 1);
    FlatRate(c * d + c, d, c);
    AverageFits(c, d);
  }

  lemma AverageFits(c: int, d: int)
    requires 0 < d <= INT64_MAX / 2 - 8000000 && c == d / 8000000 + 1
    ensures c * d + c >= 0 && Truncated(c * d + c, d) <= INT64_MAX
  {
    var n := d * 1000;
    Monotone(c, 1, d);
    assert c <= c * d && 16000000 * c <= INT64_MAX;
    Monotone(n, 16000000 * c, INT64_MAX);
    Regroup(c, d);
    QuotientBelow((c * d + c) * 8000000000, n, INT64_MAX);
  }

  lemma Regroup(c: int, d: int)
    ensures (16000000 * c) * (d * 1000) == 16000000000 * (c * d)
  {
  }

  /** The peak reaches the average whatever the Segments hold exactly when their durations can be cut into
      eligible runs. */
  lemma {:induction false} PeakReachesAverageExactly(s: seq<Segment>, lower: int, upper: int)
    requires Measured(s) && s != [] && Duration(s) <= INT64_MAX / 2 - 8000000
    ensures Cuts(s, |s|, lower, upper) <==>
      forall t, peak :: SameDurations(s, t) && Fits(t, lower, upper) && IsPeak(t, lower, upper, peak) ==> Average(t) <= peak
  {
    if Cuts(s, |s|, lower, upper) {
      forall t, peak | SameDurations(s, t) && Fits(t, lower, upper) && IsPeak(t, lower, upper, peak) ensures Average(t) <= peak {
        CutsAlike(s, t, |s|, lower, upper);
        PeakReachesAverage(t, lower, upper, peak);
      }
    } else {
      UncutFails(s, lower, upper);
    }
  }

  lemma {:induction false} DurationAlike(s: seq<Segment>, t: seq<Segment>)
    requires SameDurations(s, t)
    ensures Duration(s) == Duration(t)
  {
    if s != [] {
      DurationAlike(s[1..], t[1..]);
    }
  }

  lemma {:induction false} CutsAlike(s: seq<Segment>, t: seq<Segment>, j: nat, lower: int, upper: int)
    requires SameDurations(s, t) && j <= |s| && Cuts(s, j, lower, upper)
    ensures Cuts(t, j, lower, upper)
  {
    if j > 0 {
      var i: nat :| i < j && Cuts(s, i, lower, upper) && Eligible(s, i, j, lower, upper);
      CutsAlike(s, t, i, lower, upper);
      DurationAlike(s[i..j], t[i..j]);
      assert Eligible(t, i, j, lower, upper);
    }
  }

  // Here the only eligible run is the quiet one.
  lemma PeakBelowAverage()
    ensures var s, target := [Segment(1000000, 40), Segment(1, 200)], 100;
      IsPeak(s, Lower(target), Upper(target), 40000) && Rate(Bytes(s), Duration(s)) > 40000
  {
    var s := [Segment(1000000, 40), Segment(1, 200)];
    assert s[1..] == [Segment(1, 200)] && s[1..][1..] == [];
    assert s[0..1] == [Segment(1000000, 40)] && s[0..1][1..] == [];
    assert s[1..2] == [Segment(1, 200)] && s[0..2] == s && s[1..2][1..] == [];
    assert Duration([Segment(1, 200)]) == 200;
    assert Duration(s[0..1]) == 40 && Duration(s[1..2]) == 200 && Duration(s) == 240;
    assert Eligible(s, 1, 2, 50, 150) && RunRate(s, 1, 2) == 40000;
  }
}
