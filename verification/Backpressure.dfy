/** Pausing FFmpeg while closed Segments wait for their sink (internal/media/segment_staging.go:23-99,
    internal/media/segment.go:285-378). The directory size a measurement finds is arbitrary; a sink call
    is assumed to return. */
module Backpressure {
  import opened Text

  const MAX_PENDING := 64

  datatype Window = Window(low: int, high: int)

  // The controller's fields and what they did to the process.
  datatype Pressure = Pressure(window: Window, paused: bool, pending: int, stopped: bool)

  // A control call ends well, or fails and the whole run with it.
  datatype Outcome = Done(after: Pressure) | Error(after: Pressure)

  datatype Reading = Bytes(n: int) | Unreadable

  // Announcing a closed Segment.
  function Before(b: Pressure, reading: Reading, stopFails: bool): Outcome {
    var counted := b.(pending := b.pending + 1);
    match reading
    case Unreadable => Error(b)
    case Bytes(n) =>
      if !b.paused && (n >= b.window.high || counted.pending >= MAX_PENDING) then
        if stopFails then Error(b) else Done(counted.(paused := true, stopped := true))
      else Done(counted)
  }

  function Resumed(b: Pressure, resumeFails: bool): Outcome {
    if !b.paused then Done(b) else if resumeFails then Error(b) else Done(b.(paused := false, stopped := false))
  }

  // After a sink call, whatever it returned.
  function After(b: Pressure, reading: Reading, resumeFails: bool): Outcome {
    var less := b.(pending := b.pending - 1);
    if !less.paused then Done(less)
    else match reading
      case Unreadable => Error(Resumed(less, resumeFails).after)
      case Bytes(n) => if n <= less.window.low || less.pending == 0 then Resumed(less, resumeFails) else Done(less)
  }

  // The controller itself: its methods are those functions, applied in place.
  class SegmentBackpressure {
    const window: Window
    var paused: bool
    var pending: int
    var stopped: bool   // the process

    constructor (w: Window)
      ensures Valid() && window == w && Now() == Pressure(w, false, 0, false)
    {
      window, paused, pending, stopped := w, false, 0, false;
    }

    // The process stands exactly while the controller says so, and only while a Segment is on its way to the
    // sink, whose return will be the next chance to resume it.
    predicate Valid()
      reads this
    {
      stopped == paused && pending >= 0 && (paused ==> pending >= 1)
    }

    function Now(): Pressure
      reads this
    {
      Pressure(window, paused, pending, stopped)
    }

    // Counts the Segment as pending, and stops a running process at a high mark of bytes or Segments. The
    // Segment is asked to be flushed whenever the process stands; an error leaves everything as it was.
    method BeforeSink(reading: Reading, stopFails: bool) returns (flush: bool, failed: bool)
      modifies this
      ensures !failed ==> pending == old(pending) + 1 && flush == paused
      ensures !failed ==> reading.Bytes? && (paused <==> old(paused) || reading.n >= window.high || pending >= 64)
      ensures failed ==> unchanged(this)
      ensures failed <==> reading.Unreadable? || (stopFails && !old(paused) && (reading.n >= window.high || old(pending) + 1 >= 64))
      ensures old(Valid()) ==> Valid()
      ensures Before(old(Now()), reading, stopFails) == if failed then Error(Now()) else Done(Now())
    {
      pending := pending + 1;
      if reading.Unreadable? {
        pending := pending - 1;
        return false, true;
      }
      if !paused && (reading.n >= window.high || pending >= MAX_PENDING) {
        if stopFails {
          pending := pending - 1;
          return false, true;
        }
        paused, stopped := true, true;
      }
      return paused, false;
    }

    // One Segment fewer is pending. The process stands afterwards only if it stood before, the directory is
    // still above the low mark and another Segment is waiting; or if resuming it failed.
    method AfterSink(reading: Reading, resumeFails: bool) returns (failed: bool)
      modifies this
      ensures pending == old(pending) - 1
      ensures !failed ==> (paused <==> old(paused) && reading.Bytes? && reading.n > window.low && pending != 0)
      ensures failed ==> old(paused) && (reading.Unreadable? || resumeFails) && (paused <==> resumeFails)
      ensures old(paused) && (reading.Unreadable? || (resumeFails && (reading.n <= window.low || pending == 0))) ==> failed
      ensures old(Valid() && pending >= 1) && !failed ==> Valid()
      ensures After(old(Now()), reading, resumeFails) == if failed then Error(Now()) else Done(Now())
    {
      pending := pending - 1;
      if !paused {
        return false;
      }
      if reading.Unreadable? {
        var ignored := Resume(resumeFails);
        return true;
      }
      if reading.n <= window.low || pending == 0 {
        failed := Resume(resumeFails);
      } else {
        failed := false;
      }
    }

    // Afterwards the process runs, or the caller is told that it could not be resumed.
    method Resume(resumeFails: bool) returns (failed: bool)
      modifies this
      ensures pending == old(pending) && (paused <==> failed) && (failed <==> old(paused) && resumeFails)
      ensures old(Valid()) ==> Valid()
      ensures Resumed(old(Now()), resumeFails) == if failed then Error(Now()) else Done(Now())
    {
      if !paused {
        return false;
      }
      if resumeFails {
        return true;
      }
      paused, stopped := false, false;
      return false;
    }
  }

  // ---------- The segmenter around it ----------

  /** FFmpeg still has some Segments to close; some notices are in the manifest pipes; some parsers wait to
      enqueue what they announced; some records are queued; one may be in the sink. Once an error or a
      cancellation is recorded FFmpeg is killed and the records left are drained without their sink. */
  datatype State = State(pressure: Pressure, parsers: nat, unwritten: nat, piped: nat, sending: nat, queued: nat, sinking: bool,
    failed: bool, ended: bool)

  datatype Action =
    | Close                                                            // FFmpeg closes a Segment
    | Exit                                                             // FFmpeg ends early
    | Announce(reading: Reading, stopFails: bool)                      // a parser reads a notice
    | Malformed                                                        // or cannot read it
    | Enqueue
    | GiveUp                                                           // a parser sees that the run has failed
    | Lose                                                             // a notice nobody reads any more
    | Take
    | Finish(reading: Reading, resumeFails: bool, sinkFails: bool)     // the sink returns
    | Drain
    | Cancel
    | Shutdown(resumeFails: bool)

  // recordError: the first error continues the process and kills it.
  function Fail(s: State): State {
    if s.failed then s else s.(failed := true, unwritten := 0, pressure := s.pressure.(stopped := false))
  }

  function Recorded(s: State, outcome: Outcome): State {
    match outcome
    case Done(after) => s.(pressure := after)
    case Error(after) => Fail(s.(pressure := after))
  }

  // Can a parser read a notice now?
  predicate Reads(s: State) { s.piped > 0 && s.sending < s.parsers }

  // Every record and notice is gone.
  predicate Idle(s: State) { s.unwritten == s.piped == s.sending == s.queued == 0 && !s.sinking }

  // One step, or None where it cannot happen.
  function Next(s: State, a: Action): Option<State> {
    match a
    case Close => if s.unwritten > 0 && !s.pressure.stopped then Some(s.(unwritten := s.unwritten - 1, piped := s.piped + 1)) else None
    case Exit => if s.unwritten > 0 then Some(s.(unwritten := 0)) else None
    case Announce(reading, stopFails) =>
      if !Reads(s) then None
      else
        var outcome := Before(s.pressure, reading, stopFails);
        if outcome.Done? then Some(s.(pressure := outcome.after, piped := s.piped - 1, sending := s.sending + 1))
        else Some(Recorded(s.(piped := s.piped - 1, parsers := s.parsers - 1), outcome))
    case Malformed => if Reads(s) then Some(Fail(s.(piped := s.piped - 1, parsers := s.parsers - 1))) else None
    case Enqueue => if s.sending > 0 && s.queued < MAX_PENDING then Some(s.(sending := s.sending - 1, queued := s.queued + 1)) else None
    case GiveUp => if s.failed && s.sending > 0 then Some(s.(sending := s.sending - 1, parsers := if s.parsers > 0 then s.parsers - 1 else 0)) else None
    case Lose => if s.failed && s.piped > 0 then Some(s.(piped := s.piped - 1)) else None
    case Take => if !s.failed && s.queued > 0 && !s.sinking then Some(s.(queued := s.queued - 1, sinking := true)) else None
    case Finish(reading, resumeFails, sinkFails) =>
      if !s.sinking then None
      else
        var next := Recorded(s.(sinking := false), After(s.pressure, reading, resumeFails));
        Some(if sinkFails then Fail(next) else next)
    case Drain => if s.failed && s.queued > 0 && !s.sinking then Some(s.(queued := s.queued - 1)) else None
    case Cancel => if !s.failed && !s.ended then Some(s.(failed := true, unwritten := 0)) else None
    case Shutdown(resumeFails) =>
      if Idle(s) && !s.ended then Some(Recorded(s, Resumed(s.pressure, resumeFails)).(ended := true)) else None
  }

  function Run(s: State, actions: seq<Action>): Option<State>
    decreases |actions|
  {
    if actions == [] then Some(s)
    else match Next(s, actions[0])
      case None => None
      case Some(next) => Run(next, actions[1..])
  }

  predicate Initial(s: State) {
    s.pressure == Pressure(s.pressure.window, false, 0, false) && s.parsers >= 1 && s.piped == s.sending == s.queued == 0 && !s.sinking && !s.failed && !s.ended
  }

  // What was announced and has not come back from the sink.
  function Backlog(s: State): nat { s.sending + s.queued + if s.sinking then 1 else 0 }

  // Until something fails, pending counts the backlog and FFmpeg is stopped only while there is one.
  ghost predicate Inv(s: State) {
    && (s.pressure.stopped ==> s.pressure.paused)
    && (!s.failed ==> s.parsers >= 1 && s.pressure.pending == Backlog(s) && (s.pressure.stopped <==> s.pressure.paused))
    && (!s.failed && s.pressure.paused ==> s.pressure.pending >= 1)
    && (s.ended ==> Idle(s) && (s.failed || !s.pressure.paused))
  }

  lemma StepKeeps(s: State, a: Action)
    requires Inv(s) && Next(s, a).Some?
    ensures Inv(Next(s, a).value)
  {
  }

  // The steps left.
  function Work(s: State): nat {
    5 * s.unwritten + 4 * s.piped + 3 * s.sending + 2 * s.queued + (if s.sinking then 1 else 0) + (if s.failed then 0 else 1) + (if s.ended then 0 else 1)
  }

  lemma StepWorks(s: State, a: Action)
    requires Next(s, a).Some?
    ensures Work(Next(s, a).value) < Work(s)
  {
  }

  lemma {:induction false} RunKeeps(s: State, actions: seq<Action>)
    requires Inv(s) && Run(s, actions).Some?
    ensures Inv(Run(s, actions).value) && |actions| + Work(Run(s, actions).value) <= Work(s)
    decreases |actions|
  {
    if actions != [] {
      StepKeeps(s, actions[0]);
      StepWorks(s, actions[0]);
      RunKeeps(Next(s, actions[0]).value, actions[1..]);
    }
  }

  /** In every interleaving from the start, whatever fails: until something does, pending is the announced
      less the sunk, and a stopped FFmpeg has a Segment on its way to the sink. The run is no longer than
      five steps for each Segment and two more. */
  lemma {:induction false} EveryRun(start: State, actions: seq<Action>)
    requires Initial(start) && Run(start, actions).Some?
    ensures var s := Run(start, actions).value;
            && Inv(s)
            && (!s.failed ==> s.pressure.pending == Count(actions, Announced) - Count(actions, Sunk))
            && (!s.failed && s.pressure.stopped ==> Backlog(s) >= 1)
            && |actions| <= 5 * start.unwritten + 2
  {
    RunKeeps(start, actions);
    if !Run(start, actions).value.failed {
      PendingCounts(start, actions);
    }
  }

  /** A run that can go no further has shut down: nothing is left anywhere, and FFmpeg runs, or an error is
      reported. Without an error everything announced has been sunk. */
  lemma {:induction false} EveryRunEnds(start: State, actions: seq<Action>)
    requires Initial(start) && Run(start, actions).Some?
    requires forall a :: Next(Run(start, actions).value, a).None?
    ensures var s := Run(start, actions).value;
            && s.ended && Idle(s)
            && (!s.failed ==> !s.pressure.stopped && Count(actions, Announced) == Count(actions, Sunk))
  {
    EveryRun(start, actions);
    NeverStuck(Run(start, actions).value);
  }

  lemma NeverStuck(s: State)
    requires Inv(s) && forall a :: Next(s, a).None?
    ensures s.ended
  {
    assert Next(s, Close).None? && Next(s, Exit).None? && Next(s, Announce(Bytes(0), false)).None? && Next(s, Lose).None?;
    assert Next(s, Enqueue).None? && Next(s, GiveUp).None? && Next(s, Take).None? && Next(s, Drain).None?;
    assert Next(s, Finish(Bytes(0), false, false)).None? && Next(s, Shutdown(false)).None?;
  }

  // ---------- Resumption ----------

  predicate Announced(a: Action) { a.Announce? }
  predicate Sunk(a: Action) { a.Finish? }

  function Count(actions: seq<Action>, p: Action -> bool): nat {
    if actions == [] then 0 else (if p(actions[0]) then 1 else 0) + Count(actions[1..], p)
  }

  // An error, once recorded, stays.
  lemma {:induction false} FailureStays(s: State, actions: seq<Action>)
    requires Run(s, actions).Some? && s.failed
    ensures Run(s, actions).value.failed
    decreases |actions|
  {
    if actions != [] {
      FailureStays(Next(s, actions[0]).value, actions[1..]);
    }
  }

  lemma StepCounts(s: State, a: Action)
    requires Next(s, a).Some? && !Next(s, a).value.failed
    ensures Next(s, a).value.pressure.pending == s.pressure.pending + (if Announced(a) then 1 else 0) - (if Sunk(a) then 1 else 0)
  {
  }

  lemma {:induction false} PendingCounts(s: State, actions: seq<Action>)
    requires Run(s, actions).Some? && !Run(s, actions).value.failed
    ensures Run(s, actions).value.pressure.pending == s.pressure.pending + Count(actions, Announced) - Count(actions, Sunk)
    decreases |actions|
  {
    if actions != [] {
      var next := Next(s, actions[0]).value;
      if next.failed {
        FailureStays(next, actions[1..]);
      }
      PendingCounts(next, actions[1..]);
      StepCounts(s, actions[0]);
    }
  }

  // The step that ends the k first actions is a sink call that set FFmpeg running again.
  ghost predicate ResumedAt(s: State, actions: seq<Action>, k: int) {
    && 0 < k <= |actions| && actions[k - 1].Finish?
    && Run(s, actions[..k]).Some? && !Run(s, actions[..k]).value.pressure.stopped
    && Count(actions[..k], Sunk) <= s.pressure.pending + Count(actions[..k], Announced)
  }

  lemma {:induction false} RunFirst(s: State, actions: seq<Action>, k: nat)
    requires 0 < k <= |actions| && Next(s, actions[0]).Some?
    ensures Run(s, actions[..k]) == Run(Next(s, actions[0]).value, actions[1..][..k - 1])
    ensures Count(actions[..k], Sunk) == Count(actions[1..][..k - 1], Sunk) + if Sunk(actions[0]) then 1 else 0
    ensures Count(actions[..k], Announced) == Count(actions[1..][..k - 1], Announced) + if Announced(actions[0]) then 1 else 0
  {
    assert actions[..k][1..] == actions[1..][..k - 1] && actions[..k][0] == actions[0];
  }

  /** A stopped FFmpeg is resumed by a sink call, at the latest the one that sinks the last of what was
      pending or has been announced since, in every run that sinks them all without an error. */
  lemma {:induction false} StoppedIsResumed(s: State, actions: seq<Action>)
    requires Inv(s) && s.pressure.stopped && Run(s, actions).Some? && !Run(s, actions).value.failed
    requires Count(actions, Sunk) >= s.pressure.pending + Count(actions, Announced)
    ensures exists k :: ResumedAt(s, actions, k)
    decreases |actions|
  {
    if s.failed {
      FailureStays(s, actions);
    }
    if actions != [] {
      var next := Next(s, actions[0]).value;
      StepKeeps(s, actions[0]);
      if next.failed {
        FailureStays(next, actions[1..]);
      }
      if next.pressure.stopped {
        StoppedIsResumed(next, actions[1..]);
        var k :| ResumedAt(next, actions[1..], k);
        RunFirst(s, actions, k + 1);
        assert ResumedAt(s, actions, k + 1);
      } else {
        RunFirst(s, actions, 1);
        assert ResumedAt(s, actions, 1);
      }
    }
  }

  /** Whenever FFmpeg stands in an error-free run, it is resumed by a sink call before the run is over. */
  lemma {:induction false} StopIsTemporary(start: State, before: seq<Action>, after: seq<Action>)
    requires Initial(start) && Run(start, before).Some?
    requires var s := Run(start, before).value;
             s.pressure.stopped && Run(s, after).Some? && !Run(s, after).value.failed && forall a :: Next(Run(s, after).value, a).None?
    ensures exists k :: ResumedAt(Run(start, before).value, after, k)
  {
    RunKeeps(start, before);
    var s := Run(start, before).value;
    RunKeeps(s, after);
    NeverStuck(Run(s, after).value);
    PendingCounts(s, after);
    StoppedIsResumed(s, after);
  }
}
