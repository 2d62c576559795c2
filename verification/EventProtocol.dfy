/** The language of ingest event streams: which record may follow which. A stream is legal when
    every record is allowed by what the records before it established; the lemmas below read
    the stream's promises off that definition (internal/cli/ingest_events.go,
    internal/ingestevent/codec.go, internal/ingest/object_summary.go). */
module EventProtocol {
  import opened ObjectResults

  datatype Phase = StorePhase | VerifyPhase

  // AccumulateObjectSummary's counters, bytes apart.
  datatype Summary = Summary(total: nat, ingested: nat, resumed: nat, rejected: nat, retracted: nat, stranded: nat, unattempted: nat,
    verified: nat, storageVerified: nat, readbackVerified: nat)
  {
    function Add(r: ObjectResult): Summary {
      var counted := match r.disposition
        case Ingested => this.(ingested := ingested + 1)
        case Resumed => this.(resumed := resumed + 1)
        case Rejected => this.(rejected := rejected + 1)
        case Retracted => this.(retracted := retracted + 1)
        case Stranded => this.(stranded := stranded + 1)
        case RegistrationIndeterminate => this.(stranded := stranded + 1)
        case _ => this.(unattempted := unattempted + 1);
      var checked := r.verification == Verified;
      counted.(total := total + 1, verified := if checked then verified + 1 else verified,
        storageVerified := if checked && r.verifiedBy == Storage then storageVerified + 1 else storageVerified,
        readbackVerified := if checked && r.verifiedBy == Readback then readbackVerified + 1 else readbackVerified)
    }
  }

  const EMPTY_SUMMARY := Summary(0, 0, 0, 0, 0, 0, 0, 0, 0, 0)

  datatype Outcome = RunSucceeded | RunPartial | RunFailed | RunInterrupted

  datatype Event =
    | Hello
    | RunStarted
    | InputDeclared(input: int)
    | ManifestFinished(totalInputs: nat)
    | InputStarted(input: int)
    | FlowPlanned(input: int, flow: string)
    | ObjectCompleted(input: int, flow: string, result: ObjectResult)
    | ProgressSnapshot(input: int, phase: Phase, revision: nat)
    | RetryScheduled
    | FlowCompleted(input: int, flow: string, summary: Summary)
    | Diagnostic
    | InputFinished(input: int, failed: bool)
    | CancellationRequested
    | RunFinished(outcome: Outcome, total: nat, succeeded: nat, failures: nat, retries: nat)

  // What a reader of the records so far knows.
  datatype View = View(
    greeted: bool,
    runStarted: bool,
    declared: nat,
    manifest: bool,
    started: set<int>,
    planned: set<(int, string)>,
    summaries: map<(int, string), Summary>,
    revisions: map<int, nat>,
    finished: map<int, bool>,
    cancelled: bool,
    retries: nat,
    closed: bool)
  {
    function SummaryOf(input: int, flow: string): Summary {
      if (input, flow) in summaries then summaries[(input, flow)] else EMPTY_SUMMARY
    }

    function RevisionOf(input: int): nat { if input in revisions then revisions[input] else 0 }

    predicate Allows(e: Event) {
      !closed && (greeted <==> !e.Hello?) &&
      match e
      case Hello => true
      case RunStarted => !runStarted
      case InputDeclared(i) => runStarted && !manifest && i == declared
      case ManifestFinished(n) => runStarted && !manifest && n == declared
      case InputStarted(i) => manifest && 0 <= i < declared && i !in started
      case FlowPlanned(i, f) => i in started && (i, f) !in planned
      case ObjectCompleted(i, f, r) => i in started
      case ProgressSnapshot(i, p, r) => i in started && i !in finished && RevisionOf(i) < r
      case RetryScheduled => true
      case FlowCompleted(i, f, s) => i in started && i !in finished && s == SummaryOf(i, f)
      case Diagnostic => true
      case InputFinished(i, _) => manifest && 0 <= i < declared && i !in finished
      case CancellationRequested => runStarted && !cancelled
      case RunFinished(outcome, total, succeeded, failures, n) =>
        && runStarted && manifest && total == declared && n == retries
        && (forall i :: 0 <= i < declared ==> i in finished)
        && failures == |Failures(finished)| && succeeded == |finished.Keys - Failures(finished)|
        && (outcome == RunSucceeded ==> failures == 0) && (outcome == RunPartial ==> succeeded > 0 && failures > 0)
        && (cancelled ==> outcome == RunInterrupted)
    }

    function After(e: Event): View {
      match e
      case Hello => this.(greeted := true)
      case RunStarted => this.(runStarted := true)
      case InputDeclared(_) => this.(declared := declared + 1)
      case ManifestFinished(_) => this.(manifest := true)
      case InputStarted(i) => this.(started := started + {i})
      case FlowPlanned(i, f) => this.(planned := planned + {(i, f)})
      case ObjectCompleted(i, f, r) => this.(summaries := summaries[(i, f) := SummaryOf(i, f).Add(r)])
      case ProgressSnapshot(i, _, r) => this.(revisions := revisions[i := r])
      case RetryScheduled => this.(retries := retries + 1)
      case FlowCompleted(_, _, _) => this
      case Diagnostic => this
      case InputFinished(i, failed) => this.(finished := finished[i := failed])
      case CancellationRequested => this.(cancelled := true)
      case RunFinished(_, _, _, _, _) => this.(closed := true)
    }
  }

  function Failures(finished: map<int, bool>): set<int> { set i | i in finished && finished[i] }

  const SILENCE := View(false, false, 0, false, {}, {}, map[], map[], map[], false, 0, false)

  function Replay(log: seq<Event>): View {
    if log == [] then SILENCE else Replay(log[..|log| - 1]).After(log[|log| - 1])
  }

  // Record k may stand where it stands.
  predicate AllowedAt(log: seq<Event>, k: nat)
    requires k < |log|
  {
    Replay(log[..k]).Allows(log[k])
  }

  predicate Legal(log: seq<Event>) {
    forall k :: 0 <= k < |log| ==> AllowedAt(log, k)
  }

  lemma {:induction false} Append(log: seq<Event>, e: Event)
    ensures Replay(log + [e]) == Replay(log).After(e)
    ensures Legal(log) && Replay(log).Allows(e) ==> Legal(log + [e])
  {
    var more := log + [e];
    assert more[..|log|] == log;
    if Legal(log) && Replay(log).Allows(e) {
      forall k | 0 <= k < |more| ensures AllowedAt(more, k) {
        if k < |log| {
          assert AllowedAt(log, k);
          assert more[..k] == log[..k];
        }
      }
    }
  }

  // ---------- What every legal stream promises ----------

  lemma LegalPrefix(log: seq<Event>, n: nat)
    requires Legal(log) && n <= |log|
    ensures Legal(log[..n])
  {
    forall k | 0 <= k < n ensures AllowedAt(log[..n], k) {
      assert AllowedAt(log, k);
      assert log[..n][..k] == log[..k];
    }
  }

  // A record leaves its trace in the view.
  ghost predicate Knows(v: View, e: Event) {
    match e
    case Hello => v.greeted
    case RunStarted => v.runStarted
    case ManifestFinished(_) => v.manifest
    case InputStarted(i) => i in v.started
    case FlowPlanned(i, f) => (i, f) in v.planned
    case ProgressSnapshot(i, _, r) => r <= v.RevisionOf(i)
    case InputFinished(i, _) => i in v.finished
    case CancellationRequested => v.cancelled
    case RunFinished(_, _, _, _, _) => v.closed
    case _ => true
  }

  lemma Learns(v: View, e: Event)
    ensures Knows(v.After(e), e)
  {
  }

  // Knowledge only grows.
  ghost predicate FlagsGrow(v: View, w: View) {
    && (v.greeted ==> w.greeted) && (v.runStarted ==> w.runStarted) && (v.manifest ==> w.manifest)
    && (v.cancelled ==> w.cancelled) && (v.closed ==> w.closed) && v.declared <= w.declared
  }

  ghost predicate SetsGrow(v: View, w: View) {
    && (forall i :: i in v.started ==> i in w.started) && (forall p :: p in v.planned ==> p in w.planned)
    && (forall i :: i in v.finished ==> i in w.finished)
  }

  ghost predicate RevisionsGrow(v: View, w: View) {
    forall i :: v.RevisionOf(i) <= w.RevisionOf(i)
  }

  lemma GrowsFlags(v: View, next: Event)
    ensures FlagsGrow(v, v.After(next))
  {
  }

  lemma GrowsSets(v: View, next: Event)
    ensures SetsGrow(v, v.After(next))
  {
  }

  lemma GrowsRevisions(v: View, next: Event)
    requires next.ProgressSnapshot? ==> v.RevisionOf(next.input) < next.revision
    ensures RevisionsGrow(v, v.After(next))
  {
  }

  lemma Keeps(v: View, w: View, e: Event)
    requires Knows(v, e) && FlagsGrow(v, w) && SetsGrow(v, w) && RevisionsGrow(v, w)
    ensures Knows(w, e)
  {
  }

  // What the reader knows about an earlier record is never forgotten.
  lemma {:induction false} Remembered(log: seq<Event>, k: nat, n: nat)
    requires Legal(log) && k < n <= |log|
    ensures Knows(Replay(log[..n]), log[k])
  {
    var rest := log[..n - 1];
    assert log[..n][..n - 1] == rest;
    if k == n - 1 {
      Learns(Replay(rest), log[k]);
    } else {
      Remembered(log, k, n - 1);
      assert AllowedAt(log, n - 1);
      GrowsFlags(Replay(rest), log[n - 1]);
      GrowsSets(Replay(rest), log[n - 1]);
      GrowsRevisions(Replay(rest), log[n - 1]);
      Keeps(Replay(rest), Replay(rest).After(log[n - 1]), log[k]);
    }
  }

  /** The only hello opens the stream, nothing follows run.finished, and no input finishes twice;
      the same for starts, plans, cancellation and the manifest. */
  lemma AtMostOnce(log: seq<Event>, j: nat, k: nat)
    requires Legal(log) && j < k < |log|
    ensures log[0] == Hello && !log[k].Hello?
    ensures !log[j].RunFinished?
    ensures log[j].InputFinished? && log[k].InputFinished? ==> log[j].input != log[k].input
    ensures log[j].InputStarted? && log[k].InputStarted? ==> log[j].input != log[k].input
    ensures log[j].FlowPlanned? && log[k].FlowPlanned? ==> log[j].input != log[k].input || log[j].flow != log[k].flow
    ensures !(log[j].CancellationRequested? && log[k].CancellationRequested?)
    ensures !(log[j].ManifestFinished? && log[k].ManifestFinished?)
    ensures !(log[j].RunStarted? && log[k].RunStarted?)
  {
    assert AllowedAt(log, 0) && AllowedAt(log, k);
    assert log[..0] == [];
    Remembered(log, j, k);
    Remembered(log, 0, k);
  }

  lemma VerdictStep(v: View, e: Event, i: int)
    ensures e.InputFinished? && e.input == i ==> i in v.After(e).finished && v.After(e).finished[i] == e.failed
    ensures !(e.InputFinished? && e.input == i) ==>
      (i in v.After(e).finished <==> i in v.finished) && (i in v.finished ==> v.After(e).finished[i] == v.finished[i])
  {
  }

  // An input the reader knows to be finished has a terminal record with that verdict,
  lemma {:induction false} VerdictRecorded(log: seq<Event>, n: nat, i: int) returns (k: nat)
    requires n <= |log| && i in Replay(log[..n]).finished
    ensures k < n && log[k] == InputFinished(i, Replay(log[..n]).finished[i])
  {
    assert log[..n][..n - 1] == log[..n - 1];
    VerdictStep(Replay(log[..n - 1]), log[n - 1], i);
    if log[n - 1].InputFinished? && log[n - 1].input == i {
      k := n - 1;
    } else {
      k := VerdictRecorded(log, n - 1, i);
    }
  }

  // and an input with a terminal record is known to be finished with its verdict.
  lemma {:induction false} VerdictKnown(log: seq<Event>, n: nat, k: nat)
    requires Legal(log) && k < n <= |log| && log[k].InputFinished?
    ensures log[k].input in Replay(log[..n]).finished && Replay(log[..n]).finished[log[k].input] == log[k].failed
  {
    var i := log[k].input;
    assert log[..n][..n - 1] == log[..n - 1];
    VerdictStep(Replay(log[..n - 1]), log[n - 1], i);
    if k < n - 1 {
      VerdictKnown(log, n - 1, k);
      AtMostOnce(log, k, n - 1);
    }
  }

  lemma {:induction false} StartedEarlier(log: seq<Event>, n: nat, i: int)
    requires n <= |log| && i in Replay(log[..n]).started
    ensures exists s :: 0 <= s < n && log[s] == InputStarted(i)
  {
    assert log[..n][..n - 1] == log[..n - 1];
    if log[n - 1] != InputStarted(i) {
      assert i in Replay(log[..n - 1]).started;
      StartedEarlier(log, n - 1, i);
    }
  }

  /** Progress lies between its input's start and finish, and its revisions strictly increase
      across both phases. */
  lemma ProgressOrdered(log: seq<Event>, k: nat)
    requires Legal(log) && k < |log| && log[k].ProgressSnapshot?
    ensures exists s :: 0 <= s < k && log[s] == InputStarted(log[k].input)
    ensures forall j :: 0 <= j < k && log[j].InputFinished? ==> log[j].input != log[k].input
    ensures forall j :: 0 <= j < k && log[j].ProgressSnapshot? && log[j].input == log[k].input ==> log[j].revision < log[k].revision
  {
    assert AllowedAt(log, k);
    StartedEarlier(log, k, log[k].input);
    forall j | 0 <= j < k
      ensures log[j].InputFinished? ==> log[j].input != log[k].input
      ensures log[j].ProgressSnapshot? && log[j].input == log[k].input ==> log[j].revision < log[k].revision
    {
      Remembered(log, j, k);
    }
  }

  // One of the first n records finishes this input.
  ghost predicate Finishes(log: seq<Event>, n: nat, i: int)
    requires n <= |log|
  {
    exists s :: 0 <= s < n && log[s].InputFinished? && log[s].input == i
  }

  lemma FinishStep(v: View, e: Event, i: int)
    requires i in v.After(e).finished && !(e.InputFinished? && e.input == i)
    ensures i in v.finished
  {
  }

  lemma {:induction false} FinishedEarlier(log: seq<Event>, n: nat, i: int)
    requires n <= |log| && i in Replay(log[..n]).finished
    ensures Finishes(log, n, i)
  {
    assert log[..n][..n - 1] == log[..n - 1];
    if !(log[n - 1].InputFinished? && log[n - 1].input == i) {
      FinishStep(Replay(log[..n - 1]), log[n - 1], i);
      FinishedEarlier(log, n - 1, i);
      var s :| 0 <= s < n - 1 && log[s].InputFinished? && log[s].input == i;
    }
  }

  lemma {:induction false} FinishedDeclared(log: seq<Event>, n: nat, i: int)
    requires Legal(log) && n <= |log| && i in Replay(log[..n]).finished
    ensures 0 <= i < Replay(log[..n]).declared
  {
    var v, e := Replay(log[..n - 1]), log[n - 1];
    assert log[..n][..n - 1] == log[..n - 1];
    assert AllowedAt(log, n - 1);
    GrowsFlags(v, e);
    if e.InputFinished? && e.input == i {
    } else {
      FinishStep(v, e, i);
      FinishedDeclared(log, n - 1, i);
    }
  }

  lemma {:induction false} InitialSegment(s: set<int>, n: nat)
    requires forall i :: i in s <==> 0 <= i < n
    ensures |s| == n
  {
    if n > 0 {
      InitialSegment(s - {n - 1}, n - 1);
      assert s == s - {n - 1} + {n - 1};
    } else {
      assert forall i :: i !in s;
      assert s == {};
    }
  }

  /** A stream that ends in run.finished: every declared input has its terminal record, total =
      succeeded + failed = declared, and a recorded cancellation decides the outcome. */
  lemma RunAccounted(log: seq<Event>, n: nat)
    requires Legal(log) && n < |log| && log[n].RunFinished?
    ensures log[n].total == log[n].succeeded + log[n].failures == Replay(log[..n]).declared
    ensures forall i :: 0 <= i < log[n].total ==> Finishes(log, n, i)
    ensures log[n].failures == |Failures(Replay(log[..n]).finished)|
    ensures log[n].outcome == RunSucceeded ==> log[n].failures == 0
    ensures forall j :: 0 <= j < n && log[j].CancellationRequested? ==> log[n].outcome == RunInterrupted
  {
    assert AllowedAt(log, n);
    forall j | 0 <= j < n && log[j].CancellationRequested? ensures log[n].outcome == RunInterrupted {
      Remembered(log, j, n);
    }
    var declared, finished := Replay(log[..n]).declared, Replay(log[..n]).finished;
    assert forall i :: 0 <= i < declared ==> i in finished;
    forall i | i in finished ensures 0 <= i < declared {
      FinishedDeclared(log, n, i);
    }
    InitialSegment(finished.Keys, declared);
    assert finished.Keys == Failures(finished) + (finished.Keys - Failures(finished));
    forall i | 0 <= i < declared
      ensures Finishes(log, n, i)
    {
      FinishedEarlier(log, n, i);
    }
  }

  // The Object records of one Flow, in order.
  function Streamed(log: seq<Event>, input: int, flow: string): seq<ObjectResult> {
    if log == [] then []
    else
      var e := log[|log| - 1];
      Streamed(log[..|log| - 1], input, flow) + if e.ObjectCompleted? && e.input == input && e.flow == flow then [e.result] else []
  }

  function Tally(results: seq<ObjectResult>): Summary {
    if results == [] then EMPTY_SUMMARY else Tally(results[..|results| - 1]).Add(results[|results| - 1])
  }

  lemma {:induction false} TallyStep(results: seq<ObjectResult>, r: ObjectResult)
    ensures Tally(results + [r]) == Tally(results).Add(r)
  {
    assert (results + [r])[..|results|] == results;
  }

  lemma SummaryStep(v: View, e: Event, input: int, flow: string)
    ensures v.After(e).SummaryOf(input, flow) ==
      if e.ObjectCompleted? && e.input == input && e.flow == flow then v.SummaryOf(input, flow).Add(e.result) else v.SummaryOf(input, flow)
  {
  }

  lemma {:induction false} SummaryIsTally(log: seq<Event>, input: int, flow: string)
    ensures Replay(log).SummaryOf(input, flow) == Tally(Streamed(log, input, flow))
  {
    if log != [] {
      var rest, e := log[..|log| - 1], log[|log| - 1];
      var seen := Streamed(rest, input, flow);
      SummaryIsTally(rest, input, flow);
      SummaryStep(Replay(rest), e, input, flow);
      if e.ObjectCompleted? && e.input == input && e.flow == flow {
        TallyStep(seen, e.result);
        assert Streamed(log, input, flow) == seen + [e.result];
      } else {
        assert Streamed(log, input, flow) == seen;
      }
    }
  }

  // A summary never loses an Object: its dispositions add up to its total.
  lemma {:induction false} TallyConserves(results: seq<ObjectResult>)
    ensures var s := Tally(results);
      s.total == |results| && s.ingested + s.resumed + s.rejected + s.retracted + s.stranded + s.unattempted == s.total
      && s.storageVerified + s.readbackVerified <= s.verified <= s.total
  {
    if results != [] {
      TallyConserves(results[..|results| - 1]);
    }
  }

  /** A Flow's terminal record counts exactly the Object records streamed for it before. */
  lemma FlowSummaryMatchesStream(log: seq<Event>, k: nat)
    requires Legal(log) && k < |log| && log[k].FlowCompleted?
    ensures log[k].summary == Tally(Streamed(log[..k], log[k].input, log[k].flow))
    ensures log[k].summary.total == |Streamed(log[..k], log[k].input, log[k].flow)|
  {
    assert AllowedAt(log, k);
    SummaryIsTally(log[..k], log[k].input, log[k].flow);
    TallyConserves(Streamed(log[..k], log[k].input, log[k].flow));
  }
}
