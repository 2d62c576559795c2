/** The single serializer of an ingest's process events (internal/cli/ingest_events.go,
    internal/cli/ingest_event_progress.go). Every method holds the main lock throughout, so each is
    one step of a schedule; reporters take only the mailbox lock, so they may also run inside
    a step, wherever it is about to take that lock. */
module EventOutput {
  import opened ObjectResults
  import opened EventProtocol
  import opened EventMailbox
  import opened EventEncoder

  const EXIT_OK := 0
  const EXIT_GENERAL := 1
  const EXIT_INTERRUPTED := 8

  datatype FlowResult = FlowResult(flow: string, summary: Summary)
  datatype InputResult = InputResult(failed: bool, flows: seq<FlowResult>)

  type Sums = map<(int, string), Summary>

  // The serializer's own fields, guarded by the main lock.
  datatype Run = Run(
    runStarted: bool, manifest: bool, cancellation: bool, terminalFrozen: bool, interrupted: bool, finished: bool, exitCode: int,
    closed: bool, err: bool, declared: map<int, string>, startedInputs: set<int>, terminal: map<int, bool>,
    plannedFlows: set<(int, string)>, objectSummaries: Sums, retries: nat)

  // The fields are what a reader of the stream knows.
  ghost predicate Mirrors(run: Run, v: View, sums: Sums) {
    && v == View(true, run.runStarted, |run.declared|, run.manifest, run.startedInputs, run.plannedFlows, v.summaries,
        v.revisions, run.terminal, run.cancellation, run.retries, v.closed)
    && (!run.err ==> SameSums(v.summaries, sums))
  }

  function SumIn(sums: Sums, i: int, f: string): Summary {
    if (i, f) in sums then sums[(i, f)] else EMPTY_SUMMARY
  }

  ghost predicate SameSums(s: Sums, t: Sums) {
    forall i, f :: SumIn(s, i, f) == SumIn(t, i, f)
  }

  ghost predicate Ordered(run: Run) {
    && (forall i :: i in run.declared <==> 0 <= i < |run.declared|)
    && run.startedInputs <= run.declared.Keys && run.terminal.Keys <= run.declared.Keys
    && (|run.declared| > 0 || run.manifest || run.cancellation ==> run.runStarted)
    && (run.startedInputs + run.terminal.Keys != {} ==> run.manifest)
    && (run.terminalFrozen && run.cancellation ==> run.interrupted)
  }

  // Progress taken from the mailbox may be written without breaking the stream's rules.
  ghost predicate Linked(startedInputs: set<int>, terminal: map<int, bool>, revisions: map<int, nat>,
    pending: map<(int, Phase), Snapshot>, started: set<int>, sealed: set<int>, drained: map<int, nat>)
  {
    && started <= startedInputs
    && (forall i :: At(revisions, i) <= At(drained, i))
    && (forall i :: i in terminal ==> i in sealed)
    && (forall k :: k in pending ==> k.0 !in terminal)
  }

  // The first n inputs have their terminal records.
  ghost predicate Settled(terminal: map<int, bool>, n: int) { forall i :: 0 <= i < n ==> i in terminal }

  lemma SettledMore(terminal: map<int, bool>, n: int)
    requires Settled(terminal, n)
    ensures n in terminal ==> Settled(terminal, n + 1)
    ensures Settled(terminal[n := true], n + 1)
  {
  }

  // Nothing waits and nothing more can arrive.
  predicate Quiet(m: Mailbox)
    reads m`pending, m`started, m`sealed
  {
    m.pending == map[] && m.started <= m.sealed
  }

  // The summaries are an argument because a batch stores its own only when all its records are out.
  ghost predicate Inv(run: Run, v: View, sums: Sums) {
    Mirrors(run, v, sums) && Ordered(run)
  }

  lemma RunStartedKept(run: Run, v: View, sums: Sums)
    requires Inv(run, v, sums) && !run.err
    ensures Inv(run.(runStarted := true), v.After(RunStarted), sums)
  {
  }

  lemma DeclaredKept(run: Run, v: View, sums: Sums, name: string)
    requires Inv(run, v, sums) && run.runStarted
    ensures var i := |run.declared|; Inv(run.(declared := run.declared[i := name]), v.After(InputDeclared(i)), sums)
  {
    var i := |run.declared|;
    assert i !in run.declared;
    assert |run.declared[i := name]| == i + 1;
  }

  lemma ManifestKept(run: Run, v: View, sums: Sums, n: nat)
    requires Inv(run, v, sums) && run.runStarted
    ensures Inv(run.(manifest := true), v.After(ManifestFinished(n)), sums)
  {
  }

  lemma InputStartedKept(run: Run, v: View, sums: Sums, i: int)
    requires Inv(run, v, sums) && run.manifest && i in run.declared
    ensures Inv(run.(startedInputs := run.startedInputs + {i}), v.After(InputStarted(i)), sums)
  {
  }

  lemma FlowPlannedKept(run: Run, v: View, sums: Sums, i: int, f: string)
    requires Inv(run, v, sums)
    ensures Inv(run.(plannedFlows := run.plannedFlows + {(i, f)}), v.After(FlowPlanned(i, f)), sums)
  {
  }

  lemma SumsStep(s: Sums, t: Sums, i: int, f: string, sum: Summary)
    requires SameSums(s, t)
    ensures SameSums(s[(i, f) := sum], t[(i, f) := sum])
  {
    forall j: int, g: string {:trigger SumIn(s, j, g)}
      ensures SumIn(s[(i, f) := sum], j, g) == SumIn(t[(i, f) := sum], j, g)
    {
      assert SumIn(s, j, g) == SumIn(t, j, g);
    }
  }

  lemma ObjectKept(run: Run, v: View, sums: Sums, i: int, f: string, r: ObjectResult)
    requires Inv(run, v, sums)
    ensures Inv(run, v.After(ObjectCompleted(i, f, r)), sums[(i, f) := SumIn(sums, i, f).Add(r)])
  {
    if !run.err {
      assert v.SummaryOf(i, f) == SumIn(v.summaries, i, f) == SumIn(sums, i, f);
      SumsStep(v.summaries, sums, i, f, v.SummaryOf(i, f).Add(r));
    }
  }

  lemma ProgressKept(run: Run, v: View, sums: Sums, s: Snapshot)
    requires Inv(run, v, sums)
    ensures Inv(run, v.After(s.Record()), sums)
  {
  }

  lemma RetryKept(run: Run, v: View, sums: Sums)
    requires Inv(run, v, sums)
    ensures Inv(run.(retries := run.retries + 1), v.After(RetryScheduled), sums)
  {
  }

  lemma InputFinishedKept(run: Run, v: View, sums: Sums, i: int, failed: bool)
    requires Inv(run, v, sums) && run.manifest && i in run.declared
    ensures Inv(run.(terminal := run.terminal[i := failed]), v.After(InputFinished(i, failed)), sums)
  {
  }

  lemma CancellationKept(run: Run, v: View, sums: Sums)
    requires Inv(run, v, sums) && run.runStarted && (run.terminalFrozen ==> run.interrupted)
    ensures Inv(run.(cancellation := true), v.After(CancellationRequested), sums)
  {
  }

  ghost function ObjectEvents(index: int, flow: string, objects: seq<ObjectResult>): seq<Event> {
    if objects == [] then [] else ObjectEvents(index, flow, objects[..|objects| - 1]) + [ObjectCompleted(index, flow, objects[|objects| - 1])]
  }

  ghost function FlowEvents(index: int, flows: seq<FlowResult>): seq<Event> {
    if flows == [] then []
    else
      var last := flows[|flows| - 1];
      FlowEvents(index, flows[..|flows| - 1]) + [FlowCompleted(index, last.flow, last.summary)]
  }

  ghost function Details(index: int, result: InputResult): seq<Event> {
    FlowEvents(index, result.flows) + if result.failed then [Diagnostic] else []
  }

  // The records of one terminal result, in order.
  ghost function ResultEvents(index: int, result: InputResult): seq<Event> {
    Details(index, result) + [InputFinished(index, result.failed)]
  }

  // The last record but one is a diagnostic.
  ghost predicate Diagnosed(log: seq<Event>) { |log| >= 2 && log[|log| - 2] == Diagnostic }

  lemma {:induction false} ResultLog(log: seq<Event>, index: int, result: InputResult)
    ensures log + Details(index, result) + [InputFinished(index, result.failed)] == log + ResultEvents(index, result)
    ensures result.failed ==> log + FlowEvents(index, result.flows) + [Diagnostic] == log + Details(index, result)
    ensures !result.failed ==> log + FlowEvents(index, result.flows) == log + Details(index, result)
  {
    assert FlowEvents(index, result.flows) + [] == FlowEvents(index, result.flows);
  }

  lemma {:induction false} ResultEnds(log: seq<Event>, index: int, result: InputResult)
    ensures EndsWith(log + Details(index, result) + [InputFinished(index, result.failed)], ResultEvents(index, result))
  {
    ResultLog(log, index, result);
  }

  ghost predicate EndsWith(log: seq<Event>, events: seq<Event>) {
    |events| <= |log| && log[|log| - |events|..] == events
  }

  lemma {:induction false} FlowEventsMore(log: seq<Event>, index: int, flows: seq<FlowResult>, k: nat)
    requires k < |flows|
    ensures log + FlowEvents(index, flows[..k]) + [FlowCompleted(index, flows[k].flow, flows[k].summary)] == log + FlowEvents(index, flows[..k + 1])
  {
    assert flows[..k + 1][..k] == flows[..k];
  }

  lemma {:induction false} EventsMore(log: seq<Event>, index: int, flow: string, objects: seq<ObjectResult>, k: nat)
    requires k < |objects|
    ensures log + ObjectEvents(index, flow, objects[..k]) + [ObjectCompleted(index, flow, objects[k])] == log + ObjectEvents(index, flow, objects[..k + 1])
  {
    assert objects[..k + 1][..k] == objects[..k];
  }

  // Entering a Flow's running summary, and storing it, change nothing a reader knows.
  lemma SumsEnter(run: Run, v: View, sums: Sums, i: int, f: string)
    requires Inv(run, v, sums)
    ensures Inv(run, v, sums[(i, f) := SumIn(sums, i, f)])
  {
    if !run.err {
      forall j: int, g: string {:trigger SumIn(v.summaries, j, g)}
        ensures SumIn(v.summaries, j, g) == SumIn(sums[(i, f) := SumIn(sums, i, f)], j, g)
      {
        assert SumIn(v.summaries, j, g) == SumIn(sums, j, g);
      }
    }
  }

  lemma SumsRead(run: Run, v: View, sums: Sums, i: int, f: string)
    requires Inv(run, v, sums) && !run.err
    ensures v.SummaryOf(i, f) == SumIn(sums, i, f)
  {
    assert v.SummaryOf(i, f) == SumIn(v.summaries, i, f);
  }

  lemma SumsStore(run: Run, v: View, sums: Sums)
    requires Inv(run, v, sums)
    ensures Inv(run.(objectSummaries := sums), v, sums)
  {
  }

  ghost predicate Lists(declared: map<int, string>, items: seq<string>) {
    |declared| == |items| && forall i :: 0 <= i < |items| ==> i in declared && declared[i] == items[i]
  }

  lemma ListsMore(declared: map<int, string>, items: seq<string>, k: nat)
    requires k < |items| && Lists(declared, items[..k]) && k !in declared
    ensures Lists(declared[k := items[k]], items[..k + 1])
  {
  }

  lemma StillLinked(startedInputs: set<int>, terminal: map<int, bool>, revisions: map<int, nat>,
    pending: map<(int, Phase), Snapshot>, more: map<(int, Phase), Snapshot>, started: set<int>, sealed: set<int>, drained: map<int, nat>)
    requires Linked(startedInputs, terminal, revisions, pending, started, sealed, drained)
    requires forall k :: k in more && k.0 in sealed ==> k in pending
    ensures Linked(startedInputs, terminal, revisions, more, started, sealed, drained)
  {
  }

  // The snapshots from k on may be written, in order.
  ghost predicate Due(taken: seq<Snapshot>, k: nat, run: Run, revisions: map<int, nat>, drained: map<int, nat>) {
    && Ascending(taken)
    && forall j :: k <= j < |taken| ==>
      && taken[j].input in run.startedInputs && taken[j].input !in run.terminal
      && At(revisions, taken[j].input) < taken[j].revision <= At(drained, taken[j].input)
  }

  lemma StillDue(taken: seq<Snapshot>, k: nat, run: Run, revisions: map<int, nat>, drained: map<int, nat>)
    requires k < |taken| && Due(taken, k, run, revisions, drained)
    ensures Due(taken, k + 1, run, revisions[taken[k].input := taken[k].revision], drained)
  {
    forall j | k < j < |taken|
      ensures At(revisions[taken[k].input := taken[k].revision], taken[j].input) < taken[j].revision
    {
      assert Older(taken[k], taken[j]);
    }
  }

  lemma TakenDue(taken: seq<Snapshot>, run: Run, revisions: map<int, nat>, accepted: map<(int, Phase), Accepted>,
    pending: map<(int, Phase), Snapshot>, started: set<int>, sealed: set<int>, drained: map<int, nat>, delivered: map<int, nat>,
    all: bool, input: int)
    requires Linked(run.startedInputs, run.terminal, revisions, pending, started, sealed, drained)
    requires Sound(accepted, pending, started, drained, delivered) && Ascending(taken)
    requires forall s :: s in taken ==> (var k := (s.input, s.phase); k in pending && pending[k] == s && Chosen(k, all, input))
    ensures Due(taken, 0, run, revisions, Drain(drained, delivered, all, input)) && (pending == map[] ==> taken == [])
    ensures Linked(run.startedInputs, run.terminal, revisions, Others(pending, all, input), started, sealed, Drain(drained, delivered, all, input))
  {
    KeepOthers(accepted, pending, started, drained, delivered, all, input);
    assert taken != [] ==> taken[0] in taken;
    forall j | 0 <= j < |taken|
      ensures taken[j].input in run.startedInputs && taken[j].input !in run.terminal
      ensures At(revisions, taken[j].input) < taken[j].revision <= At(Drain(drained, delivered, all, input), taken[j].input)
    {
      var k := (taken[j].input, taken[j].phase);
      assert taken[j] in taken;
      assert k in pending && pending[k] == taken[j] && Chosen(k, all, input);
    }
  }

  // The record an input begins with, unless it is out already.
  function Opening(started: set<int>, i: int): seq<Event> { if i in started then [] else [InputStarted(i)] }

  lemma {:induction false} Greeted(log: seq<Event>)
    requires Legal(log)
    ensures Replay(log).greeted <==> log != []
  {
    if log != [] {
      assert AllowedAt(log, 0) && log[..0] == [] && log[..|log|] == log;
      Remembered(log, 0, |log|);
    }
  }

  function ProgressEvents(taken: seq<Snapshot>): seq<Event> {
    if taken == [] then [] else ProgressEvents(taken[..|taken| - 1]) + [taken[|taken| - 1].Record()]
  }

  // A record of this input and phase, no older than the revision.
  ghost predicate Shows(e: Event, key: (int, Phase), revision: nat) {
    e.ProgressSnapshot? && e.input == key.0 && e.phase == key.1 && e.revision >= revision
  }

  // Every chosen snapshot that waited, or a newer one in its place, has been written since.
  ghost predicate Shown(pending: map<(int, Phase), Snapshot>, all: bool, input: int, before: seq<Event>, after: seq<Event>) {
    forall k :: k in pending && Chosen(k, all, input) ==>
      exists j :: |before| <= j < |after| && Shows(after[j], k, pending[k].revision)
  }

  // The same of what was taken to be written.
  ghost predicate Covers(taken: seq<Snapshot>, pending: map<(int, Phase), Snapshot>, all: bool, input: int) {
    forall k :: k in pending && Chosen(k, all, input) ==>
      exists j :: 0 <= j < |taken| && Shows(taken[j].Record(), k, pending[k].revision)
  }

  lemma ProgressMore(start: seq<Event>, taken: seq<Snapshot>, k: nat)
    requires k < |taken|
    ensures start + ProgressEvents(taken[..k]) + [taken[k].Record()] == start + ProgressEvents(taken[..k + 1])
  {
    assert taken[..k + 1][..k] == taken[..k];
  }

  lemma {:induction false} ProgressAt(taken: seq<Snapshot>, j: nat)
    requires j < |taken|
    ensures |ProgressEvents(taken)| == |taken| && ProgressEvents(taken)[j] == taken[j].Record()
  {
    var n := |taken| - 1;
    if n > 0 {
      ProgressAt(taken[..n], if j < n then j else n - 1);
    }
  }

  lemma {:induction false} CoversShown(taken: seq<Snapshot>, pending: map<(int, Phase), Snapshot>, all: bool, input: int, before: seq<Event>)
    requires Covers(taken, pending, all, input)
    ensures Shown(pending, all, input, before, before + ProgressEvents(taken))
  {
    var after := before + ProgressEvents(taken);
    forall k | k in pending && Chosen(k, all, input) ensures exists j :: |before| <= j < |after| && Shows(after[j], k, pending[k].revision) {
      var j :| 0 <= j < |taken| && Shows(taken[j].Record(), k, pending[k].revision);
      ProgressAt(taken, j);
      assert after[|before| + j] == taken[j].Record();
    }
  }

  lemma TakenCovers(taken: seq<Snapshot>, pending: map<(int, Phase), Snapshot>, accepted: map<(int, Phase), Accepted>, started: set<int>, drained: map<int, nat>,
                    delivered: map<int, nat>, all: bool, input: int)
    requires Sound(accepted, pending, started, drained, delivered)
    requires forall s :: s in taken <==> (var k := (s.input, s.phase); k in pending && pending[k] == s && Chosen(k, all, input))
    ensures Covers(taken, pending, all, input)
  {
    forall k | k in pending && Chosen(k, all, input) ensures exists j :: 0 <= j < |taken| && Shows(taken[j].Record(), k, pending[k].revision) {
      assert (pending[k].input, pending[k].phase) == k && pending[k] in taken;
      var j :| 0 <= j < |taken| && taken[j] == pending[k];
      assert Shows(taken[j].Record(), k, pending[k].revision);
    }
  }

  lemma CoversOlder(taken: seq<Snapshot>, before: map<(int, Phase), Snapshot>, pending: map<(int, Phase), Snapshot>, all: bool, input: int)
    requires Covers(taken, pending, all, input) && forall k :: k in before ==> k in pending && pending[k].revision >= before[k].revision
    ensures Covers(taken, before, all, input)
  {
    forall k | k in before && Chosen(k, all, input) ensures exists j :: 0 <= j < |taken| && Shows(taken[j].Record(), k, before[k].revision) {
      var j :| 0 <= j < |taken| && Shows(taken[j].Record(), k, pending[k].revision);
      assert Shows(taken[j].Record(), k, before[k].revision);
    }
  }

  lemma ShownOlder(before: map<(int, Phase), Snapshot>, pending: map<(int, Phase), Snapshot>, all: bool, input: int, log: seq<Event>, after: seq<Event>)
    requires Shown(pending, all, input, log, after) && forall k :: k in before ==> k in pending && pending[k].revision >= before[k].revision
    ensures Shown(before, all, input, log, after)
  {
    forall k | k in before && Chosen(k, all, input) ensures exists j :: |log| <= j < |after| && Shows(after[j], k, before[k].revision) {
      var j :| |log| <= j < |after| && Shows(after[j], k, pending[k].revision);
      assert Shows(after[j], k, before[k].revision);
    }
  }

  // What is written stays written.
  lemma {:induction false} ShownStays(pending: map<(int, Phase), Snapshot>, all: bool, input: int, before: seq<Event>, after: seq<Event>, later: seq<Event>)
    requires Shown(pending, all, input, before, after) && after <= later
    ensures Shown(pending, all, input, before, later)
  {
    forall k | k in pending && Chosen(k, all, input) ensures exists j :: |before| <= j < |later| && Shows(later[j], k, pending[k].revision) {
      var j :| |before| <= j < |after| && Shows(after[j], k, pending[k].revision);
      assert later[j] == after[j];
    }
  }

  // Each of the results is the tally of what was streamed.
  predicate Tallied(flows: seq<FlowResult>, index: int, sums: Sums) {
    forall k :: 0 <= k < |flows| ==> flows[k].summary == SumIn(sums, index, flows[k].flow)
  }

  class Output {
    const encoder: Encoder
    const mailbox: Mailbox
    var run: Run

    ghost function Known(): View reads this, encoder { Replay(encoder.log) }

    ghost predicate Valid()
      reads this, encoder, mailbox
    {
      Core(run.objectSummaries) && (!run.err && |run.declared| > 0 ==> run.manifest)
    }

    // What holds even while inputs are being declared.
    ghost predicate Core(sums: Sums)
      reads this, encoder, mailbox
    {
      Writable() && mailbox.Valid()
      && (run.finished ==> run.terminalFrozen && run.manifest && encoder.finished && mailbox.pending == map[] && mailbox.stopped)
      && (encoder.log == [] ==> run.err && run.startedInputs == {} && run.terminal == map[] && !run.finished)
      && (encoder.log != [] ==> Inv(run, Known(), sums))
      && Linked(run.startedInputs, run.terminal, Known().revisions, mailbox.pending, mailbox.started, mailbox.sealed, mailbox.drained)
    }

    ghost predicate Writable()
      reads this, encoder
    {
      encoder.Valid() && Legal(encoder.log) && (Known().closed ==> encoder.finished) && (!run.err ==> run.finished == encoder.finished == encoder.final && !encoder.failed)
    }

    // Nothing has gone wrong, and nothing in the environment will.
    predicate Open()
      reads this
    {
      encoder.reliable && !run.err && !run.finished
    }

    // What no later step takes back.
    twostate predicate Continues()
      reads this, encoder
    {
      Grows() && (old(run.terminalFrozen) ==> run.terminalFrozen && run.interrupted == old(run.interrupted) && run.cancellation == old(run.cancellation))
    }

    // A failed write leaves everything but the failure itself.
    twostate predicate SameFlags()
      reads this
    {
      && run.runStarted == old(run.runStarted) && run.manifest == old(run.manifest) && run.cancellation == old(run.cancellation)
      && run.terminalFrozen == old(run.terminalFrozen) && run.interrupted == old(run.interrupted) && run.finished == old(run.finished)
    }

    twostate predicate Grows()
      reads this, encoder
    {
      && old(encoder.log) <= encoder.log
      && (old(run.err) ==> run.err)
      && (old(run.finished) ==> run.finished)
      && (old(run.err) || old(run.finished) ==> unchanged(encoder`log))
      && (old(run.runStarted) ==> run.runStarted)
      && (old(run.manifest) ==> run.manifest && |run.declared| == |old(run.declared)|)
    }

    // Writes one record, or retains the failure and stops everything that could write another.
    method Emit(e: Event) returns (ok: bool)
      requires Writable()
      requires !run.err && !run.finished ==> Known().Allows(e)
      modifies this, encoder, mailbox`stopped
      ensures encoder.Valid() && Legal(encoder.log) && (Known().closed ==> encoder.finished) && encoder.final == old(encoder.final)
      ensures ok ==> !old(run.err) && !old(run.finished) && unchanged(this`run) && encoder.log == old(encoder.log) + [e]
      ensures ok ==> encoder.finished == e.RunFinished? && !encoder.failed && Known() == old(Known()).After(e) && mailbox.stopped == old(mailbox.stopped)
      ensures !ok ==> run == old(run).(err := true, closed := run.closed) && encoder.log == old(encoder.log)
      ensures old(mailbox.stopped) ==> mailbox.stopped
      ensures old(Open()) ==> ok && Open()
    {
      ok := false;
      if !run.err {
        Append(encoder.log, e);
        Greeted(encoder.log);
        var clock, fits, written := *, *, *;
        ok := encoder.Emit(e, clock, fits || encoder.reliable, written || encoder.reliable);
        if !ok {
          Fail();
        }
      }
    }

    // Writing e and recording it in the fields keeps the invariant.
    ghost predicate Records(e: Event, next: Run, nextSums: Sums)
      reads this, encoder, mailbox
    {
      var v := Known().After(e);
      && Inv(next, v, nextSums) && v.closed == Known().closed
      && Linked(next.startedInputs, next.terminal, v.revisions, mailbox.pending, mailbox.started, mailbox.sealed, mailbox.drained)
      && (run.runStarted ==> next.runStarted) && (run.manifest ==> next.manifest && |next.declared| == |run.declared|)
    }

    // One record other than the first and the last.
    method EmitOne(e: Event, ghost sums: Sums) returns (ok: bool)
      requires Core(sums) && !e.Hello? && !e.RunFinished?
      requires !run.err && !run.finished ==> Known().Allows(e)
      modifies this, encoder, mailbox`stopped
      ensures Continues() && SameFlags() && (old(mailbox.stopped) ==> mailbox.stopped)
      ensures ok ==> Writable() && !old(run.err) && !old(run.finished) && unchanged(this`run)
      ensures ok ==> encoder.log == old(encoder.log) + [e] && Known() == old(Known()).After(e)
      ensures !ok ==> Core(sums) && run.err
      ensures old(Open()) ==> ok && Open()
    {
      ok := Emit(e);
    }

    // One such record and its trace in the fields.
    method Write(e: Event, next: Run, ghost sums: Sums, ghost nextSums: Sums) returns (ok: bool)
      requires Core(sums) && !e.Hello? && !e.RunFinished?
      requires next.err == run.err && next.finished == run.finished && next.terminalFrozen == run.terminalFrozen && next.interrupted == run.interrupted
      requires !run.err && !run.finished ==> Known().Allows(e) && Records(e, next, nextSums)
      modifies this, encoder, mailbox`stopped
      ensures Grows() && (next.cancellation == old(run.cancellation) ==> Continues()) && (old(mailbox.stopped) ==> mailbox.stopped)
      ensures ok ==> Core(nextSums) && !run.err && !run.finished && run == next && encoder.log == old(encoder.log) + [e]
      ensures !ok ==> Core(sums) && run.err && SameFlags()
      ensures old(Open()) ==> ok && Open()
    {
      ok := EmitOne(e, sums);
      if ok {
        run := next;
      }
    }

    method Fail()
      modifies this, mailbox`stopped
      ensures run == old(run).(err := true, closed := run.closed) && (old(mailbox.stopped) ==> mailbox.stopped)
    {
      if !run.err {
        run := run.(err := true, closed := true);
        mailbox.Stop();
      }
    }

    constructor (reliable: bool)
      ensures Valid() && fresh(encoder) && fresh(mailbox) && !run.terminalFrozen && encoder.reliable == reliable
      ensures reliable ==> Open()
      ensures encoder.log == if run.err then [] else [Hello]
    {
      encoder := new Encoder(reliable);
      mailbox := new Mailbox();
      run := Run(false, false, false, false, false, false, EXIT_OK, false, false, map[], {}, map[], {}, map[], 0);
      new;
      var ok := Emit(Hello);
    }

    method StartLocked() returns (ok: bool)
      requires Valid()
      modifies this, encoder, mailbox`stopped
      ensures Valid() && Continues() && (old(mailbox.stopped) ==> mailbox.stopped)
      ensures ok ==> run.runStarted && run.manifest == old(run.manifest)
      ensures run.terminalFrozen == old(run.terminalFrozen) && run.interrupted == old(run.interrupted) && run.cancellation == old(run.cancellation)
      ensures run.finished == old(run.finished) && (!ok ==> run.err)
      ensures old(Open()) ==> ok && Open()
    {
      if run.runStarted {
        return true;
      }
      if !run.err {
        RunStartedKept(run, Known(), run.objectSummaries);
      }
      ok := Write(RunStarted, run.(runStarted := true), run.objectSummaries, run.objectSummaries);
    }

    // Reporters get the mailbox lock first.
    method LetReport()
      requires Valid()
      modifies mailbox
      ensures Valid() && mailbox.OnlyReports()
    {
      Renew();
    }

    // The same, and what waited still waits, or something newer.
    method Renew()
      requires Valid()
      modifies mailbox
      ensures Valid() && mailbox.OnlyReports() && mailbox.Renewed()
    {
      mailbox.Interference();
      StillLinked(run.startedInputs, run.terminal, Known().revisions, old(mailbox.pending), mailbox.pending, mailbox.started, mailbox.sealed, mailbox.drained);
    }

    method Seal(inputs: set<int>)
      requires Valid()
      modifies mailbox
      ensures Valid() && mailbox.sealed == old(mailbox.sealed) + inputs && mailbox.started == old(mailbox.started)
      ensures forall k :: k in mailbox.pending && !old(mailbox.Open(k.0)) ==> k in old(mailbox.pending)
      ensures mailbox.Renewed()
    {
      Renew();
      mailbox.Seal(inputs);
    }

    method Stop()
      requires Valid()
      modifies mailbox
      ensures Valid() && mailbox.stopped
      ensures forall k :: k in mailbox.pending && !old(mailbox.Open(k.0)) ==> k in old(mailbox.pending)
      ensures mailbox.sealed == old(mailbox.sealed) && mailbox.started == old(mailbox.started)
    {
      LetReport();
      mailbox.Stop();
    }

    method WriteInputStarted(i: int) returns (ok: bool)
      requires Valid() && i in run.declared && i !in run.startedInputs
      modifies this, encoder, mailbox`stopped
      ensures Valid() && Continues() && (old(mailbox.stopped) ==> mailbox.stopped)
      ensures ok ==> run.startedInputs == old(run.startedInputs) + {i} && run.terminal == old(run.terminal) && run.plannedFlows == old(run.plannedFlows)
      ensures ok ==> encoder.log == old(encoder.log) + [InputStarted(i)]
      ensures !ok ==> run.err
      ensures old(Open()) ==> ok && Open()
      ensures ok ==> run.objectSummaries == old(run.objectSummaries)
    {
      if !run.err {
        InputStartedKept(run, Known(), run.objectSummaries, i);
      }
      ok := Write(InputStarted(i), run.(startedInputs := run.startedInputs + {i}), run.objectSummaries, run.objectSummaries);
    }

    method MarkStarted(i: int)
      requires Valid() && i in run.startedInputs
      modifies mailbox
      ensures Valid() && mailbox.sealed == old(mailbox.sealed) && mailbox.started == old(mailbox.started) + {i}
      ensures forall k :: k in mailbox.pending && !old(mailbox.Open(k.0)) ==> k in old(mailbox.pending)
    {
      LetReport();
      mailbox.MarkStarted(i);
    }

    method EnsureInputStarted(i: int) returns (ok: bool)
      requires Valid() && i in run.declared
      modifies this, encoder, mailbox
      ensures Valid() && Continues()
      ensures ok ==> run.startedInputs == old(run.startedInputs) + {i} && run.terminal == old(run.terminal) && run.plannedFlows == old(run.plannedFlows)
      ensures ok ==> encoder.log == old(encoder.log + Opening(run.startedInputs, i))
      ensures !ok ==> run.err
      ensures mailbox.sealed == old(mailbox.sealed) && mailbox.started <= old(mailbox.started) + {i}
      ensures forall k :: k in mailbox.pending && !old(mailbox.Open(k.0)) ==> k in old(mailbox.pending)
      ensures old(Open()) ==> ok && Open()
      ensures ok ==> run.objectSummaries == old(run.objectSummaries)
    {
      if i in run.startedInputs {
        assert run.startedInputs + {i} == run.startedInputs;
        return true;
      }
      ok := WriteInputStarted(i);
      if ok {
        MarkStarted(i);
      }
    }

    // Writes the latest retained snapshots, of all inputs or of one.
    method Flush(all: bool, input: int) returns (ok: bool)
      requires Valid()
      modifies this, encoder, mailbox
      ensures Valid() && Continues()
      ensures ok || old(run.finished) ==> unchanged(this`run)
      ensures !ok ==> run.err
      ensures mailbox.sealed == old(mailbox.sealed) && mailbox.started == old(mailbox.started)
      ensures forall k :: k in mailbox.pending ==> !Chosen(k, all, input) && (k in old(mailbox.pending) || old(mailbox.Open(k.0)))
      ensures old(Open()) ==> ok && Open()
      ensures ok ==> Shown(old(mailbox.pending), all, input, old(encoder.log), encoder.log)
    {
      var taken := Collect(all, input);
      CoversShown(taken, old(mailbox.pending), all, input, encoder.log);
      ok := WriteProgress(taken);
    }

    method Collect(all: bool, input: int) returns (taken: seq<Snapshot>)
      requires Valid()
      modifies mailbox
      ensures Valid() && Due(taken, 0, run, Known().revisions, mailbox.drained) && (run.finished ==> taken == [])
      ensures mailbox.sealed == old(mailbox.sealed) && mailbox.started == old(mailbox.started)
      ensures forall k :: k in mailbox.pending ==> !Chosen(k, all, input) && (k in old(mailbox.pending) || old(mailbox.Open(k.0)))
      ensures Covers(taken, old(mailbox.pending), all, input)
    {
      ghost var before := mailbox.pending;
      Renew();
      ghost var pending := mailbox.pending;
      taken := TakeDue(all, input);
      CoversOlder(taken, before, pending, all, input);
    }

    method TakeDue(all: bool, input: int) returns (taken: seq<Snapshot>)
      requires Valid()
      modifies mailbox`pending, mailbox`drained
      ensures Valid() && Due(taken, 0, run, Known().revisions, mailbox.drained) && (run.finished ==> taken == [])
      ensures mailbox.pending == Others(old(mailbox.pending), all, input)
      ensures Covers(taken, old(mailbox.pending), all, input)
    {
      ghost var pending, drained := mailbox.pending, mailbox.drained;
      taken := mailbox.Take(all, input);
      TakenCovers(taken, pending, mailbox.accepted, mailbox.started, drained, mailbox.delivered, all, input);
      TakenDue(taken, run, Known().revisions, mailbox.accepted, pending, mailbox.started, mailbox.sealed, drained, mailbox.delivered, all, input);
    }

    method WriteProgress(taken: seq<Snapshot>) returns (ok: bool)
      requires Valid() && Due(taken, 0, run, Known().revisions, mailbox.drained) && (run.finished ==> taken == [])
      modifies this, encoder, mailbox`stopped
      ensures Valid() && Continues() && (old(mailbox.stopped) ==> mailbox.stopped)
      ensures ok || taken == [] ==> unchanged(this`run)
      ensures !ok ==> run.err
      ensures old(Open()) ==> ok && Open()
      ensures ok ==> encoder.log == old(encoder.log) + ProgressEvents(taken)
    {
      var k := 0;
      ok := true;
      while ok && k < |taken|
        invariant k <= |taken| && Valid() && Continues() && (old(mailbox.stopped) ==> mailbox.stopped)
        invariant ok ==> unchanged(this`run) && WrittenSoFar(taken, k, old(encoder.log))
        invariant (ok ==> (run.finished ==> taken == [])) && (!ok ==> run.err && taken != []) && (old(Open()) ==> ok)
      {
        ok := WriteNext(taken, k, old(encoder.log));
        k := k + 1;
      }
      assert taken[..|taken|] == taken;
    }

    // The first k are out and the rest may follow.
    ghost predicate WrittenSoFar(taken: seq<Snapshot>, k: nat, start: seq<Event>)
      requires k <= |taken|
      reads this, encoder, mailbox`drained
    {
      Due(taken, k, run, Known().revisions, mailbox.drained) && encoder.log == start + ProgressEvents(taken[..k])
    }

    method WriteNext(taken: seq<Snapshot>, k: nat, ghost start: seq<Event>) returns (ok: bool)
      requires Valid() && k < |taken| && WrittenSoFar(taken, k, start) && !run.finished
      modifies this, encoder, mailbox`stopped
      ensures Valid() && Continues() && (old(mailbox.stopped) ==> mailbox.stopped)
      ensures if ok then unchanged(this`run) && WrittenSoFar(taken, k + 1, start) else run.err
      ensures old(Open()) ==> ok
    {
      ProgressMore(start, taken, k);
      ok := WriteDue(taken, k);
    }

    method WriteDue(taken: seq<Snapshot>, k: nat) returns (ok: bool)
      requires Valid() && k < |taken| && Due(taken, k, run, Known().revisions, mailbox.drained) && !run.finished
      modifies this, encoder, mailbox`stopped
      ensures Valid() && Continues() && (old(mailbox.stopped) ==> mailbox.stopped)
      ensures ok ==> unchanged(this`run) && Due(taken, k + 1, run, Known().revisions, mailbox.drained)
      ensures ok ==> encoder.log == old(encoder.log) + [taken[k].Record()]
      ensures !ok ==> run.err
      ensures old(Open()) ==> ok
    {
      ghost var revisions := Known().revisions;
      ok := WriteSnapshot(taken[k]);
      if ok {
        StillDue(taken, k, run, revisions, mailbox.drained);
      }
    }

    method WriteSnapshot(s: Snapshot) returns (ok: bool)
      requires Valid() && s.input in run.startedInputs && s.input !in run.terminal && !run.finished
      requires At(Known().revisions, s.input) < s.revision <= At(mailbox.drained, s.input)
      modifies this, encoder, mailbox`stopped
      ensures Valid() && Continues() && (old(mailbox.stopped) ==> mailbox.stopped)
      ensures ok ==> unchanged(this`run) && Known().revisions == old(Known()).revisions[s.input := s.revision]
      ensures !ok ==> run.err
      ensures old(Open()) ==> ok && Open()
      ensures ok ==> encoder.log == old(encoder.log) + [s.Record()]
    {
      if !run.err {
        ProgressKept(run, Known(), run.objectSummaries, s);
      }
      Append(encoder.log, s.Record());
      ok := Write(s.Record(), run, run.objectSummaries, run.objectSummaries);
    }

    method Refuse()
      requires Valid()
      modifies this, mailbox`stopped
      ensures Valid() && Continues() && run.err
    {
      Fail();
    }

    // ---------- The operations other threads call ----------

    method Start() returns (ok: bool)
      requires Valid()
      modifies this, encoder, mailbox
      ensures Valid() && Continues()
      ensures ok ==> run.runStarted && run.manifest == old(run.manifest)
      ensures old(Open()) ==> ok && Open()
    {
      ok := StartLocked();
    }

    method Declare(items: seq<string>) returns (ok: bool)
      requires Valid()
      modifies this, encoder, mailbox
      ensures Valid() && Continues()
      ensures ok ==> !old(run.manifest) && run.manifest && Lists(run.declared, items)
      ensures !ok ==> run.err || old(run.manifest)
      ensures old(Open()) && !old(run.manifest) ==> ok && Open()
    {
      ok := StartLocked();
      if ok {
        if run.manifest {
          return false;
        }
        ok := DeclareAll(items);
      }
    }

    method DeclareAll(items: seq<string>) returns (ok: bool)
      requires Valid() && run.runStarted && !run.manifest
      modifies this, encoder, mailbox`stopped
      ensures Valid() && Continues()
      ensures ok ==> run.manifest && Lists(run.declared, items)
      ensures !ok ==> run.err
      ensures old(Open()) ==> ok && Open()
    {
      ok := DeclareEach(items);
      if ok {
        ok := WriteManifest();
      }
    }

    method DeclareEach(items: seq<string>) returns (ok: bool)
      requires Valid() && run.runStarted && !run.manifest
      modifies this, encoder, mailbox`stopped
      ensures Core(run.objectSummaries) && Continues() && run.runStarted && !run.manifest
      ensures ok && !run.err ==> Lists(run.declared, items)
      ensures !ok ==> run.err
      ensures old(Open()) ==> ok && Open()
    {
      var k := 0;
      while k < |items|
        invariant k <= |items| && Core(run.objectSummaries) && Continues() && run.runStarted && !run.manifest
        invariant !run.err ==> Lists(run.declared, items[..k])
        invariant old(Open()) ==> Open()
      {
        ghost var declared := run.declared;
        ok := WriteDeclared(items[k]);
        if !ok {
          return;
        }
        ListsMore(declared, items, k);
        k := k + 1;
      }
      assert items[..k] == items;
      ok := true;
    }

    method WriteDeclared(item: string) returns (ok: bool)
      requires Core(run.objectSummaries) && run.runStarted && !run.manifest
      modifies this, encoder, mailbox`stopped
      ensures Core(run.objectSummaries) && Continues() && run.runStarted && !run.manifest
      ensures ok ==> run.declared == old(run.declared)[|old(run.declared)| := item] && |old(run.declared)| !in old(run.declared) && !run.err
      ensures !ok ==> run.err && SameFlags()
      ensures old(Open()) ==> ok && Open()
    {
      if !run.err {
        DeclaredKept(run, Known(), run.objectSummaries, item);
      }
      ok := Write(InputDeclared(|run.declared|), run.(declared := run.declared[|run.declared| := item]), run.objectSummaries, run.objectSummaries);
    }

    method WriteManifest() returns (ok: bool)
      requires Core(run.objectSummaries) && run.runStarted && !run.manifest
      modifies this, encoder, mailbox`stopped
      ensures Valid() && Continues()
      ensures ok ==> run.manifest && run.declared == old(run.declared) && !run.err && !run.finished
      ensures !ok ==> run.err
      ensures old(Open()) ==> ok && Open()
    {
      if !run.err {
        ManifestKept(run, Known(), run.objectSummaries, |run.declared|);
      }
      ok := Write(ManifestFinished(|run.declared|), run.(manifest := true), run.objectSummaries, run.objectSummaries);
    }

    method InputBegins(index: int) returns (ok: bool)
      requires Valid()
      modifies this, encoder, mailbox
      ensures Valid() && Continues()
      ensures !ok ==> run.err
      ensures ok ==> index in run.declared && index in run.startedInputs && run.plannedFlows == old(run.plannedFlows)
      ensures ok ==> encoder.log == old(encoder.log + Opening(run.startedInputs, index))
      ensures old(Open()) && index in old(run.declared) ==> ok && Open()
    {
      if index !in run.declared {
        Refuse();
        return false;
      }
      ok := EnsureInputStarted(index);
    }

    method PlanFlow(index: int, flow: string) returns (ok: bool)
      requires Valid()
      modifies this, encoder, mailbox
      ensures Valid() && Continues()
      ensures ok ==> (index, flow) !in old(run.plannedFlows) && run.plannedFlows == old(run.plannedFlows) + {(index, flow)}
      ensures old(Open()) && index in old(run.declared) && (index, flow) !in old(run.plannedFlows) ==> ok && Open()
    {
      ok := InputBegins(index);
      if !ok {
        return;
      }
      if (index, flow) in run.plannedFlows {
        Refuse();
        return false;
      }
      ok := WriteFlowPlanned(index, flow);
    }

    method WriteFlowPlanned(index: int, flow: string) returns (ok: bool)
      requires Valid() && index in run.startedInputs && (index, flow) !in run.plannedFlows
      modifies this, encoder, mailbox`stopped
      ensures Valid() && Continues()
      ensures ok ==> run.plannedFlows == old(run.plannedFlows) + {(index, flow)} && encoder.log == old(encoder.log) + [FlowPlanned(index, flow)]
      ensures !ok ==> run.err
      ensures old(Open()) ==> ok && Open()
    {
      if !run.err {
        FlowPlannedKept(run, Known(), run.objectSummaries, index, flow);
      }
      ok := Write(FlowPlanned(index, flow), run.(plannedFlows := run.plannedFlows + {(index, flow)}), run.objectSummaries, run.objectSummaries);
    }

    method ObjectsCompleted(index: int, flow: string, objects: seq<ObjectResult>) returns (ok: bool)
      requires Valid()
      modifies this, encoder, mailbox
      ensures Valid() && Continues()
      ensures ok ==> encoder.log == old(encoder.log + Opening(run.startedInputs, index)) + ObjectEvents(index, flow, objects)
      ensures !ok ==> run.err
      ensures old(Open()) && index in old(run.declared) ==> ok && Open()
    {
      ok := InputBegins(index);
      if ok {
        ok := WriteObjects(index, flow, objects);
      }
    }

    // The summary is stored once every record is out; a malformed result stops the stream.
    method WriteObjects(index: int, flow: string, objects: seq<ObjectResult>) returns (ok: bool)
      requires Valid() && index in run.startedInputs
      modifies this, encoder, mailbox`stopped
      ensures Valid() && Continues()
      ensures ok ==> encoder.log == old(encoder.log) + ObjectEvents(index, flow, objects)
      ensures !ok ==> run.err
      ensures old(Open()) ==> ok && Open()
    {
      var summary := SumIn(run.objectSummaries, index, flow);
      if encoder.log != [] {
        SumsEnter(run, Known(), run.objectSummaries, index, flow);
      }
      ok, summary := StreamObjects(index, flow, objects, summary);
      if ok {
        Store(index, flow, summary);
      }
    }

    method StreamObjects(index: int, flow: string, objects: seq<ObjectResult>, before: Summary) returns (ok: bool, summary: Summary)
      requires Core(run.objectSummaries[(index, flow) := before]) && index in run.startedInputs
      modifies this, encoder, mailbox`stopped
      ensures Core(run.objectSummaries[(index, flow) := summary]) && Continues()
      ensures ok ==> unchanged(this`run) && encoder.log == old(encoder.log) + ObjectEvents(index, flow, objects)
      ensures !ok ==> run.err
      ensures old(Open()) ==> ok && Open()
    {
      summary := before;
      var k := 0;
      while k < |objects|
        invariant k <= |objects| && Core(run.objectSummaries[(index, flow) := summary]) && Continues() && unchanged(this`run)
        invariant encoder.log == old(encoder.log) + ObjectEvents(index, flow, objects[..k])
      {
        EventsMore(old(encoder.log), index, flow, objects, k);
        ok := WriteObject(index, flow, objects[k], summary);
        if !ok {
          return;
        }
        summary := summary.Add(objects[k]);
        k := k + 1;
      }
      assert objects[..k] == objects;
      ok := true;
    }

    method Store(index: int, flow: string, summary: Summary)
      requires Core(run.objectSummaries[(index, flow) := summary])
      modifies this
      ensures Core(run.objectSummaries) && run == old(run).(objectSummaries := old(run.objectSummaries)[(index, flow) := summary])
    {
      var sums := run.objectSummaries[(index, flow) := summary];
      run := run.(objectSummaries := sums);
      if encoder.log != [] {
        SumsStore(old(run), Known(), sums);
      }
    }

    method WriteObject(index: int, flow: string, r: ObjectResult, ghost summary: Summary) returns (ok: bool)
      requires Core(run.objectSummaries[(index, flow) := summary]) && index in run.startedInputs
      modifies this, encoder, mailbox`stopped
      ensures ok ==> Core(run.objectSummaries[(index, flow) := summary.Add(r)]) && unchanged(this`run) && encoder.log == old(encoder.log) + [ObjectCompleted(index, flow, r)]
      ensures !ok ==> Core(run.objectSummaries[(index, flow) := summary]) && run.err
      ensures Continues() && (old(Open()) ==> ok && Open())
    {
      var malformed := *;
      if malformed && !encoder.reliable {
        Fail();
        return false;
      }
      ok := WriteTallied(index, flow, r, summary);
    }

    method WriteTallied(index: int, flow: string, r: ObjectResult, ghost summary: Summary) returns (ok: bool)
      requires Core(run.objectSummaries[(index, flow) := summary]) && index in run.startedInputs
      modifies this, encoder, mailbox`stopped
      ensures ok ==> Core(run.objectSummaries[(index, flow) := summary.Add(r)]) && unchanged(this`run) && encoder.log == old(encoder.log) + [ObjectCompleted(index, flow, r)]
      ensures !ok ==> Core(run.objectSummaries[(index, flow) := summary]) && run.err
      ensures Continues() && (old(Open()) ==> ok && Open())
    {
      ghost var sums := run.objectSummaries[(index, flow) := summary];
      ghost var more := run.objectSummaries[(index, flow) := summary.Add(r)];
      assert sums[(index, flow) := summary.Add(r)] == more;
      if !run.err {
        ObjectKept(run, Known(), sums, index, flow, r);
      }
      ok := Write(ObjectCompleted(index, flow, r), run, sums, more);
    }

    method Retry()
      requires Valid()
      modifies this, encoder, mailbox`stopped
      ensures Valid() && Continues()
      ensures run.err || run.finished || run.retries == old(run.retries) + 1
    {
      if !run.err && !run.finished {
        var ok := WriteRetry();
      }
    }

    method WriteRetry() returns (ok: bool)
      requires Valid() && !run.finished
      modifies this, encoder, mailbox`stopped
      ensures Valid() && Continues()
      ensures ok ==> run.retries == old(run.retries) + 1
      ensures !ok ==> run.err
      ensures old(Open()) ==> ok && Open()
    {
      if !run.err {
        RetryKept(run, Known(), run.objectSummaries);
      }
      ok := Write(RetryScheduled, run.(retries := run.retries + 1), run.objectSummaries, run.objectSummaries);
    }

    method Result(index: int, result: InputResult) returns (ok: bool)
      requires Valid()
      modifies this, encoder, mailbox
      ensures Valid() && Continues()
      ensures ok ==> index !in old(run.terminal) && run.terminal == old(run.terminal)[index := result.failed]
      ensures !ok ==> run.err
      ensures ok ==> EndsWith(encoder.log, ResultEvents(index, result))
      ensures old(Open()) && index in old(run.declared) && index !in old(run.terminal) && Tallied(result.flows, index, old(run.objectSummaries)) ==> ok && Open()
      ensures ok ==> Shown(old(mailbox.pending), false, index, old(encoder.log), encoder.log)
    {
      ok := ResultLocked(index, result);
    }

    // No progress of this input waits, and none can arrive.
    ghost predicate Silent(i: int)
      reads mailbox`pending, mailbox`sealed
    {
      i in mailbox.sealed && forall k :: k in mailbox.pending ==> k.0 != i
    }

    method ResultLocked(index: int, result: InputResult) returns (ok: bool)
      requires Valid()
      modifies this, encoder, mailbox
      ensures Valid() && Continues()
      ensures ok ==> index in old(run.declared) && index !in old(run.terminal)
      ensures ok ==> run.terminal == old(run.terminal)[index := result.failed] && !run.finished
      ensures !ok ==> run.err
      ensures result.failed && result.flows == [] && old(Quiet(mailbox)) ==> Quiet(mailbox)
      ensures ok ==> EndsWith(encoder.log, ResultEvents(index, result))
      ensures old(Open()) && index in old(run.declared) && index !in old(run.terminal) && Tallied(result.flows, index, old(run.objectSummaries)) ==> ok && Open()
      ensures ok ==> Shown(old(mailbox.pending), false, index, old(encoder.log), encoder.log)
    {
      if index !in run.declared || index in run.terminal {
        Refuse();
        ok := false;
      } else {
        ok := SettleInput(index, result);
      }
    }

    method SettleInput(index: int, result: InputResult) returns (ok: bool)
      requires Valid() && index in run.declared && index !in run.terminal
      modifies this, encoder, mailbox
      ensures Valid() && Continues() && (!ok ==> run.err)
      ensures ok ==> run.terminal == old(run.terminal)[index := result.failed] && !run.finished
      ensures result.failed && result.flows == [] && old(mailbox.pending == map[] && mailbox.started <= mailbox.sealed) ==> mailbox.pending == map[] && mailbox.started <= mailbox.sealed
      ensures ok ==> EndsWith(encoder.log, ResultEvents(index, result))
      ensures old(Open()) && Tallied(result.flows, index, old(run.objectSummaries)) ==> ok && Open()
      ensures ok ==> Shown(old(mailbox.pending), false, index, old(encoder.log), encoder.log)
    {
      ok := OpenResult(index, result.flows != [] || !result.failed);
      if ok {
        ok := ConcludeInput(index, result, old(mailbox.pending), old(encoder.log));
      }
    }

    method ConcludeInput(index: int, result: InputResult, ghost pending: map<(int, Phase), Snapshot>, ghost start: seq<Event>) returns (ok: bool)
      requires Valid() && index in run.declared && index !in run.terminal && Silent(index) && (result.flows != [] ==> index in run.startedInputs)
      requires Shown(pending, false, index, start, encoder.log)
      modifies this, encoder, mailbox`stopped
      ensures Valid() && Continues()
      ensures ok ==> run.terminal == old(run.terminal)[index := result.failed] && !run.finished
      ensures !ok ==> run.err
      ensures ok ==> EndsWith(encoder.log, ResultEvents(index, result)) && Shown(pending, false, index, start, encoder.log)
      ensures old(mailbox.pending == map[] && mailbox.started <= mailbox.sealed) ==> mailbox.pending == map[] && mailbox.started <= mailbox.sealed
      ensures old(Open()) && Tallied(result.flows, index, old(run.objectSummaries)) ==> ok && Open()
    {
      ghost var log := encoder.log;
      ok := WriteResult(index, result);
      if ok {
        ResultEnds(log, index, result);
        ShownStays(pending, false, index, start, log, encoder.log);
      }
    }

    method OpenResult(index: int, start: bool) returns (ok: bool)
      requires Valid() && index in run.declared
      modifies this, encoder, mailbox
      ensures Valid() && Continues()
      ensures ok ==> Silent(index) && index in run.declared && run.terminal == old(run.terminal) && (start ==> index in run.startedInputs)
      ensures !ok ==> run.err
      ensures !start && old(Quiet(mailbox)) ==> Quiet(mailbox)
      ensures old(Open()) ==> ok && Open()
      ensures ok ==> run.objectSummaries == old(run.objectSummaries)
      ensures ok ==> Shown(old(mailbox.pending), false, index, old(encoder.log), encoder.log)
    {
      ok := QuietInput(index);
      if ok && start {
        ghost var after := encoder.log;
        ok := EnsureInputStarted(index);
        ShownStays(old(mailbox.pending), false, index, old(encoder.log), after, encoder.log);
      }
    }

    method WriteResult(index: int, result: InputResult) returns (ok: bool)
      requires Valid() && index in run.declared && index !in run.terminal && Silent(index) && (result.flows != [] ==> index in run.startedInputs)
      modifies this, encoder, mailbox`stopped
      ensures Valid() && Continues()
      ensures ok ==> run.terminal == old(run.terminal)[index := result.failed] && !run.finished
      ensures !ok ==> run.err
      ensures ok ==> encoder.log == old(encoder.log) + Details(index, result) + [InputFinished(index, result.failed)]
      ensures old(Open()) && Tallied(result.flows, index, old(run.objectSummaries)) ==> ok && Open()
    {
      ok := WriteDetails(index, result);
      if ok {
        ok := WriteInputFinished(index, result.failed);
      }
    }

    method WriteDetails(index: int, result: InputResult) returns (ok: bool)
      requires Valid() && index !in run.terminal && (result.flows != [] ==> index in run.startedInputs)
      modifies this, encoder, mailbox`stopped
      ensures Valid() && Continues()
      ensures ok ==> unchanged(this`run)
      ensures ok ==> encoder.log == old(encoder.log) + Details(index, result)
      ensures !ok ==> run.err
      ensures old(Open()) && Tallied(result.flows, index, old(run.objectSummaries)) ==> ok && Open()
    {
      ResultLog(encoder.log, index, result);
      ok := WriteFlows(index, result.flows);
      if ok && result.failed {
        ok := WriteDiagnostic();
      }
    }

    method QuietInput(index: int) returns (ok: bool)
      requires Valid()
      modifies this, encoder, mailbox
      ensures Valid() && Continues() && Silent(index)
      ensures ok ==> unchanged(this`run)
      ensures !ok ==> run.err
      ensures old(Quiet(mailbox)) ==> Quiet(mailbox)
      ensures old(Open()) ==> ok && Open()
      ensures ok ==> Shown(old(mailbox.pending), false, index, old(encoder.log), encoder.log)
    {
      Seal({index});
      ghost var pending := mailbox.pending;
      ok := Flush(false, index);
      if ok {
        ShownOlder(old(mailbox.pending), pending, false, index, old(encoder.log), encoder.log);
      }
    }

    method WriteFlows(index: int, flows: seq<FlowResult>) returns (ok: bool)
      requires Valid() && index !in run.terminal && (flows != [] ==> index in run.startedInputs)
      modifies this, encoder, mailbox`stopped
      ensures Valid() && Continues()
      ensures ok ==> unchanged(this`run)
      ensures ok ==> encoder.log == old(encoder.log) + FlowEvents(index, flows)
      ensures !ok ==> run.err
      ensures old(Open()) && Tallied(flows, index, old(run.objectSummaries)) ==> ok && Open()
    {
      var k := 0;
      ok := true;
      while ok && k < |flows|
        invariant k <= |flows| && Valid() && Continues()
        invariant if ok then unchanged(this`run) && encoder.log == old(encoder.log) + FlowEvents(index, flows[..k]) else run.err
        invariant old(Open()) && Tallied(flows, index, old(run.objectSummaries)) ==> ok
        decreases |flows| - k
      {
        ok := WriteFlowAt(index, flows, k, old(encoder.log));
        k := k + 1;
      }
      assert flows[..|flows|] == flows;
    }

    method WriteFlowAt(index: int, flows: seq<FlowResult>, k: nat, ghost start: seq<Event>) returns (ok: bool)
      requires Valid() && k < |flows| && index in run.startedInputs && index !in run.terminal
      requires encoder.log == start + FlowEvents(index, flows[..k])
      modifies this, encoder, mailbox`stopped
      ensures Valid() && Continues() && (!ok ==> run.err)
      ensures ok ==> unchanged(this`run) && encoder.log == start + FlowEvents(index, flows[..k + 1])
      ensures old(Open()) && Tallied(flows, index, old(run.objectSummaries)) ==> ok
    {
      FlowEventsMore(start, index, flows, k);
      ok := WriteFlow(index, flows[k]);
    }

    method WriteFlow(index: int, flow: FlowResult) returns (ok: bool)
      requires Valid() && index in run.startedInputs && index !in run.terminal
      modifies this, encoder, mailbox`stopped
      ensures Valid() && Continues()
      ensures ok ==> unchanged(this`run) && flow.summary == SumIn(run.objectSummaries, index, flow.flow)
      ensures ok ==> encoder.log == old(encoder.log) + [FlowCompleted(index, flow.flow, flow.summary)]
      ensures !ok ==> run.err
      ensures old(Open()) && flow.summary == SumIn(old(run.objectSummaries), index, flow.flow) ==> ok && Open()
    {
      if SumIn(run.objectSummaries, index, flow.flow) != flow.summary {
        Refuse();
        return false;
      }
      ghost var sums := run.objectSummaries;
      if !run.err {
        SumsRead(run, Known(), sums, index, flow.flow);
      }
      ok := Write(FlowCompleted(index, flow.flow, flow.summary), run, sums, sums);
    }

    method WriteDiagnostic() returns (ok: bool)
      requires Valid()
      modifies this, encoder, mailbox`stopped
      ensures Valid() && Continues()
      ensures ok ==> unchanged(this`run)
      ensures ok ==> encoder.log == old(encoder.log) + [Diagnostic]
      ensures !ok ==> run.err
      ensures old(Open()) ==> ok && Open()
    {
      var invalid := *;
      if invalid && !encoder.reliable {
        Refuse();
        return false;
      }
      ok := Write(Diagnostic, run, run.objectSummaries, run.objectSummaries);
    }

    method WriteInputFinished(index: int, failed: bool) returns (ok: bool)
      requires Valid() && index in run.declared && index !in run.terminal && Silent(index)
      modifies this, encoder, mailbox`stopped
      ensures Valid() && Continues()
      ensures ok ==> run.terminal == old(run.terminal)[index := failed] && !run.finished
      ensures ok ==> encoder.log == old(encoder.log) + [InputFinished(index, failed)]
      ensures !ok ==> run.err
      ensures old(Open()) ==> ok && Open()
    {
      if !run.err {
        InputFinishedKept(run, Known(), run.objectSummaries, index, failed);
      }
      ok := Write(InputFinished(index, failed), run.(terminal := run.terminal[index := failed]), run.objectSummaries, run.objectSummaries);
    }

    // ---------- Cancellation and the end of the run ----------

    // The watcher's step when the caller's context ends.
    method Cancelled()
      requires Valid()
      modifies this, encoder, mailbox`stopped
      ensures Valid() && Continues() && run.terminalFrozen == old(run.terminalFrozen)
      ensures !run.err && !old(run.finished) && !old(run.terminalFrozen) ==> run.cancellation
      ensures old(Open()) ==> Open()
    {
      if !(run.cancellation || run.finished || run.terminalFrozen || run.err) {
        RecordCancellation();
      }
    }

    method RecordCancellation()
      requires Valid() && !run.cancellation && !run.finished && (run.terminalFrozen ==> run.interrupted)
      modifies this, encoder, mailbox`stopped
      ensures Valid() && Grows() && (run.err || run.cancellation)
      ensures run.terminalFrozen == old(run.terminalFrozen) && run.interrupted == old(run.interrupted) && run.finished == old(run.finished)
      ensures old(Open()) ==> Open() && run.cancellation
    {
      var ok := StartLocked();
      if ok {
        ok := WriteCancellation();
      }
    }

    method WriteCancellation() returns (ok: bool)
      requires Valid() && run.runStarted && !run.cancellation && (run.terminalFrozen ==> run.interrupted)
      modifies this, encoder, mailbox`stopped
      ensures Valid() && Grows()
      ensures if ok then run == old(run).(cancellation := true) else run.err && SameFlags()
      ensures old(Open()) ==> ok && Open()
    {
      if !run.err {
        CancellationKept(run, Known(), run.objectSummaries);
      }
      ok := Write(CancellationRequested, run.(cancellation := true), run.objectSummaries, run.objectSummaries);
    }

    /** The first freeze decides whether cancellation owns the run; every later one gives the same
        answer, and no cancellation is recorded after it. */
    method FreezeTerminal(contextEnded: bool) returns (interrupted: bool)
      requires Valid()
      modifies this, encoder, mailbox`stopped
      ensures Valid() && Continues() && run.terminalFrozen && run.interrupted == interrupted
      ensures !old(run.terminalFrozen) ==> (interrupted <==> contextEnded || old(run.cancellation))
      ensures !run.err && interrupted ==> run.cancellation || old(run.terminalFrozen)
      ensures run.finished == old(run.finished)
      ensures old(Open()) ==> Open()
    {
      if run.terminalFrozen {
        return run.interrupted;
      }
      interrupted := contextEnded || run.cancellation;
      Decide(interrupted);
      if interrupted && !run.cancellation {
        RecordCancellation();
      }
    }

    // The decision stands before the write that may announce it.
    method Decide(interrupted: bool)
      requires Valid() && !run.terminalFrozen && (run.cancellation ==> interrupted)
      modifies this
      ensures Valid() && run == old(run).(terminalFrozen := true, interrupted := interrupted)
    {
      run := run.(terminalFrozen := true, interrupted := interrupted);
    }

    method FlushTick()
      requires Valid()
      modifies this, encoder, mailbox
      ensures Valid() && Continues()
      ensures !run.err && !old(run.finished) ==> Shown(old(mailbox.pending), true, 0, old(encoder.log), encoder.log) && mailbox.pending == map[]
    {
      if !run.err && !run.finished {
        var ok := Flush(true, 0);
      }
    }

    // Closing a finished stream adds nothing to it and cannot fail it.
    method Close()
      requires Valid()
      modifies this, encoder, mailbox
      ensures Valid() && Continues() && mailbox.stopped
      ensures old(run.finished) ==> run.err == old(run.err)
    {
      Seal(run.declared.Keys);
      var ok := Flush(true, 0);
      Stop();
    }

    /** Ends the stream: on success its last record is run.finished, so that RunAccounted holds of it,
        after a diagnostic if there was a cause; and a frozen interruption decides the exit code. */
    method Finish(cause: bool, requestedExit: int, contextEnded: bool) returns (exit: int, failed: bool)
      requires Valid()
      modifies this, encoder, mailbox
      ensures Valid() && Continues() && mailbox.stopped
      ensures failed ==> run.err
      ensures !failed ==> run.finished && encoder.log != [] && encoder.log[|encoder.log| - 1].RunFinished?
      ensures !failed && !old(run.finished) ==> exit == if run.interrupted then EXIT_INTERRUPTED else requestedExit
      ensures old(run.finished) ==> exit == old(run.exitCode) && encoder.log == old(encoder.log)
      ensures !failed && !old(run.finished) ==> Judged(encoder.log, exit)
      ensures !failed && !old(run.finished) && (cause || run.interrupted) ==> Diagnosed(encoder.log)
      ensures old(Open()) ==> !failed
    {
      if run.finished {
        exit, failed := run.exitCode, run.err;
      } else if run.err {
        exit, failed := EXIT_GENERAL, true;
      } else {
        exit, failed := FinishLocked(cause, requestedExit, contextEnded);
      }
      Stop();
    }

    method FinishLocked(cause: bool, requestedExit: int, contextEnded: bool) returns (exit: int, failed: bool)
      requires Valid() && !run.finished && !run.err
      modifies this, encoder, mailbox
      ensures Valid() && Continues() && (failed ==> run.err)
      ensures !failed ==> run.finished && exit == if run.interrupted then EXIT_INTERRUPTED else requestedExit
      ensures !failed ==> Judged(encoder.log, exit)
      ensures !failed && (cause || run.interrupted) ==> Diagnosed(encoder.log)
      ensures old(Open()) ==> !failed
    {
      var interrupted := FreezeTerminal(contextEnded);
      exit := if interrupted then EXIT_INTERRUPTED else requestedExit;
      var ok := EndRun(cause || interrupted, exit);
      exit, failed := if ok then exit else EXIT_GENERAL, !ok;
    }

    method EndRun(diagnose: bool, exit: int) returns (ok: bool)
      requires Valid() && !run.finished && run.terminalFrozen && (run.interrupted ==> exit == EXIT_INTERRUPTED)
      modifies this, encoder, mailbox
      ensures Valid() && Continues()
      ensures if ok then run.finished && !run.err && Judged(encoder.log, exit) else run.err
      ensures ok && diagnose ==> Diagnosed(encoder.log)
      ensures old(Open()) ==> ok
    {
      ok := PrepareEnd();
      if ok {
        ok := CloseRun(diagnose, exit);
      }
    }

    // Starts what was never started, drains the mailbox and settles every input.
    method PrepareEnd() returns (ok: bool)
      requires Valid() && !run.finished
      modifies this, encoder, mailbox
      ensures Valid() && Continues()
      ensures ok ==> !run.finished && run.runStarted && run.manifest && Quiet(mailbox) && Settled(run.terminal, |run.declared|)
      ensures !ok ==> run.err
      ensures old(Open()) ==> ok && Open()
    {
      ok := SealManifest();
      if ok {
        ok := SettleInputs();
      }
    }

    method SettleInputs() returns (ok: bool)
      requires Valid() && !run.finished && run.runStarted && run.manifest
      modifies this, encoder, mailbox
      ensures Valid() && Continues()
      ensures ok ==> !run.finished && Quiet(mailbox) && Settled(run.terminal, |run.declared|)
      ensures !ok ==> run.err
      ensures old(Open()) ==> ok && Open()
    {
      ok := QuietAll();
      if ok {
        ok := FailTheRest();
      }
    }

    method SealManifest() returns (ok: bool)
      requires Valid() && !run.finished
      modifies this, encoder, mailbox`stopped
      ensures Valid() && Continues()
      ensures ok ==> !run.finished && run.runStarted && run.manifest
      ensures !ok ==> run.err
      ensures old(Open()) ==> ok && Open()
    {
      ok := StartLocked();
      if ok && !run.manifest {
        ok := WriteManifest();
      }
    }

    method QuietAll() returns (ok: bool)
      requires Valid()
      modifies this, encoder, mailbox
      ensures Valid() && Continues()
      ensures ok ==> unchanged(this`run) && Quiet(mailbox)
      ensures !ok ==> run.err
      ensures old(Open()) ==> ok && Open()
    {
      Seal(run.declared.Keys);
      ok := Flush(true, 0);
    }

    // Inputs that never finished get a failed result, in source order.
    method FailTheRest() returns (ok: bool)
      requires Valid() && !run.finished && run.runStarted && run.manifest && Quiet(mailbox)
      modifies this, encoder, mailbox
      ensures Valid() && Continues()
      ensures ok ==> !run.finished && Quiet(mailbox) && Settled(run.terminal, |run.declared|)
      ensures !ok ==> run.err
      ensures old(Open()) ==> ok && Open()
    {
      var k, n := 0, |run.declared|;
      while k < n
        invariant k <= n == |run.declared| && Valid() && Continues() && Quiet(mailbox) && !run.finished && run.manifest
        invariant Settled(run.terminal, k) && (old(Open()) ==> Open())
      {
        ok := FailOne(k);
        if !ok {
          return;
        }
        k := k + 1;
      }
      ok := true;
    }

    method FailOne(index: int) returns (ok: bool)
      requires Valid() && !run.finished && Quiet(mailbox) && 0 <= index < |run.declared| && Settled(run.terminal, index)
      modifies this, encoder, mailbox
      ensures Valid() && Continues() && (!ok ==> run.err)
      ensures ok ==> !run.finished && Quiet(mailbox) && Settled(run.terminal, index + 1)
      ensures old(Open()) ==> ok && Open()
    {
      SettledMore(run.terminal, index);
      if index in run.terminal {
        ok := true;
      } else {
        ok := ResultLocked(index, InputResult(true, []));
      }
    }

    method CloseRun(diagnose: bool, exit: int) returns (ok: bool)
      requires Valid() && !run.finished && run.runStarted && run.manifest && run.terminalFrozen && Quiet(mailbox)
      requires Settled(run.terminal, |run.declared|)
      requires run.interrupted ==> exit == EXIT_INTERRUPTED
      modifies this, encoder, mailbox
      ensures Valid() && Continues()
      ensures ok ==> run.finished && !run.err && Judged(encoder.log, exit)
      ensures ok && diagnose ==> Diagnosed(encoder.log)
      ensures !ok ==> run.err
      ensures old(Open()) ==> ok
    {
      ok := true;
      if diagnose {
        ok := WriteDiagnostic();
      }
      if ok {
        ok := WriteRunFinished(exit);
      }
    }

    method WriteRunFinished(exit: int) returns (ok: bool)
      requires Valid() && !run.finished && run.runStarted && run.manifest && run.terminalFrozen && Quiet(mailbox)
      requires Settled(run.terminal, |run.declared|)
      requires run.interrupted ==> exit == EXIT_INTERRUPTED
      modifies this, encoder, mailbox
      ensures Valid() && Continues()
      ensures ok ==> run.finished && !run.err && run.exitCode == exit
      ensures ok ==> |encoder.log| == |old(encoder.log)| + 1 && encoder.log[..|old(encoder.log)|] == old(encoder.log) && encoder.log[|old(encoder.log)|].RunFinished?
      ensures ok ==> Judged(encoder.log, exit)
      ensures !ok ==> run.err
      ensures old(Open()) ==> ok
    {
      var succeeded, failures := Count(run.terminal);
      VerdictsCounted(encoder.log, RunFinished(OutcomeOf(exit, succeeded, failures), |run.declared|, succeeded, failures, run.retries));
      ok := EmitRunFinished(OutcomeOf(exit, succeeded, failures), succeeded, failures);
      if ok {
        MarkFinished(exit);
      }
    }

    // Between the last record and the flag that says so.
    ghost predicate Ended()
      reads this, encoder, mailbox
    {
      && encoder.Valid() && encoder.finished && !encoder.failed && !encoder.final && Legal(encoder.log) && mailbox.Valid() && Quiet(mailbox)
      && !run.err && !run.finished && run.manifest && run.terminalFrozen
      && Inv(run, Known(), run.objectSummaries)
      && Linked(run.startedInputs, run.terminal, Known().revisions, mailbox.pending, mailbox.started, mailbox.sealed, mailbox.drained)
    }

    method MarkFinished(exit: int)
      requires Ended()
      modifies this, encoder, mailbox
      ensures Valid() && run == old(run).(finished := true, exitCode := exit, closed := true) && encoder.log == old(encoder.log)
    {
      var sound := encoder.Finalize();
      assert sound;
      mailbox.Interference();
      mailbox.Stop();
      run := run.(finished := true, exitCode := exit, closed := true);
    }

    method EmitRunFinished(outcome: Outcome, succeeded: nat, failures: nat) returns (ok: bool)
      requires Valid() && !run.finished && run.runStarted && run.manifest && run.terminalFrozen && Quiet(mailbox)
      requires Settled(run.terminal, |run.declared|)
      requires failures == |Failures(run.terminal)| && succeeded == |run.terminal.Keys - Failures(run.terminal)|
      requires run.interrupted ==> outcome == RunInterrupted
      requires outcome == RunSucceeded ==> failures == 0
      requires outcome == RunPartial ==> succeeded > 0 && failures > 0
      modifies this, encoder, mailbox`stopped
      ensures Continues()
      ensures ok ==> Ended() && unchanged(this`run)
      ensures ok ==> encoder.log == old(encoder.log) + [RunFinished(outcome, |run.declared|, succeeded, failures, run.retries)]
      ensures !ok ==> Valid() && run.err
      ensures old(Open()) ==> ok
    {
      ok := Emit(RunFinished(outcome, |run.declared|, succeeded, failures, run.retries));
    }
  }

  // Some input's terminal record says that it failed, or that it did not.
  ghost predicate Ends(log: seq<Event>, failed: bool) {
    exists k :: 0 <= k < |log| && log[k].InputFinished? && log[k].failed == failed
  }

  /** The verdict of the last record, from the exit code and the terminal records before it. */
  ghost predicate Judged(log: seq<Event>, exit: int) {
    && log != [] && log[|log| - 1].RunFinished?
    && var outcome := log[|log| - 1].outcome;
       && (outcome == RunInterrupted <==> exit == EXIT_INTERRUPTED)
       && (outcome == RunPartial <==> exit != EXIT_INTERRUPTED && Ends(log, true) && Ends(log, false))
       && (outcome == RunFailed <==> exit != EXIT_INTERRUPTED && !(Ends(log, true) && Ends(log, false)) && (exit != EXIT_OK || Ends(log, true)))
       && (outcome == RunSucceeded <==> exit == EXIT_OK && !Ends(log, true))
  }

  ghost predicate SomeVerdict(finished: map<int, bool>, failed: bool) { exists i :: i in finished && finished[i] == failed }

  lemma {:induction false} VerdictsRecorded(log: seq<Event>, last: Event, failed: bool)
    requires Legal(log) && last.RunFinished?
    ensures Ends(log + [last], failed) <==> SomeVerdict(Replay(log).finished, failed)
  {
    var finished, all := Replay(log).finished, log + [last];
    assert log[..|log|] == log;
    if Ends(all, failed) {
      var k :| 0 <= k < |all| && all[k].InputFinished? && all[k].failed == failed;
      assert all[k] == log[k];
      VerdictKnown(log, |log|, k);
    }
    if SomeVerdict(finished, failed) {
      var i :| i in finished && finished[i] == failed;
      var k := VerdictRecorded(log, |log|, i);
      assert all[k] == log[k];
    }
  }

  lemma {:induction false} VerdictsCounted(log: seq<Event>, last: Event)
    requires Legal(log) && last.RunFinished?
    ensures var finished := Replay(log).finished;
      && (Ends(log + [last], true) <==> |Failures(finished)| > 0)
      && (Ends(log + [last], false) <==> |finished.Keys - Failures(finished)| > 0)
  {
    var finished := Replay(log).finished;
    VerdictsRecorded(log, last, true);
    VerdictsRecorded(log, last, false);
    SomeCounted(finished, Failures(finished), true);
    SomeCounted(finished, finished.Keys - Failures(finished), false);
  }

  lemma SomeCounted(finished: map<int, bool>, such: set<int>, failed: bool)
    requires forall i :: i in such <==> i in finished && finished[i] == failed
    ensures SomeVerdict(finished, failed) <==> |such| > 0
  {
    if SomeVerdict(finished, failed) {
      var i :| i in finished && finished[i] == failed;
      assert i in such;
    }
    if forall i: int :: i !in such {
      assert such == {};
    }
  }

  function OutcomeOf(exit: int, succeeded: nat, failures: nat): Outcome {
    if exit == EXIT_INTERRUPTED then RunInterrupted
    else if succeeded > 0 && failures > 0 then RunPartial
    else if exit != EXIT_OK || failures > 0 then RunFailed
    else RunSucceeded
  }

  lemma Removed(s: set<int>, left: set<int>, i: int)
    requires i in left
    ensures |s - (left - {i})| == |s - left| + if i in s then 1 else 0
  {
    if i in s {
      assert s - (left - {i}) == s - left + {i};
    } else {
      assert s - (left - {i}) == s - left;
    }
  }

  method Count(terminal: map<int, bool>) returns (succeeded: nat, failures: nat)
    ensures failures == |Failures(terminal)| && succeeded == |terminal.Keys - Failures(terminal)|
  {
    succeeded, failures := 0, 0;
    var left: set<int> := terminal.Keys;
    ghost var bad, good := Failures(terminal), terminal.Keys - Failures(terminal);
    assert bad - left == {} && good - left == {};
    while exists i :: i in left
      invariant left <= terminal.Keys && failures == |bad - left| && succeeded == |good - left|
      decreases |left|
    {
      var i :| i in left;
      Removed(bad, left, i);
      Removed(good, left, i);
      if terminal[i] {
        failures := failures + 1;
      } else {
        succeeded := succeeded + 1;
      }
      left := left - {i};
    }
    assert bad - left == bad && good - left == good;
  }

  // ---------- Every schedule ----------

  // What may happen next: a public method, a tick of the flush loop, the watcher or reporters.
  datatype Op =
    | OpStart
    | OpDeclare(items: seq<string>)
    | OpInputBegins(index: int)
    | OpPlanFlow(index: int, flow: string)
    | OpObjects(index: int, flow: string, objects: seq<ObjectResult>)
    | OpRetry
    | OpResult(index: int, result: InputResult)
    | OpFreeze(contextEnded: bool)
    | OpCancelled
    | OpTick
    | OpFinish(cause: bool, requestedExit: int, contextEnded: bool)
    | OpClose
    | OpReports

  method Perform(o: Output, op: Op)
    requires o.Valid()
    modifies o, o.encoder, o.mailbox
    ensures o.Valid() && o.Continues()
    ensures op.OpFreeze? ==> o.run.terminalFrozen
  {
    var ok: bool, exit: int;
    match op
    case OpStart => ok := o.Start();
    case OpDeclare(items) => ok := o.Declare(items);
    case OpInputBegins(index) => ok := o.InputBegins(index);
    case OpPlanFlow(index, flow) => ok := o.PlanFlow(index, flow);
    case OpObjects(index, flow, objects) => ok := o.ObjectsCompleted(index, flow, objects);
    case OpRetry => o.Retry();
    case OpResult(index, result) => ok := o.Result(index, result);
    case OpFreeze(contextEnded) => ok := o.FreezeTerminal(contextEnded);
    case OpCancelled => o.Cancelled();
    case OpTick => o.FlushTick();
    case OpFinish(cause, requestedExit, contextEnded) => exit, ok := o.Finish(cause, requestedExit, contextEnded);
    case OpClose => o.Close();
    case OpReports => o.LetReport();
  }

  lemma {:induction false} CancelledKept(log: seq<Event>, m: nat, n: nat)
    requires m <= n <= |log| && Replay(log[..m]).cancelled
    ensures Replay(log[..n]).cancelled
  {
    if m < n {
      CancelledKept(log, m, n - 1);
      assert log[..n][..n - 1] == log[..n - 1];
      GrowsFlags(Replay(log[..n - 1]), log[n - 1]);
    }
  }

  // No cancellation is recorded from one log to its extension.
  ghost predicate Uncancelled(before: seq<Event>, after: seq<Event>) {
    forall k :: |before| <= k < |after| ==> !after[k].CancellationRequested?
  }

  lemma {:induction false} UncancelledBetween(before: seq<Event>, after: seq<Event>)
    requires Legal(after) && before <= after && Replay(before).cancelled == Replay(after).cancelled
    ensures Uncancelled(before, after)
  {
    forall k | |before| <= k < |after| && after[k].CancellationRequested? ensures false {
      assert AllowedAt(after, k) && after[..|before|] == before && after[..|after|] == after;
      if Replay(before).cancelled {
        CancelledKept(after, |before|, k);
      }
      Remembered(after, k, |after|);
    }
  }

  datatype Moment = Moment(log: seq<Event>, frozen: bool)

  ghost function Now(o: Output): Moment
    reads o, o.encoder
  {
    Moment(o.encoder.log, o.run.terminalFrozen)
  }

  ghost predicate Follows(earlier: Moment, later: Moment) {
    earlier.log <= later.log && (earlier.frozen ==> later.frozen && Uncancelled(earlier.log, later.log))
  }

  // One operation of a schedule.
  method Step(o: Output, op: Op)
    requires o.Valid()
    modifies o, o.encoder, o.mailbox
    ensures o.Valid() && Legal(o.encoder.log)
    ensures Follows(old(Now(o)), Now(o)) && (op.OpFreeze? ==> o.run.terminalFrozen)
  {
    ghost var before, frozen := o.encoder.log, o.run.terminalFrozen;
    KnownCancelled(o);
    Perform(o, op);
    KnownCancelled(o);
    if frozen {
      UncancelledBetween(before, o.encoder.log);
    }
  }

  lemma KnownCancelled(o: Output)
    requires o.Valid()
    ensures o.encoder.log != [] ==> Replay(o.encoder.log).cancelled == o.run.cancellation
    ensures o.encoder.log == [] ==> o.run.err
  {
  }

  // Every log is legal and extends all earlier ones, and nothing is cancelled once the stream is frozen.
  ghost predicate History(ops: seq<Op>, moments: seq<Moment>) {
    && |moments| == |ops| + 1
    && (forall i :: 0 <= i < |moments| ==> Legal(moments[i].log))
    && (forall i, j :: 0 <= i <= j < |moments| ==> Follows(moments[i], moments[j]))
    && (forall k :: 0 <= k < |ops| && ops[k].OpFreeze? ==> moments[k + 1].frozen)
  }

  lemma HistoryMore(ops: seq<Op>, moments: seq<Moment>, op: Op, now: Moment)
    requires History(ops, moments) && Legal(now.log) && Follows(moments[|ops|], now) && (op.OpFreeze? ==> now.frozen)
    ensures History(ops + [op], moments + [now])
  {
    var more := moments + [now];
    forall i | 0 <= i < |moments| ensures Follows(moments[i], now) {
      assert Follows(moments[i], moments[|ops|]);
    }
    forall i, j | 0 <= i <= j < |more| ensures Follows(more[i], more[j]) {
      assert j < |moments| ==> Follows(moments[i], moments[j]);
    }
  }

  // One more operation after a schedule.
  method Extend(o: Output, ghost ops: seq<Op>, op: Op, ghost moments: seq<Moment>) returns (ghost more: seq<Moment>)
    requires o.Valid() && History(ops, moments) && moments[|ops|] == Now(o)
    modifies o, o.encoder, o.mailbox
    ensures o.Valid() && History(ops + [op], more) && more[|ops| + 1] == Now(o)
  {
    Step(o, op);
    HistoryMore(ops, moments, op, Now(o));
    more := moments + [Now(o)];
  }

  /** Every schedule of the public methods, the flush loop, the watcher and the reporters, with whatever
      arguments: each log is legal and extends every earlier one, and none records a cancellation that an
      earlier one, already frozen, does not have. A freeze freezes. */
  method AnySchedule(ops: seq<Op>, reliable: bool) returns (o: Output, ghost moments: seq<Moment>)
    ensures o.Valid() && fresh(o) && fresh(o.encoder) && fresh(o.mailbox)
    ensures History(ops, moments) && moments[|ops|] == Now(o)
    decreases |ops|
  {
    if ops == [] {
      o := new Output(reliable);
      moments := [Now(o)];
    } else {
      var last := |ops| - 1;
      assert ops == ops[..last] + [ops[last]];
      o, moments := AnySchedule(ops[..last], reliable);
      moments := Extend(o, ops[..last], ops[last], moments);
    }
  }
}
