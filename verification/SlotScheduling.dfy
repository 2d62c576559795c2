/** The shared slots of one Pipeline (internal/ingest/transfer.go:272-365,
    internal/ingest/pipeline.go:1049-1085): bounded channels for probes, transfers and the one rolling
    render, and a weighted semaphore of two media processes whose waiters are served strictly in
    order. Every acquisition and release is one step of some task. */
module SlotScheduling {
  import opened Text

  const PROCESSES := 2

  // What a rolling render's sink does with one finished Segment.
  datatype SinkJob = SinkProbe | SinkTransfer(desired: nat)

  datatype Resource = Processes | Probes | Rolling | TransferSlots

  datatype Task =
    | ProbeWait | ProbeHas | ProbeQueued | ProbeRuns
    | PlainStart(weight: nat) | PlainQueued(weight: nat) | PlainRuns(weight: nat)
    | RollWait(jobs: seq<SinkJob>) | RollHas(jobs: seq<SinkJob>) | RollQueued(jobs: seq<SinkJob>) | RollRuns(jobs: seq<SinkJob>)
    | SinkProbeWait(jobs: seq<SinkJob>) | SinkProbeHas(jobs: seq<SinkJob>) | SinkProbeQueued(jobs: seq<SinkJob>) | SinkProbeRuns(jobs: seq<SinkJob>)
    | SinkTransferWait(jobs: seq<SinkJob>, desired: nat) | SinkTransfers(jobs: seq<SinkJob>, held: nat)
    | TransferWait(desired: nat) | Transfers(held: nat)
    | Finished
  {
    // Does it wait in the semaphore's queue?
    predicate Queued() { ProbeQueued? || PlainQueued? || RollQueued? || SinkProbeQueued? }

    // How much it asks the semaphore for.
    function Asks(): nat { if PlainQueued? || PlainStart? then weight else 1 }

    // What it is once its request is granted.
    function Granted(): Task {
      if ProbeQueued? then ProbeRuns
      else if PlainQueued? then PlainRuns(weight)
      else if RollQueued? then RollRuns(jobs)
      else if SinkProbeQueued? then SinkProbeRuns(jobs)
      else this
    }

    predicate InSink() { SinkProbeWait? || SinkProbeHas? || SinkProbeQueued? || SinkProbeRuns? || SinkTransferWait? || SinkTransfers? }

    // How much of a resource it holds.
    function Holds(r: Resource): nat {
      match r
      case Processes => if PlainRuns? then weight else if SinkProbeRuns? then 2 else if ProbeRuns? || RollRuns? || InSink() then 1 else 0
      case Probes => if ProbeHas? || ProbeQueued? || ProbeRuns? || SinkProbeHas? || SinkProbeQueued? || SinkProbeRuns? then 1 else 0
      case Rolling => if RollHas? || RollQueued? || RollRuns? || InSink() then 1 else 0
      case TransferSlots => if SinkTransfers? || Transfers? then held else 0
    }

    predicate Rolls() { RollWait? || Holds(Rolling) == 1 }

    predicate Heavy() { (PlainStart? || PlainQueued? || PlainRuns?) && weight == 2 }

    // Weights are one or two; a held batch is never empty.
    predicate Sane() {
      && ((PlainStart? || PlainQueued? || PlainRuns?) ==> 1 <= weight <= 2)
      && ((SinkTransfers? || Transfers?) ==> held >= 1)
    }
  }

  datatype State = State(probeSlots: nat, transferSlots: nat, tasks: seq<Task>, queue: seq<nat>,
    processes: nat, probes: nat, rolling: nat, transfers: nat)
  {
    function Count(r: Resource): nat {
      match r
      case Processes => processes
      case Probes => probes
      case Rolling => rolling
      case TransferSlots => transfers
    }
  }

  function Total(tasks: seq<Task>, r: Resource): nat {
    if tasks == [] then 0 else Total(tasks[..|tasks| - 1], r) + tasks[|tasks| - 1].Holds(r)
  }

  lemma {:induction false} TotalUpdate(tasks: seq<Task>, i: nat, t: Task, r: Resource)
    requires i < |tasks|
    ensures Total(tasks[i := t], r) + tasks[i].Holds(r) == Total(tasks, r) + t.Holds(r)
  {
    var n := |tasks| - 1;
    if i < n {
      assert tasks[i := t][..n] == tasks[..n][i := t];
      TotalUpdate(tasks[..n], i, t, r);
    } else {
      assert tasks[i := t][..n] == tasks[..n];
    }
  }

  lemma {:induction false} TotalsUpdate(tasks: seq<Task>, i: nat, t: Task)
    requires i < |tasks|
    ensures forall r :: Total(tasks[i := t], r) == Total(tasks, r) + t.Holds(r) - tasks[i].Holds(r)
  {
    forall r: Resource ensures Total(tasks[i := t], r) == Total(tasks, r) + t.Holds(r) - tasks[i].Holds(r) {
      TotalUpdate(tasks, i, t, r);
    }
  }

  // ---------- The invariant ----------

  // The counters are what the tasks hold, and no channel or semaphore is overdrawn.
  ghost predicate Accounted(s: State) {
    && (forall r :: Total(s.tasks, r) == s.Count(r))
    && s.processes <= PROCESSES && s.probes <= s.probeSlots && s.rolling <= 1 && s.transfers <= s.transferSlots
  }

  // The queue lists the waiting tasks, each once.
  ghost predicate QueueMatches(tasks: seq<Task>, queue: seq<nat>) {
    && (forall k :: 0 <= k < |queue| ==> queue[k] < |tasks| && tasks[queue[k]].Queued())
    && (forall i :: 0 <= i < |tasks| && tasks[i].Queued() ==> i in queue)
    && (forall j, k :: 0 <= j < k < |queue| ==> queue[j] != queue[k])
  }

  // The first waiter does not fit; otherwise it would have been served.
  ghost predicate HeadBlocked(s: State) {
    s.queue != [] && s.queue[0] < |s.tasks| ==> s.processes + s.tasks[s.queue[0]].Asks() > PROCESSES
  }

  // Segment duration is fixed for a Pipeline: heavy renders and rolling renders never coexist.
  ghost predicate OneMode(s: State) {
    forall i, j :: 0 <= i < |s.tasks| && 0 <= j < |s.tasks| && s.tasks[i].Rolls() ==> !s.tasks[j].Heavy()
  }

  ghost predicate AllSane(tasks: seq<Task>) { forall i :: 0 <= i < |tasks| ==> tasks[i].Sane() }

  ghost predicate Consistent(s: State) {
    s.probeSlots >= 1 && s.transferSlots >= 1 && Accounted(s) && QueueMatches(s.tasks, s.queue) && AllSane(s.tasks)
  }

  ghost predicate Inv(s: State) { Consistent(s) && HeadBlocked(s) }

  // ---------- The semaphore ----------

  // The first waiter gets its tokens.
  function Serve(s: State): State
    requires s.queue != [] && s.queue[0] < |s.tasks|
  {
    var i := s.queue[0];
    s.(tasks := s.tasks[i := s.tasks[i].Granted()], queue := s.queue[1..], processes := s.processes + s.tasks[i].Asks())
  }

  // Serves waiters from the front while they fit.
  function Notify(s: State): State
    decreases |s.queue|
  {
    if s.queue == [] || s.queue[0] >= |s.tasks| || s.processes + s.tasks[s.queue[0]].Asks() > PROCESSES then s
    else Notify(Serve(s))
  }

  // Asks for the task's share, queueing behind every earlier waiter.
  function Acquire(s: State, i: nat, queued: Task): State
    requires i < |s.tasks|
  {
    if s.queue == [] && s.processes + queued.Asks() <= PROCESSES
    then s.(tasks := s.tasks[i := queued.Granted()], processes := s.processes + queued.Asks())
    else s.(tasks := s.tasks[i := queued], queue := s.queue + [i])
  }

  function Put(s: State, i: nat, t: Task): State
    requires i < |s.tasks|
  {
    s.(tasks := s.tasks[i := t])
  }

  // How many slots reserveTransferBatch ends up with: one, and then those that are free at once.
  function Batch(s: State, desired: nat, choice: nat): (n: nat)
    requires s.transfers < s.transferSlots
    ensures 1 <= n <= s.transferSlots - s.transfers && (desired >= 1 ==> n <= desired)
  {
    var most := if desired <= 1 then 1 else if desired <= s.transferSlots - s.transfers then desired else s.transferSlots - s.transfers;
    if 1 <= choice <= most then choice else most
  }

  // One step of task i, or None while it is blocked.
  function Next(s: State, i: nat, choice: nat): Option<State>
    requires i < |s.tasks|
  {
    match s.tasks[i]
    case ProbeWait => if s.probes < s.probeSlots then Some(Put(s, i, ProbeHas).(probes := s.probes + 1)) else None
    case ProbeHas => Some(Acquire(s, i, ProbeQueued))
    case ProbeRuns => if s.processes >= 1 && s.probes >= 1 then Some(Notify(Put(s, i, Finished).(processes := s.processes - 1, probes := s.probes - 1))) else None
    case PlainStart(w) => Some(Acquire(s, i, PlainQueued(w)))
    case PlainRuns(w) => if s.processes >= w then Some(Notify(Put(s, i, Finished).(processes := s.processes - w))) else None
    case RollWait(jobs) => if s.rolling < 1 then Some(Put(s, i, RollHas(jobs)).(rolling := s.rolling + 1)) else None
    case RollHas(jobs) => Some(Acquire(s, i, RollQueued(jobs)))
    case RollRuns(jobs) =>
      if jobs != [] && choice > 0 then
        Some(Put(s, i, if jobs[0].SinkProbe? then SinkProbeWait(jobs[1..]) else SinkTransferWait(jobs[1..], jobs[0].desired)))
      else if s.processes >= 1 && s.rolling >= 1 then
        Some(Notify(Put(s, i, Finished).(processes := s.processes - 1, rolling := s.rolling - 1)))
      else None
    case SinkProbeWait(jobs) => if s.probes < s.probeSlots then Some(Put(s, i, SinkProbeHas(jobs)).(probes := s.probes + 1)) else None
    case SinkProbeHas(jobs) => Some(Acquire(s, i, SinkProbeQueued(jobs)))
    case SinkProbeRuns(jobs) =>
      if s.processes >= 1 && s.probes >= 1 then Some(Notify(Put(s, i, RollRuns(jobs)).(processes := s.processes - 1, probes := s.probes - 1))) else None
    case SinkTransferWait(jobs, desired) =>
      if s.transfers < s.transferSlots then
        var n := Batch(s, desired, choice);
        Some(Put(s, i, SinkTransfers(jobs, n)).(transfers := s.transfers + n))
      else None
    case SinkTransfers(jobs, n) => if s.transfers >= n then Some(Put(s, i, RollRuns(jobs)).(transfers := s.transfers - n)) else None
    case TransferWait(desired) =>
      if s.transfers < s.transferSlots then
        var n := Batch(s, desired, choice);
        Some(Put(s, i, Transfers(n)).(transfers := s.transfers + n))
      else None
    case Transfers(n) => if s.transfers >= n then Some(Put(s, i, Finished).(transfers := s.transfers - n)) else None
    case _ => None
  }

  // ---------- Every step keeps the invariant ----------

  lemma {:induction false} HoldsAtMostTotal(tasks: seq<Task>, i: nat, r: Resource)
    requires i < |tasks|
    ensures tasks[i].Holds(r) <= Total(tasks, r)
  {
    if i < |tasks| - 1 {
      HoldsAtMostTotal(tasks[..|tasks| - 1], i, r);
    }
  }

  lemma AccountedMove(s: State, i: nat, t: Task, next: State)
    requires i < |s.tasks| && Accounted(s) && next.tasks == s.tasks[i := t]
    requires next.processes + s.tasks[i].Holds(Processes) == s.processes + t.Holds(Processes) && next.probes + s.tasks[i].Holds(Probes) == s.probes + t.Holds(Probes)
    && next.rolling + s.tasks[i].Holds(Rolling) == s.rolling + t.Holds(Rolling) && next.transfers + s.tasks[i].Holds(TransferSlots) == s.transfers + t.Holds(TransferSlots)
    requires next.processes <= PROCESSES && next.probes <= next.probeSlots && next.rolling <= 1 && next.transfers <= next.transferSlots
    ensures Accounted(next)
  {
    TotalsUpdate(s.tasks, i, t);
    forall r: Resource ensures Total(next.tasks, r) == next.Count(r) {
      assert Total(s.tasks, r) == s.Count(r);
      match r case Processes => case Probes => case Rolling => case TransferSlots =>
    }
  }

  // A task outside the queue, before and after, leaves the queue alone.
  lemma {:induction false} OutsideQueue(s: State, i: nat, t: Task)
    requires i < |s.tasks| && QueueMatches(s.tasks, s.queue) && !s.tasks[i].Queued() && !t.Queued()
    ensures QueueMatches(s.tasks[i := t], s.queue)
    ensures HeadBlocked(s) ==> HeadBlocked(Put(s, i, t))
  {
    forall k | 0 <= k < |s.tasks| && s.tasks[i := t][k].Queued() ensures k in s.queue {
      assert k != i;
    }
  }

  // The counters after task i becomes t, given what that changes.
  ghost predicate Balanced(s: State, i: nat, t: Task, next: State)
    requires i < |s.tasks|
  {
    && next == Put(s, i, t).(processes := next.processes, probes := next.probes, rolling := next.rolling, transfers := next.transfers)
    && next.processes + s.tasks[i].Holds(Processes) == s.processes + t.Holds(Processes) && next.probes + s.tasks[i].Holds(Probes) == s.probes + t.Holds(Probes)
    && next.rolling + s.tasks[i].Holds(Rolling) == s.rolling + t.Holds(Rolling) && next.transfers + s.tasks[i].Holds(TransferSlots) == s.transfers + t.Holds(TransferSlots)
    && next.processes <= PROCESSES && next.probes <= s.probeSlots && next.rolling <= 1 && next.transfers <= s.transferSlots
  }

  lemma {:induction false} MoveKeeps(s: State, i: nat, t: Task, next: State)
    requires i < |s.tasks| && Consistent(s) && !s.tasks[i].Queued() && !t.Queued() && t.Sane() && Balanced(s, i, t, next)
    ensures Consistent(next)
    ensures HeadBlocked(s) && next.processes >= s.processes ==> HeadBlocked(next)
  {
    AccountedMove(s, i, t, next);
    OutsideQueue(s, i, t);
  }

  lemma {:induction false} Dequeue(tasks: seq<Task>, queue: seq<nat>, t: Task)
    requires QueueMatches(tasks, queue) && queue != [] && !t.Queued()
    ensures QueueMatches(tasks[queue[0] := t], queue[1..])
  {
    var i, later, rest := queue[0], tasks[queue[0] := t], queue[1..];
    forall k | 0 <= k < |later| && later[k].Queued() ensures k in rest {
      assert k != i && k in queue;
      var at :| 0 <= at < |queue| && queue[at] == k;
      assert rest[at - 1] == k;
    }
    forall k | 0 <= k < |rest| ensures rest[k] < |later| && later[rest[k]].Queued() {
      assert rest[k] == queue[k + 1] != queue[0];
    }
  }

  lemma {:induction false} Enqueue(tasks: seq<Task>, queue: seq<nat>, i: nat, t: Task)
    requires QueueMatches(tasks, queue) && i < |tasks| && !tasks[i].Queued() && t.Queued()
    ensures QueueMatches(tasks[i := t], queue + [i])
  {
    var later, longer := tasks[i := t], queue + [i];
    assert longer[|queue|] == i;
    forall k | 0 <= k < |later| && later[k].Queued() ensures k in longer {
      if k != i {
        assert k in queue;
      }
    }
    forall k | 0 <= k < |longer| ensures longer[k] < |later| && later[longer[k]].Queued() {
      if k < |queue| { assert longer[k] == queue[k] != i; }
    }
  }

  lemma GrantHolds(t: Task)
    requires t.Queued()
    ensures !t.Granted().Queued() && forall r :: t.Granted().Holds(r) == t.Holds(r) + if r == Processes then t.Asks() else 0
  {
    assert t.ProbeQueued? || t.PlainQueued? || t.RollQueued? || t.SinkProbeQueued?;
  }

  lemma GrantSane(t: Task)
    requires t.Queued() && t.Sane()
    ensures t.Granted().Sane()
  {
  }

  lemma ServeAccounts(s: State)
    requires Accounted(s) && s.queue != [] && s.queue[0] < |s.tasks| && s.tasks[s.queue[0]].Queued()
    requires s.processes + s.tasks[s.queue[0]].Asks() <= PROCESSES
    ensures Accounted(Serve(s))
  {
    var i := s.queue[0];
    GrantHolds(s.tasks[i]);
    AccountedMove(s, i, s.tasks[i].Granted(), Serve(s));
  }

  lemma SaneUpdate(tasks: seq<Task>, i: nat, t: Task)
    requires AllSane(tasks) && i < |tasks| && t.Sane()
    ensures AllSane(tasks[i := t])
  {
  }

  lemma ServeKeeps(s: State)
    requires Consistent(s) && s.queue != [] && s.processes + s.tasks[s.queue[0]].Asks() <= PROCESSES
    ensures Consistent(Serve(s))
  {
    var i := s.queue[0];
    ServeAccounts(s);
    GrantHolds(s.tasks[i]);
    GrantSane(s.tasks[i]);
    Dequeue(s.tasks, s.queue, s.tasks[i].Granted());
    SaneUpdate(s.tasks, i, s.tasks[i].Granted());
  }

  // Releasing tokens serves every waiter at the front that now fits, and only those.
  lemma {:induction false} NotifyKeeps(s: State)
    requires Consistent(s)
    ensures Inv(Notify(s))
    decreases |s.queue|
  {
    if s.queue != [] && s.processes + s.tasks[s.queue[0]].Asks() <= PROCESSES {
      ServeKeeps(s);
      NotifyKeeps(Serve(s));
    }
  }

  lemma {:induction false} AcquireKeeps(s: State, i: nat, queued: Task)
    requires i < |s.tasks| && Inv(s) && !s.tasks[i].Queued() && queued.Queued() && queued.Sane()
    requires forall r :: queued.Holds(r) == s.tasks[i].Holds(r)
    ensures Inv(Acquire(s, i, queued))
  {
    if s.queue == [] && s.processes + queued.Asks() <= PROCESSES {
      MoveKeeps(s, i, queued.Granted(), Acquire(s, i, queued));
    } else {
      EnqueueKeeps(s, i, queued);
    }
  }

  lemma {:induction false} EnqueueKeeps(s: State, i: nat, queued: Task)
    requires i < |s.tasks| && Inv(s) && !s.tasks[i].Queued() && queued.Queued() && queued.Sane()
    requires forall r :: queued.Holds(r) == s.tasks[i].Holds(r)
    requires s.queue == [] ==> s.processes + queued.Asks() > PROCESSES
    ensures Inv(s.(tasks := s.tasks[i := queued], queue := s.queue + [i]))
  {
    var next := s.(tasks := s.tasks[i := queued], queue := s.queue + [i]);
    AccountedMove(s, i, queued, next);
    Enqueue(s.tasks, s.queue, i, queued);
    SaneUpdate(s.tasks, i, queued);
    assert s.queue != [] ==> next.queue[0] == s.queue[0] != i;
  }

  lemma {:induction false} ProbeStepKeeps(s: State, i: nat, choice: nat)
    requires Inv(s) && i < |s.tasks| && Next(s, i, choice).Some?
    requires s.tasks[i].ProbeWait? || s.tasks[i].ProbeHas? || s.tasks[i].ProbeRuns?
    ensures Inv(Next(s, i, choice).value)
  {
    match s.tasks[i]
    case ProbeWait => MoveKeeps(s, i, ProbeHas, Next(s, i, choice).value);
    case ProbeHas => AcquireKeeps(s, i, ProbeQueued);
    case ProbeRuns => ReleaseKeeps(s, i, Finished, Put(s, i, Finished).(processes := s.processes - 1, probes := s.probes - 1));
  }

  lemma {:induction false} PlainStepKeeps(s: State, i: nat, choice: nat)
    requires Inv(s) && i < |s.tasks| && Next(s, i, choice).Some?
    requires s.tasks[i].PlainStart? || s.tasks[i].PlainRuns?
    ensures Inv(Next(s, i, choice).value)
  {
    match s.tasks[i]
    case PlainStart(w) => AcquireKeeps(s, i, PlainQueued(w));
    case PlainRuns(w) => ReleaseKeeps(s, i, Finished, Put(s, i, Finished).(processes := s.processes - w));
  }

  lemma {:induction false} RollStepKeeps(s: State, i: nat, choice: nat)
    requires Inv(s) && i < |s.tasks| && Next(s, i, choice).Some?
    requires s.tasks[i].RollWait? || s.tasks[i].RollHas? || s.tasks[i].RollRuns?
    ensures Inv(Next(s, i, choice).value)
  {
    match s.tasks[i]
    case RollWait(jobs) => MoveKeeps(s, i, RollHas(jobs), Next(s, i, choice).value);
    case RollHas(jobs) => AcquireKeeps(s, i, RollQueued(jobs));
    case RollRuns(jobs) =>
      if jobs != [] && choice > 0 {
        MoveKeeps(s, i, Next(s, i, choice).value.tasks[i], Next(s, i, choice).value);
      } else {
        ReleaseKeeps(s, i, Finished, Put(s, i, Finished).(processes := s.processes - 1, rolling := s.rolling - 1));
      }
  }

  lemma {:induction false} SinkStepKeeps(s: State, i: nat, choice: nat)
    requires Inv(s) && i < |s.tasks| && Next(s, i, choice).Some?
    requires s.tasks[i].SinkProbeWait? || s.tasks[i].SinkProbeHas? || s.tasks[i].SinkProbeRuns?
    ensures Inv(Next(s, i, choice).value)
  {
    match s.tasks[i]
    case SinkProbeWait(jobs) => MoveKeeps(s, i, SinkProbeHas(jobs), Next(s, i, choice).value);
    case SinkProbeHas(jobs) => AcquireKeeps(s, i, SinkProbeQueued(jobs));
    case SinkProbeRuns(jobs) => ReleaseKeeps(s, i, RollRuns(jobs), Put(s, i, RollRuns(jobs)).(processes := s.processes - 1, probes := s.probes - 1));
  }

  lemma {:induction false} TransferStepKeeps(s: State, i: nat, choice: nat)
    requires Inv(s) && i < |s.tasks| && Next(s, i, choice).Some?
    requires s.tasks[i].SinkTransferWait? || s.tasks[i].SinkTransfers? || s.tasks[i].TransferWait? || s.tasks[i].Transfers?
    ensures Inv(Next(s, i, choice).value)
  {
    var next := Next(s, i, choice).value;
    match s.tasks[i]
    case SinkTransferWait(jobs, desired) => MoveKeeps(s, i, SinkTransfers(jobs, Batch(s, desired, choice)), next);
    case SinkTransfers(jobs, n) => MoveKeeps(s, i, RollRuns(jobs), next);
    case TransferWait(desired) => MoveKeeps(s, i, Transfers(Batch(s, desired, choice)), next);
    case Transfers(n) => MoveKeeps(s, i, Finished, next);
  }

  /** Every step of every task keeps the invariant. */
  lemma {:induction false} StepKeeps(s: State, i: nat, choice: nat)
    requires Inv(s) && i < |s.tasks| && Next(s, i, choice).Some?
    ensures Inv(Next(s, i, choice).value)
  {
    var t := s.tasks[i];
    if t.ProbeWait? || t.ProbeHas? || t.ProbeRuns? {
      ProbeStepKeeps(s, i, choice);
    } else if t.PlainStart? || t.PlainRuns? {
      PlainStepKeeps(s, i, choice);
    } else if t.RollWait? || t.RollHas? || t.RollRuns? {
      RollStepKeeps(s, i, choice);
    } else if t.SinkProbeWait? || t.SinkProbeHas? || t.SinkProbeRuns? {
      SinkStepKeeps(s, i, choice);
    } else {
      TransferStepKeeps(s, i, choice);
    }
  }

  lemma {:induction false} ReleaseKeeps(s: State, i: nat, t: Task, released: State)
    requires i < |s.tasks| && Inv(s) && !s.tasks[i].Queued() && !t.Queued() && t.Sane() && Balanced(s, i, t, released)
    ensures Inv(Notify(released))
  {
    MoveKeeps(s, i, t, released);
    NotifyKeeps(released);
  }

  // ---------- Giving up while waiting ----------

  function Without(queue: seq<nat>, i: nat): seq<nat> {
    if queue == [] then [] else if queue[0] == i then queue[1..] else [queue[0]] + Without(queue[1..], i)
  }

  // A waiter that leaves the front makes room for the next.
  function Leave(s: State, i: nat): State {
    if s.queue != [] && s.queue[0] == i then Notify(s.(queue := s.queue[1..])) else s.(queue := Without(s.queue, i))
  }

  // The context of task i ended while it waits. A sink's error ends its render.
  function Cancel(s: State, i: nat): Option<State>
    requires i < |s.tasks|
  {
    match s.tasks[i]
    case ProbeWait => Some(Put(s, i, Finished))
    case PlainStart(_) => Some(Put(s, i, Finished))
    case RollWait(_) => Some(Put(s, i, Finished))
    case TransferWait(_) => Some(Put(s, i, Finished))
    case SinkProbeWait(_) => Some(Put(s, i, RollRuns([])))
    case SinkTransferWait(_, _) => Some(Put(s, i, RollRuns([])))
    case PlainQueued(_) => Some(Leave(Put(s, i, Finished), i))
    case ProbeQueued => if s.probes >= 1 then Some(Leave(Put(s, i, Finished).(probes := s.probes - 1), i)) else None
    case RollQueued(_) => if s.rolling >= 1 then Some(Leave(Put(s, i, Finished).(rolling := s.rolling - 1), i)) else None
    case SinkProbeQueued(_) => if s.probes >= 1 then Some(Leave(Put(s, i, RollRuns([])).(probes := s.probes - 1), i)) else None
    case _ => None
  }

  lemma {:induction false} WithoutMembers(queue: seq<nat>, i: nat)
    requires forall j, k :: 0 <= j < k < |queue| ==> queue[j] != queue[k]
    ensures forall x :: x in Without(queue, i) <==> x in queue && x != i
    ensures forall j, k :: 0 <= j < k < |Without(queue, i)| ==> Without(queue, i)[j] != Without(queue, i)[k]
  {
    if queue != [] {
      assert forall x :: x in queue <==> x == queue[0] || x in queue[1..];
      assert queue[0] !in queue[1..];
      WithoutMembers(queue[1..], i);
    }
  }

  lemma {:induction false} QueueWithout(tasks: seq<Task>, queue: seq<nat>, i: nat, t: Task)
    requires QueueMatches(tasks, queue) && i < |tasks| && !t.Queued()
    ensures QueueMatches(tasks[i := t], Without(queue, i))
  {
    WithoutMembers(queue, i);
    var rest := Without(queue, i);
    forall k | 0 <= k < |rest| ensures rest[k] < |tasks| && tasks[i := t][rest[k]].Queued() {
      assert rest[k] in rest;
      var at :| 0 <= at < |queue| && queue[at] == rest[k];
    }
    forall k | 0 <= k < |tasks| && tasks[i := t][k].Queued() ensures k in rest {
      assert k != i && k in queue;
    }
  }

  lemma LeaveKeeps(s: State, i: nat, t: Task, left: State)
    requires i < |s.tasks| && Inv(s) && !t.Queued() && t.Sane() && Balanced(s, i, t, left) && left.processes == s.processes
    ensures Inv(Leave(left, i))
  {
    AccountedMove(s, i, t, left);
    QueueWithout(s.tasks, s.queue, i, t);
    SaneUpdate(s.tasks, i, t);
    if s.queue != [] && s.queue[0] == i {
      assert Without(s.queue, i) == s.queue[1..];
      assert Accounted(left.(queue := s.queue[1..]));
      NotifyKeeps(left.(queue := s.queue[1..]));
    } else if s.queue != [] {
      assert Accounted(left.(queue := Without(s.queue, i)));
      assert Without(s.queue, i)[0] == s.queue[0];
      assert left.tasks[s.queue[0]] == s.tasks[s.queue[0]];
    }
  }

  lemma CancelSlotlessKeeps(s: State, i: nat)
    requires Inv(s) && i < |s.tasks| && Cancel(s, i).Some? && (s.tasks[i].PlainQueued? || s.tasks[i].RollQueued?)
    ensures Inv(Cancel(s, i).value)
  {
    if s.tasks[i].PlainQueued? {
      LeaveKeeps(s, i, Finished, Put(s, i, Finished));
    } else {
      LeaveKeeps(s, i, Finished, Put(s, i, Finished).(rolling := s.rolling - 1));
    }
  }

  lemma CancelProbeKeeps(s: State, i: nat)
    requires Inv(s) && i < |s.tasks| && Cancel(s, i).Some? && s.tasks[i].ProbeQueued?
    ensures Inv(Cancel(s, i).value)
  {
    LeaveKeeps(s, i, Finished, Put(s, i, Finished).(probes := s.probes - 1));
  }

  lemma CancelSinkProbeKeeps(s: State, i: nat)
    requires Inv(s) && i < |s.tasks| && Cancel(s, i).Some? && s.tasks[i].SinkProbeQueued?
    ensures Inv(Cancel(s, i).value)
  {
    LeaveKeeps(s, i, RollRuns([]), Put(s, i, RollRuns([])).(probes := s.probes - 1));
  }

  lemma CancelKeeps(s: State, i: nat)
    requires Inv(s) && i < |s.tasks| && Cancel(s, i).Some?
    ensures Inv(Cancel(s, i).value)
  {
    if s.tasks[i].PlainQueued? || s.tasks[i].RollQueued? {
      CancelSlotlessKeeps(s, i);
    } else if s.tasks[i].ProbeQueued? {
      CancelProbeKeeps(s, i);
    } else if s.tasks[i].SinkProbeQueued? {
      CancelSinkProbeKeeps(s, i);
    } else if s.tasks[i].SinkProbeWait? || s.tasks[i].SinkTransferWait? {
      MoveKeeps(s, i, RollRuns([]), Put(s, i, RollRuns([])));
    } else {
      MoveKeeps(s, i, Finished, Put(s, i, Finished));
    }
  }

  // ---------- No deadlock ----------

  predicate Enabled(s: State, i: nat)
    requires i < |s.tasks|
  {
    Next(s, i, 0).Some?
  }

  ghost predicate Stuck(s: State) { forall i :: 0 <= i < |s.tasks| ==> !Enabled(s, i) }

  // Only a task that waits for something can be stuck.
  lemma StuckWaits(s: State, i: nat)
    requires Inv(s) && i < |s.tasks| && !Enabled(s, i)
    ensures var t := s.tasks[i];
      t.Finished? || t.Queued() || t.ProbeWait? || t.SinkProbeWait? || t.RollWait? || t.TransferWait? || t.SinkTransferWait?
  {
    HoldsAtMostTotal(s.tasks, i, Processes);
    HoldsAtMostTotal(s.tasks, i, Probes);
    HoldsAtMostTotal(s.tasks, i, Rolling);
    HoldsAtMostTotal(s.tasks, i, TransferSlots);
    assert s.Count(Processes) == s.processes && s.Count(Probes) == s.probes && s.Count(Rolling) == s.rolling && s.Count(TransferSlots) == s.transfers;
  }

  lemma {:induction false} NobodyHolds(tasks: seq<Task>, r: Resource)
    requires forall i :: 0 <= i < |tasks| ==> tasks[i].Holds(r) == 0
    ensures Total(tasks, r) == 0
  {
    if tasks != [] {
      NobodyHolds(tasks[..|tasks| - 1], r);
    }
  }

  // If only rolling renders hold process tokens, one each, a held token means a rolling render.
  lemma {:induction false} RollersProcess(tasks: seq<Task>)
    requires forall i :: 0 <= i < |tasks| ==> tasks[i].Holds(Processes) <= tasks[i].Holds(Rolling)
    ensures Total(tasks, Processes) <= Total(tasks, Rolling)
  {
    if tasks != [] {
      RollersProcess(tasks[..|tasks| - 1]);
    }
  }

  lemma {:induction false} SomeoneRolls(tasks: seq<Task>)
    requires Total(tasks, Rolling) > 0
    ensures exists i :: 0 <= i < |tasks| && tasks[i].Holds(Rolling) > 0
  {
    var n := |tasks| - 1;
    if tasks[n].Holds(Rolling) == 0 {
      SomeoneRolls(tasks[..n]);
      var i :| 0 <= i < n && tasks[..n][i].Holds(Rolling) > 0;
      assert tasks[i].Holds(Rolling) > 0;
    }
  }

  lemma StuckQueueEmpty(s: State)
    requires Inv(s) && OneMode(s) && Stuck(s)
    ensures s.queue == []
  {
    forall i | 0 <= i < |s.tasks| ensures s.tasks[i].Holds(Processes) <= s.tasks[i].Holds(Rolling) {
      StuckWaits(s, i);
    }
    RollersProcess(s.tasks);
    if s.queue != [] {
      assert s.tasks[s.queue[0]].Sane();
      RollingMeansLight(s, s.queue[0]);
    }
  }

  lemma RollingMeansLight(s: State, j: nat)
    requires OneMode(s) && j < |s.tasks|
    ensures Total(s.tasks, Rolling) > 0 ==> !s.tasks[j].Heavy()
  {
    if Total(s.tasks, Rolling) > 0 {
      SomeoneRolls(s.tasks);
    }
  }

  // Then nobody holds a probe or transfer slot, so nobody waits for one.
  lemma StuckWaitsForRolling(s: State, i: nat)
    requires Inv(s) && OneMode(s) && Stuck(s) && i < |s.tasks|
    ensures s.tasks[i] == Finished || s.tasks[i].RollWait?
  {
    StuckQueueEmpty(s);
    forall k | 0 <= k < |s.tasks|
      ensures s.tasks[k].Holds(TransferSlots) == 0 && s.tasks[k].Holds(Probes) == 0
    {
      StuckWaits(s, k);
      assert s.tasks[k].Queued() ==> k in s.queue;
    }
    NobodyHolds(s.tasks, TransferSlots);
    NobodyHolds(s.tasks, Probes);
    StuckWaits(s, i);
    assert s.tasks[i].Queued() ==> i in s.queue;
    assert !Enabled(s, i);
  }

  /** In every state the invariant allows, either some task can take a step or all are finished and
      every slot has been given back. */
  lemma NoDeadlock(s: State)
    requires Inv(s) && OneMode(s) && Stuck(s)
    ensures forall i :: 0 <= i < |s.tasks| ==> s.tasks[i] == Finished
    ensures s.queue == [] && s.processes == s.probes == s.rolling == s.transfers == 0
  {
    forall i | 0 <= i < |s.tasks| ensures s.tasks[i] == Finished || s.tasks[i].RollWait? {
      StuckWaitsForRolling(s, i);
    }
    if s.rolling > 0 {
      SomeoneRolls(s.tasks);
    }
    forall i | 0 <= i < |s.tasks| ensures s.tasks[i] == Finished {
      assert !Enabled(s, i);
    }
    StuckQueueEmpty(s);
    AllFinished(s.tasks);
  }

  lemma {:induction false} AllFinished(tasks: seq<Task>)
    requires forall i :: 0 <= i < |tasks| ==> tasks[i] == Finished
    ensures Total(tasks, Processes) == 0 && Total(tasks, Probes) == 0 && Total(tasks, Rolling) == 0 && Total(tasks, TransferSlots) == 0
  {
    assert forall i :: 0 <= i < |tasks| ==> tasks[i].Holds(Processes) == 0;
    NobodyHolds(tasks, Rolling);
    RollersProcess(tasks);
    NobodyHolds(tasks, Probes);
    NobodyHolds(tasks, TransferSlots);
  }

  // ---------- Kinds never change ----------

  // No task becomes a rolling or a heavy render.
  ghost predicate SameKinds(before: seq<Task>, after: seq<Task>) {
    && |after| == |before|
    && forall k :: 0 <= k < |after| ==> (after[k].Rolls() ==> before[k].Rolls()) && (after[k].Heavy() ==> before[k].Heavy())
  }

  lemma KindsOneMode(s: State, next: State)
    requires OneMode(s) && SameKinds(s.tasks, next.tasks)
    ensures OneMode(next)
  {
  }

  lemma {:induction false} NotifyKinds(s: State)
    ensures SameKinds(s.tasks, Notify(s).tasks)
    decreases |s.queue|
  {
    if s.queue != [] && s.queue[0] < |s.tasks| && s.processes + s.tasks[s.queue[0]].Asks() <= PROCESSES {
      NotifyKinds(Serve(s));
    }
  }

  lemma PutKinds(tasks: seq<Task>, i: nat, t: Task)
    requires i < |tasks| && (t.Rolls() ==> tasks[i].Rolls()) && (t.Heavy() ==> tasks[i].Heavy())
    ensures SameKinds(tasks, tasks[i := t])
  {
  }

  lemma AcquireKinds(s: State, i: nat, queued: Task)
    requires i < |s.tasks| && (queued.Rolls() || queued.Granted().Rolls() ==> s.tasks[i].Rolls())
    requires queued.Heavy() || queued.Granted().Heavy() ==> s.tasks[i].Heavy()
    ensures SameKinds(s.tasks, Acquire(s, i, queued).tasks)
  {
    PutKinds(s.tasks, i, queued);
    PutKinds(s.tasks, i, queued.Granted());
  }

  lemma {:induction false} ReleaseKinds(s: State, i: nat, t: Task, released: State)
    requires i < |s.tasks| && (t.Rolls() ==> s.tasks[i].Rolls()) && !t.Heavy() && released.tasks == s.tasks[i := t]
    ensures SameKinds(s.tasks, Notify(released).tasks)
  {
    PutKinds(s.tasks, i, t);
    NotifyKinds(released);
  }

  lemma AcquireStepKinds(s: State, i: nat, choice: nat)
    requires i < |s.tasks| && Next(s, i, choice).Some?
    requires s.tasks[i].ProbeHas? || s.tasks[i].PlainStart? || s.tasks[i].RollHas? || s.tasks[i].SinkProbeHas?
    ensures SameKinds(s.tasks, Next(s, i, choice).value.tasks)
  {
    match s.tasks[i]
    case ProbeHas => AcquireKinds(s, i, ProbeQueued);
    case PlainStart(w) => AcquireKinds(s, i, PlainQueued(w));
    case RollHas(jobs) => AcquireKinds(s, i, RollQueued(jobs));
    case SinkProbeHas(jobs) => AcquireKinds(s, i, SinkProbeQueued(jobs));
  }

  lemma ReleaseStepKinds(s: State, i: nat, choice: nat)
    requires i < |s.tasks| && Next(s, i, choice).Some?
    requires s.tasks[i].ProbeRuns? || s.tasks[i].PlainRuns? || s.tasks[i].SinkProbeRuns? || s.tasks[i].RollRuns?
    ensures SameKinds(s.tasks, Next(s, i, choice).value.tasks)
  {
    match s.tasks[i]
    case ProbeRuns => ReleaseKinds(s, i, Finished, Put(s, i, Finished).(processes := s.processes - 1, probes := s.probes - 1));
    case PlainRuns(w) => ReleaseKinds(s, i, Finished, Put(s, i, Finished).(processes := s.processes - w));
    case SinkProbeRuns(jobs) => ReleaseKinds(s, i, RollRuns(jobs), Put(s, i, RollRuns(jobs)).(processes := s.processes - 1, probes := s.probes - 1));
    case RollRuns(jobs) =>
      if jobs != [] && choice > 0 {
        PutKinds(s.tasks, i, Next(s, i, choice).value.tasks[i]);
      } else {
        ReleaseKinds(s, i, Finished, Put(s, i, Finished).(processes := s.processes - 1, rolling := s.rolling - 1));
      }
  }

  lemma StepKinds(s: State, i: nat, choice: nat)
    requires i < |s.tasks| && Next(s, i, choice).Some?
    ensures SameKinds(s.tasks, Next(s, i, choice).value.tasks)
  {
    var t := s.tasks[i];
    if t.ProbeHas? || t.PlainStart? || t.RollHas? || t.SinkProbeHas? {
      AcquireStepKinds(s, i, choice);
    } else if t.ProbeRuns? || t.PlainRuns? || t.SinkProbeRuns? || t.RollRuns? {
      ReleaseStepKinds(s, i, choice);
    } else {
      PutKinds(s.tasks, i, Next(s, i, choice).value.tasks[i]);
    }
  }

  lemma CancelKinds(s: State, i: nat)
    requires i < |s.tasks| && Cancel(s, i).Some?
    ensures SameKinds(s.tasks, Cancel(s, i).value.tasks)
  {
    match s.tasks[i]
    case PlainQueued(_) => LeaveKinds(Put(s, i, Finished), i);
    case ProbeQueued => LeaveKinds(Put(s, i, Finished).(probes := s.probes - 1), i);
    case RollQueued(_) => LeaveKinds(Put(s, i, Finished).(rolling := s.rolling - 1), i);
    case SinkProbeQueued(_) => LeaveKinds(Put(s, i, RollRuns([])).(probes := s.probes - 1), i);
    case _ =>
  }

  lemma LeaveKinds(s: State, i: nat)
    ensures SameKinds(s.tasks, Leave(s, i).tasks)
  {
    if s.queue != [] && s.queue[0] == i {
      NotifyKinds(s.(queue := s.queue[1..]));
    }
  }

  // ---------- Every run ends ----------

  // The steps a task has left.
  function Left(t: Task): nat {
    match t
    case ProbeWait => 4
    case ProbeHas => 3
    case ProbeQueued => 2
    case ProbeRuns => 1
    case PlainStart(_) => 3
    case PlainQueued(_) => 2
    case PlainRuns(_) => 1
    case RollWait(jobs) => 4 + 5 * |jobs|
    case RollHas(jobs) => 3 + 5 * |jobs|
    case RollQueued(jobs) => 2 + 5 * |jobs|
    case RollRuns(jobs) => 1 + 5 * |jobs|
    case SinkProbeWait(jobs) => 5 + 5 * |jobs|
    case SinkProbeHas(jobs) => 4 + 5 * |jobs|
    case SinkProbeQueued(jobs) => 3 + 5 * |jobs|
    case SinkProbeRuns(jobs) => 2 + 5 * |jobs|
    case SinkTransferWait(jobs, _) => 3 + 5 * |jobs|
    case SinkTransfers(jobs, _) => 2 + 5 * |jobs|
    case TransferWait(_) => 2
    case Transfers(_) => 1
    case Finished => 0
  }

  function Work(tasks: seq<Task>): nat {
    if tasks == [] then 0 else Work(tasks[..|tasks| - 1]) + Left(tasks[|tasks| - 1])
  }

  lemma {:induction false} WorkUpdate(tasks: seq<Task>, i: nat, t: Task)
    requires i < |tasks|
    ensures Work(tasks[i := t]) + Left(tasks[i]) == Work(tasks) + Left(t)
  {
    var n := |tasks| - 1;
    if i < n {
      assert tasks[i := t][..n] == tasks[..n][i := t];
      WorkUpdate(tasks[..n], i, t);
    } else {
      assert tasks[i := t][..n] == tasks[..n];
    }
  }

  lemma {:induction false} NotifyWork(s: State)
    ensures Work(Notify(s).tasks) <= Work(s.tasks)
    decreases |s.queue|
  {
    if s.queue != [] && s.queue[0] < |s.tasks| && s.processes + s.tasks[s.queue[0]].Asks() <= PROCESSES {
      WorkUpdate(s.tasks, s.queue[0], s.tasks[s.queue[0]].Granted());
      NotifyWork(Serve(s));
    }
  }

  lemma LeaveWork(s: State, i: nat)
    ensures Work(Leave(s, i).tasks) <= Work(s.tasks)
  {
    if s.queue != [] && s.queue[0] == i {
      NotifyWork(s.(queue := s.queue[1..]));
    }
  }

  lemma AcquireWork(s: State, i: nat, queued: Task)
    requires i < |s.tasks| && Left(queued) < Left(s.tasks[i]) && Left(queued.Granted()) < Left(s.tasks[i])
    ensures Work(Acquire(s, i, queued).tasks) < Work(s.tasks)
  {
    WorkUpdate(s.tasks, i, queued);
    WorkUpdate(s.tasks, i, queued.Granted());
  }

  lemma {:induction false} ReleaseWork(s: State, i: nat, t: Task, released: State)
    requires i < |s.tasks| && Left(t) < Left(s.tasks[i]) && released.tasks == s.tasks[i := t]
    ensures Work(Notify(released).tasks) < Work(s.tasks)
  {
    WorkUpdate(s.tasks, i, t);
    NotifyWork(released);
  }

  lemma AcquireStepWork(s: State, i: nat, choice: nat)
    requires i < |s.tasks| && Next(s, i, choice).Some?
    requires s.tasks[i].ProbeHas? || s.tasks[i].PlainStart? || s.tasks[i].RollHas? || s.tasks[i].SinkProbeHas?
    ensures Work(Next(s, i, choice).value.tasks) < Work(s.tasks)
  {
    match s.tasks[i]
    case ProbeHas => AcquireWork(s, i, ProbeQueued);
    case PlainStart(w) => AcquireWork(s, i, PlainQueued(w));
    case RollHas(jobs) => AcquireWork(s, i, RollQueued(jobs));
    case SinkProbeHas(jobs) => AcquireWork(s, i, SinkProbeQueued(jobs));
  }

  lemma ReleaseStepWork(s: State, i: nat, choice: nat)
    requires i < |s.tasks| && Next(s, i, choice).Some?
    requires s.tasks[i].ProbeRuns? || s.tasks[i].PlainRuns? || s.tasks[i].SinkProbeRuns?
    ensures Work(Next(s, i, choice).value.tasks) < Work(s.tasks)
  {
    match s.tasks[i]
    case ProbeRuns => ReleaseWork(s, i, Finished, Put(s, i, Finished).(processes := s.processes - 1, probes := s.probes - 1));
    case PlainRuns(w) => ReleaseWork(s, i, Finished, Put(s, i, Finished).(processes := s.processes - w));
    case SinkProbeRuns(jobs) => ReleaseWork(s, i, RollRuns(jobs), Put(s, i, RollRuns(jobs)).(processes := s.processes - 1, probes := s.probes - 1));
  }

  lemma RollStepWork(s: State, i: nat, choice: nat)
    requires i < |s.tasks| && Next(s, i, choice).Some? && s.tasks[i].RollRuns?
    ensures Work(Next(s, i, choice).value.tasks) < Work(s.tasks)
  {
    if s.tasks[i].jobs != [] && choice > 0 {
      WorkUpdate(s.tasks, i, Next(s, i, choice).value.tasks[i]);
    } else {
      ReleaseWork(s, i, Finished, Put(s, i, Finished).(processes := s.processes - 1, rolling := s.rolling - 1));
    }
  }

  lemma StepWork(s: State, i: nat, choice: nat)
    requires i < |s.tasks| && Next(s, i, choice).Some?
    ensures Work(Next(s, i, choice).value.tasks) < Work(s.tasks)
  {
    var t := s.tasks[i];
    if t.ProbeHas? || t.PlainStart? || t.RollHas? || t.SinkProbeHas? {
      AcquireStepWork(s, i, choice);
    } else if t.ProbeRuns? || t.PlainRuns? || t.SinkProbeRuns? {
      ReleaseStepWork(s, i, choice);
    } else if t.RollRuns? {
      RollStepWork(s, i, choice);
    } else {
      WorkUpdate(s.tasks, i, Next(s, i, choice).value.tasks[i]);
    }
  }

  lemma LeaveStepWork(s: State, i: nat, t: Task, left: State)
    requires i < |s.tasks| && Left(t) < Left(s.tasks[i]) && left.tasks == s.tasks[i := t]
    ensures Work(Leave(left, i).tasks) < Work(s.tasks)
  {
    WorkUpdate(s.tasks, i, t);
    LeaveWork(left, i);
  }

  lemma CancelQueuedWork(s: State, i: nat)
    requires i < |s.tasks| && Cancel(s, i).Some? && s.tasks[i].Queued()
    ensures Work(Cancel(s, i).value.tasks) < Work(s.tasks)
  {
    match s.tasks[i]
    case PlainQueued(_) => LeaveStepWork(s, i, Finished, Put(s, i, Finished));
    case ProbeQueued => LeaveStepWork(s, i, Finished, Put(s, i, Finished).(probes := s.probes - 1));
    case RollQueued(_) => LeaveStepWork(s, i, Finished, Put(s, i, Finished).(rolling := s.rolling - 1));
    case SinkProbeQueued(_) => LeaveStepWork(s, i, RollRuns([]), Put(s, i, RollRuns([])).(probes := s.probes - 1));
  }

  lemma CancelWork(s: State, i: nat)
    requires i < |s.tasks| && Cancel(s, i).Some?
    ensures Work(Cancel(s, i).value.tasks) < Work(s.tasks)
  {
    if s.tasks[i].Queued() {
      CancelQueuedWork(s, i);
    } else if s.tasks[i].SinkProbeWait? || s.tasks[i].SinkTransferWait? {
      WorkUpdate(s.tasks, i, RollRuns([]));
    } else {
      WorkUpdate(s.tasks, i, Finished);
    }
  }

  // ---------- Runs ----------

  datatype Move = Step(task: nat, choice: nat) | GiveUp(task: nat)

  function After(s: State, m: Move): Option<State> {
    if m.task >= |s.tasks| then None
    else match m
      case Step(i, choice) => Next(s, i, choice)
      case GiveUp(i) => Cancel(s, i)
  }

  function Run(s: State, moves: seq<Move>): Option<State>
    decreases |moves|
  {
    if moves == [] then Some(s)
    else match After(s, moves[0])
      case None => None
      case Some(next) => Run(next, moves[1..])
  }

  // Nothing has begun.
  ghost predicate Initial(s: State) {
    && s.probeSlots >= 1 && s.transferSlots >= 1 && s.queue == [] && s.processes == s.probes == s.rolling == s.transfers == 0
    && forall i :: 0 <= i < |s.tasks| ==> s.tasks[i].Sane() && (s.tasks[i].ProbeWait? || s.tasks[i].PlainStart? || s.tasks[i].RollWait? || s.tasks[i].TransferWait?)
  }

  lemma InitialInv(s: State)
    requires Initial(s)
    ensures Inv(s)
  {
    assert forall i :: 0 <= i < |s.tasks| ==> s.tasks[i].Holds(Processes) == 0;
    NobodyHolds(s.tasks, Rolling);
    RollersProcess(s.tasks);
    NobodyHolds(s.tasks, Probes);
    NobodyHolds(s.tasks, TransferSlots);
  }

  lemma {:induction false} RunKeeps(s: State, moves: seq<Move>)
    requires Inv(s) && OneMode(s) && Run(s, moves).Some?
    ensures var end := Run(s, moves).value; Inv(end) && OneMode(end) && |moves| + Work(end.tasks) <= Work(s.tasks)
    decreases |moves|
  {
    if moves != [] {
      var m := moves[0];
      var next := After(s, m).value;
      if m.Step? {
        StepKeeps(s, m.task, m.choice);
        StepKinds(s, m.task, m.choice);
        StepWork(s, m.task, m.choice);
      } else {
        CancelKeeps(s, m.task);
        CancelKinds(s, m.task);
        CancelWork(s, m.task);
      }
      KindsOneMode(s, next);
      RunKeeps(next, moves[1..]);
    }
  }

  /** From any start in which heavy and rolling renders do not meet, under any schedule and any
      cancellations: no run is longer than the work it began with, and one that cannot go on has
      finished every task and given back every slot. */
  lemma {:induction false} EveryRunFinishes(s: State, moves: seq<Move>)
    requires Initial(s) && OneMode(s) && Run(s, moves).Some?
    ensures |moves| <= Work(s.tasks)
    ensures var end := Run(s, moves).value;
      Stuck(end) ==>
        (forall i :: 0 <= i < |end.tasks| ==> end.tasks[i] == Finished) && end.queue == []
        && end.processes == end.probes == end.rolling == end.transfers == 0
  {
    InitialInv(s);
    RunKeeps(s, moves);
    var end := Run(s, moves).value;
    if Stuck(end) {
      NoDeadlock(end);
    }
  }

  lemma {:induction false} RunMore(s: State, m: Move, next: State, rest: seq<Move>)
    requires After(s, m) == Some(next)
    ensures Run(s, [m] + rest) == Run(next, rest)
  {
    assert ([m] + rest)[1..] == rest;
  }

  // A rolling render takes its process token; a heavy render queues behind it.
  lemma RollingRuns()
    ensures Run(State(1, 1, [RollWait([SinkProbe]), PlainStart(2)], [], 0, 0, 0, 0), [Step(0, 0), Step(0, 0)])
      == Some(State(1, 1, [RollRuns([SinkProbe]), PlainStart(2)], [], 1, 0, 1, 0))
  {
    var s0 := State(1, 1, [RollWait([SinkProbe]), PlainStart(2)], [], 0, 0, 0, 0);
    var s1 := State(1, 1, [RollHas([SinkProbe]), PlainStart(2)], [], 0, 0, 1, 0);
    var s2 := State(1, 1, [RollRuns([SinkProbe]), PlainStart(2)], [], 1, 0, 1, 0);
    assert s0.tasks[0 := RollHas([SinkProbe])] == s1.tasks && s1.tasks[0 := RollRuns([SinkProbe])] == s2.tasks;
    assert Acquire(s1, 0, RollQueued([SinkProbe])) == s2;
    RunMore(s1, Step(0, 0), s2, []);
    RunMore(s0, Step(0, 0), s1, [Step(0, 0)]);
    assert [Step(0, 0)] + [Step(0, 0)] == [Step(0, 0), Step(0, 0)] && [Step(0, 0)] + [] == [Step(0, 0)];
  }

  lemma HeavyQueues()
    ensures Run(State(1, 1, [RollRuns([SinkProbe]), PlainStart(2)], [], 1, 0, 1, 0), [Step(1, 0)])
      == Some(State(1, 1, [RollRuns([SinkProbe]), PlainQueued(2)], [1], 1, 0, 1, 0))
  {
    var s2 := State(1, 1, [RollRuns([SinkProbe]), PlainStart(2)], [], 1, 0, 1, 0);
    var s3 := State(1, 1, [RollRuns([SinkProbe]), PlainQueued(2)], [1], 1, 0, 1, 0);
    assert s2.tasks[1 := PlainQueued(2)] == s3.tasks && [] + [1] == [1];
    assert Acquire(s2, 1, PlainQueued(2)) == s3;
    RunMore(s2, Step(1, 0), s3, []);
    assert [Step(1, 0)] + [] == [Step(1, 0)];
  }

  // Then the rolling render's sink asks for a probe and queues behind the heavy render.
  lemma SinkAsks()
    ensures Run(State(1, 1, [RollRuns([SinkProbe]), PlainQueued(2)], [1], 1, 0, 1, 0), [Step(0, 1), Step(0, 0)])
      == Some(State(1, 1, [SinkProbeHas([]), PlainQueued(2)], [1], 1, 1, 1, 0))
  {
    var s3 := State(1, 1, [RollRuns([SinkProbe]), PlainQueued(2)], [1], 1, 0, 1, 0);
    var s4 := State(1, 1, [SinkProbeWait([]), PlainQueued(2)], [1], 1, 0, 1, 0);
    var s5 := State(1, 1, [SinkProbeHas([]), PlainQueued(2)], [1], 1, 1, 1, 0);
    assert [SinkProbe][1..] == [];
    assert s3.tasks[0 := SinkProbeWait([])] == s4.tasks && s4.tasks[0 := SinkProbeHas([])] == s5.tasks;
    RunMore(s4, Step(0, 0), s5, []);
    RunMore(s3, Step(0, 1), s4, [Step(0, 0)]);
    assert [Step(0, 1)] + [Step(0, 0)] == [Step(0, 1), Step(0, 0)] && [Step(0, 0)] + [] == [Step(0, 0)];
  }

  lemma SinkQueues()
    ensures Run(State(1, 1, [SinkProbeHas([]), PlainQueued(2)], [1], 1, 1, 1, 0), [Step(0, 0)])
      == Some(State(1, 1, [SinkProbeQueued([]), PlainQueued(2)], [1, 0], 1, 1, 1, 0))
  {
    var s5 := State(1, 1, [SinkProbeHas([]), PlainQueued(2)], [1], 1, 1, 1, 0);
    var s6 := State(1, 1, [SinkProbeQueued([]), PlainQueued(2)], [1, 0], 1, 1, 1, 0);
    assert [1] + [0] == [1, 0] && s5.tasks[0 := SinkProbeQueued([])] == s6.tasks;
    assert Acquire(s5, 0, SinkProbeQueued([])) == s6;
    RunMore(s5, Step(0, 0), s6, []);
    assert [Step(0, 0)] + [] == [Step(0, 0)];
  }

  lemma BothWait()
    ensures var s := State(1, 1, [SinkProbeQueued([]), PlainQueued(2)], [1, 0], 1, 1, 1, 0);
      Stuck(s) && s.tasks[1] != Finished
  {
    var s := State(1, 1, [SinkProbeQueued([]), PlainQueued(2)], [1, 0], 1, 1, 1, 0);
    assert !Enabled(s, 0) && !Enabled(s, 1);
  }

  lemma {:induction false} RunJoin(s: State, first: seq<Move>, mid: State, then_: seq<Move>)
    requires Run(s, first) == Some(mid)
    ensures Run(s, first + then_) == Run(mid, then_)
    decreases |first|
  {
    if first != [] {
      assert (first + then_)[1..] == first[1..] + then_;
      RunJoin(After(s, first[0]).value, first[1..], mid, then_);
    } else {
      assert first + then_ == then_;
    }
  }

  // A run from this start that leaves somebody waiting for ever.
  ghost predicate Deadlocks(s: State, moves: seq<Move>) {
    Initial(s) && Run(s, moves).Some? && Stuck(Run(s, moves).value) && SomeoneUnfinished(Run(s, moves).value)
  }

  ghost predicate SomeoneUnfinished(s: State) { exists i :: 0 <= i < |s.tasks| && s.tasks[i] != Finished }

  /** Why the mode matters: a heavy render queued between a rolling render and its sink's probe stops
      both for good. */
  lemma HeavyAndRollingDeadlock()
    ensures exists s: State, moves: seq<Move> :: Deadlocks(s, moves)
  {
    var s0 := State(1, 1, [RollWait([SinkProbe]), PlainStart(2)], [], 0, 0, 0, 0);
    var s3 := State(1, 1, [RollRuns([SinkProbe]), PlainQueued(2)], [1], 1, 0, 1, 0);
    var s5 := State(1, 1, [SinkProbeHas([]), PlainQueued(2)], [1], 1, 1, 1, 0);
    var s2 := State(1, 1, [RollRuns([SinkProbe]), PlainStart(2)], [], 1, 0, 1, 0);
    var first, second, third := [Step(0, 0), Step(0, 0)] + [Step(1, 0)], [Step(0, 1), Step(0, 0)], [Step(0, 0)];
    RollingRuns();
    HeavyQueues();
    RunJoin(s0, [Step(0, 0), Step(0, 0)], s2, [Step(1, 0)]);
    SinkAsks();
    SinkQueues();
    BothWait();
    RunJoin(s0, first, s3, second);
    RunJoin(s0, first + second, s5, third);
    assert Deadlocks(s0, first + second + third);
  }
}
