/** The staging byte ledger (internal/ingest/staging_capacity.go:179-376, 430-443, 461-531) under every
    interleaving of its critical sections. A task is one input on its way through
    internal/ingest/input.go:55-104 and internal/ingest/pipeline.go:415-534, 756-776: it reserves what is
    estimated for it, stages its bytes, may ask for an allowance before FFmpeg starts, renders and releases. */
module StagingLedger {
  import opened Text

  // Where a task is in reserve, reserveAdditional or release. A generation names one wake channel:
  // every release closes the current one and makes the next.
  datatype Pc =
    | Fresh
    | Trying(required: nat)
    | Looked(required: nat, available: int, gen: nat)
    | Missed(required: nat, gen: nat)
    | Blocked(required: nat, gen: nat)
    | Staging
    | Rendering
    | MoreFresh(bytes: nat)
    | MoreLooked(bytes: nat, available: int, gen: nat)
    | MoreMissed(bytes: nat, gen: nat)
    | MoreBlocked(bytes: nat, gen: nat)
    | MoreCredit(bytes: nat)    // taken from the manager, not yet on the lease
    | Releasing(captured: nat)
    | Over
  {
    predicate Asking() { Fresh? || Trying? || Looked? || Missed? || Blocked? }
    predicate AskingMore() { MoreFresh? || MoreLooked? || MoreMissed? || MoreBlocked? }
  }

  datatype Task = Task(input: Input, pc: Pc, reserved: nat, used: nat) {
    // The part of the manager's total that is this task's.
    function Claim(): nat {
      if pc.Releasing? then pc.captured
      else if pc.Over? then 0
      else if pc.MoreCredit? then reserved + pc.bytes
      else reserved
    }
  }

  datatype State = State(limit: nat, reserved: nat, generation: nat, tasks: seq<Task>)

  // Go carries the free space a look at the file system finds; Render, the size staging found.
  datatype Action = Go(free: nat) | Add(bytes: nat) | Subtract(bytes: nat) | Render(size: nat) | Release | Cancel

  function Put(s: State, i: nat, t: Task): State
    requires i < |s.tasks|
  {
    s.(tasks := s.tasks[i := t])
  }

  function Least(a: int, b: int): int { if a <= b then a else b }

  // manager.release: the clamp at zero, and a new generation.
  function ManagerRelease(s: State, bytes: nat): State {
    if bytes == 0 then s
    else s.(reserved := if s.reserved < bytes then 0 else s.reserved - bytes, generation := s.generation + 1)
  }

  // lease.add, with manager.extend inside it.
  function LeaseAdd(s: State, i: nat, bytes: nat): State
    requires i < |s.tasks|
  {
    var t := s.tasks[i];
    if t.used + bytes <= t.reserved then Put(s, i, t.(used := t.used + bytes))
    else
      var extra := t.used + bytes - t.reserved;
      if extra > s.limit - s.reserved then s
      else Put(s, i, t.(used := t.used + bytes, reserved := t.reserved + extra)).(reserved := s.reserved + extra)
  }

  // lease.subtract, with its clamp.
  function Taken(s: State, i: nat, bytes: nat): State
    requires i < |s.tasks|
  {
    var t := s.tasks[i];
    Put(s, i, t.(used := if t.used < bytes then 0 else t.used - bytes))
  }

  const ROLLING_WINDOW := 536870912
  const ALLOWANCE_PERCENT := 105
  const ALLOWANCE_FLOOR := 1048576

  datatype Estimate = Bytes(required: nat) | Unknown | TooLarge

  datatype Input = Input(size: int, local: bool, stream: bool, fastDryRun: bool, independent: bool, segmentDuration: int, ffmpegArgs: bool)

  function CheckedAdd(a: nat, b: nat): Option<nat> { if a + b <= INT64_MAX then Some(a + b) else None }

  function PercentageWithFloor(value: int): Option<nat> {
    if value < 0 || value > INT64_MAX / ALLOWANCE_PERCENT then None
    else match CheckedAdd(value, ALLOWANCE_FLOOR)
      case None => None
      case Some(floor) => Some(if value * ALLOWANCE_PERCENT / 100 < floor then floor else value * ALLOWANCE_PERCENT / 100)
  }

  // estimatedStagingRequirement.
  function Estimated(input: Input): Estimate {
    if input.stream then
      if input.fastDryRun then Bytes(0)
      else if input.size >= ROLLING_WINDOW then Bytes(ROLLING_WINDOW)
      else match PercentageWithFloor(input.size)
        case None => TooLarge
        case Some(allowance) => Bytes(if allowance < ROLLING_WINDOW then allowance else ROLLING_WINDOW)
    else
      var generated := !input.fastDryRun && (input.segmentDuration > 0 || (!input.local && input.independent));
      var rolling := generated && input.segmentDuration > 0;
      if input.local && !generated then Bytes(0)
      else if input.size < 0 || (generated && input.ffmpegArgs && !rolling) then Unknown
      else
        var staged: nat := if input.local then 0 else if input.size < 1 then 1 else input.size;
        if !generated then Bytes(staged)
        else match PercentageWithFloor(input.size)
          case None => TooLarge
          case Some(allowance) =>
            match CheckedAdd(staged, if rolling && allowance > ROLLING_WINDOW then ROLLING_WINDOW else allowance)
            case None => TooLarge
            case Some(total) => Bytes(total)
  }

  // What reserve goes on to ask the manager for, or None where it refuses at once. Only a remote input
  // that is to be segmented without FFmpeg arguments may be streamed.
  function Required(input: Input, limit: nat): Option<nat> {
    if input.stream && (input.segmentDuration <= 0 || input.ffmpegArgs) then None
    else match Estimated(input)
      case TooLarge => None
      case Unknown => if limit == 0 then None else Some(limit)
      case Bytes(required) =>
        if input.stream && limit < required then Some(limit)
        else if required > limit then None
        else Some(required)
  }

  /** What is asked of the manager fits the limit and covers the estimate, except that a stream takes no more than
      there is; an input of unknown output takes everything. Nothing that fits is refused at once. */
  lemma RequiredExactly(input: Input, limit: nat)
    ensures var streamable := input.segmentDuration > 0 && !input.ffmpegArgs;
      match Required(input, limit)
      case Some(required) =>
        && required <= limit && (input.stream ==> streamable)
        && (Estimated(input) == Unknown ==> required == limit > 0)
        && (Estimated(input).Bytes? ==> required == Estimated(input).required || (input.stream && required == limit < Estimated(input).required))
        && Estimated(input) != TooLarge
      case None =>
        || (input.stream && !streamable) || Estimated(input) == TooLarge || (Estimated(input) == Unknown && limit == 0)
        || (!input.stream && Estimated(input).Bytes? && Estimated(input).required > limit)
  {
  }

  // Only what staging itself wrote is owned: a local file is read in place, and a stream is not stored.
  predicate Owned(input: Input) { !input.local && !input.stream }

  // Where ingestIndependently asks for an allowance: input not owned, and rendered without Segments.
  predicate AsksAllowance(input: Input) { input.independent && !Owned(input) && input.segmentDuration <= 0 }

  // The allowance, or None where the estimate fails.
  function Allowance(input: Input, size: nat, limit: nat): Option<nat> {
    if input.ffmpegArgs then Some(if limit < 1 then 1 else limit) else PercentageWithFloor(size)
  }

  // Will this run write output for a file it staged or read in place?
  predicate Renders(input: Input) { !input.fastDryRun && (input.segmentDuration > 0 || (!input.local && input.independent)) }

  // Five percent above the size, rounded down, or a mebibyte above it where that is more.
  predicate IsAllowance(a: int, size: int) {
    && a >= size + 1048576 && 100 * (a + 1) > 105 * size
    && (a == size + 1048576 || 100 * a <= 105 * size)
  }

  // What is written before anything is given up: rolling output at most a window.
  ghost predicate IsOutput(output: int, input: Input, rolling: bool) {
    exists a :: IsAllowance(a, input.size) && output == if rolling && a > 536870912 then 536870912 else a
  }

  // The bytes staging itself writes, at least one for a remote input.
  function StagedBytes(input: Input): int { if input.local then 0 else if input.size < 1 then 1 else input.size }

  /** The estimate covers the staged input and the output: for a stream a rolling output, otherwise what is
      staged and, if anything is rendered, an allowance for it. It is unknown exactly when the input's size is,
      or when FFmpeg arguments decide an output that is not rolling, and refused exactly for a stream of unknown
      size or where 105 times the size leaves 64 bits. */
  lemma EstimateExactly(input: Input)
    ensures Estimated(input) == TooLarge <==>
      if input.stream then !input.fastDryRun && input.size < 0
      else Renders(input) && 105 * input.size > INT64_MAX && !(input.ffmpegArgs && input.segmentDuration <= 0)
    ensures input.stream && Estimated(input).Bytes? ==>
      if input.fastDryRun then Estimated(input).required == 0 else IsOutput(Estimated(input).required, input, true)
    ensures !input.stream ==>
      (Estimated(input) == Unknown <==>
        (!input.local || Renders(input)) && (input.size < 0 || (Renders(input) && input.ffmpegArgs && input.segmentDuration <= 0)))
    ensures !input.stream && Estimated(input).Bytes? && !Renders(input) ==> Estimated(input).required == StagedBytes(input)
    ensures !input.stream && Estimated(input).Bytes? && Renders(input) ==>
      IsOutput(Estimated(input).required - StagedBytes(input), input, input.segmentDuration > 0)
  {
    if PercentageWithFloor(input.size).Some? {
      AllowanceExactly(input.size);
    }
    if input.stream && input.size >= ROLLING_WINDOW {
      var a := input.size + ALLOWANCE_FLOOR;
      var b := input.size * ALLOWANCE_PERCENT / 100;
      assert IsAllowance(if a > b then a else b, input.size);
    }
  }

  lemma AllowanceExactly(size: int)
    requires PercentageWithFloor(size).Some?
    ensures IsAllowance(PercentageWithFloor(size).value, size)
  {
  }

  /** Nothing is reserved up front exactly for a fast dry run of a stream, and for a local input that
      will not be segmented. */
  lemma ZeroEstimate(input: Input)
    requires input.size <= INT64_MAX
    ensures Estimated(input) == Bytes(0) <==>
      (if input.stream then input.fastDryRun else input.local && (input.fastDryRun || input.segmentDuration <= 0))
  {
  }

  /** An input that will ask for an allowance reserves nothing first. */
  lemma AllowanceStartsEmpty(input: Input, limit: nat)
    requires AsksAllowance(input) && Required(input, limit).Some?
    ensures Required(input, limit).value == 0
  {
    assert !input.stream && input.local;
    ZeroEstimate(input.(size := 0));
    assert Estimated(input) == Estimated(input.(size := 0));
  }

  // One critical section of task i, or None where it cannot act.
  function Next(s: State, i: nat, a: Action): Option<State>
    requires i < |s.tasks|
  {
    var t := s.tasks[i];
    match t.pc
    case Fresh =>
      if a.Cancel? then Some(Put(s, i, t.(pc := Over)))
      else if !a.Go? then None
      else (match Required(t.input, s.limit)
            case None => Some(Put(s, i, t.(pc := Over)))
            case Some(required) => Some(Put(s, i, t.(pc := if required == 0 then Staging else Trying(required)))))
    case Trying(required) =>
      if a.Go? then Some(Put(s, i, t.(pc := Looked(required, Least(s.limit - s.reserved, a.free), s.generation)))) else None
    case Looked(required, available, gen) =>
      if !a.Go? then None
      else if required > available then Some(Put(s, i, t.(pc := Missed(required, gen))))
      else if required <= s.limit - s.reserved then
        Some(Put(s, i, t.(pc := Staging, reserved := required)).(reserved := s.reserved + required))
      else Some(Put(s, i, t.(pc := Missed(required, s.generation))))
    case Missed(required, gen) =>
      if !a.Go? then None
      else Some(Put(s, i, t.(pc := if s.reserved == 0 then Over else Blocked(required, gen))))
    case Blocked(required, gen) =>
      if a.Cancel? then Some(Put(s, i, t.(pc := Over)))
      else if a.Go? && gen != s.generation then Some(Put(s, i, t.(pc := Trying(required))))
      else None
    case Staging =>
      (match a
       case Add(bytes) => if Owned(t.input) then Some(LeaseAdd(s, i, bytes)) else None
       case Subtract(bytes) => if Owned(t.input) then Some(Taken(s, i, bytes)) else None
       case Render(size) =>
         if !AsksAllowance(t.input) then Some(Put(s, i, t.(pc := Rendering)))
         else (match Allowance(t.input, size, s.limit)
               case None => Some(Put(s, i, t.(pc := Releasing(t.reserved))))
               case Some(bytes) => Some(Put(s, i, t.(pc := MoreFresh(bytes)))))
       case Release => Some(Put(s, i, t.(pc := Releasing(t.reserved))))
       case _ => None)
    case Rendering =>
      (match a
       case Add(bytes) => Some(LeaseAdd(s, i, bytes))
       case Subtract(bytes) => Some(Taken(s, i, bytes))
       case Release => Some(Put(s, i, t.(pc := Releasing(t.reserved))))
       case _ => None)
    case MoreFresh(bytes) =>
      if !a.Go? then None
      else if t.reserved + bytes > s.limit then Some(Put(s, i, t.(pc := Releasing(t.reserved))))
      else Some(Put(s, i, t.(pc := MoreLooked(bytes, Least(s.limit - s.reserved, a.free), s.generation))))
    case MoreLooked(bytes, available, gen) =>
      if !a.Go? then None
      else if bytes > available then Some(Put(s, i, t.(pc := MoreMissed(bytes, gen))))
      else if bytes <= s.limit - s.reserved then
        Some(Put(s, i, t.(pc := MoreCredit(bytes))).(reserved := s.reserved + bytes))
      else Some(Put(s, i, t.(pc := MoreMissed(bytes, s.generation))))
    case MoreMissed(bytes, gen) =>
      if !a.Go? then None
      else Some(Put(s, i, t.(pc := if s.reserved <= t.reserved then Releasing(t.reserved) else MoreBlocked(bytes, gen))))
    case MoreBlocked(bytes, gen) =>
      if a.Cancel? then Some(Put(s, i, t.(pc := Releasing(t.reserved))))
      else if a.Go? && gen != s.generation then Some(Put(s, i, t.(pc := MoreFresh(bytes))))
      else None
    case MoreCredit(bytes) => if a.Go? then Some(Put(s, i, t.(pc := Rendering, reserved := t.reserved + bytes))) else None
    case Releasing(captured) => if a.Go? then Some(ManagerRelease(Put(s, i, t.(pc := Over)), captured)) else None
    case Over => if a.Release? then Some(s) else None  // released already: nothing happens
  }

  // ---------- The invariant ----------

  function Claims(tasks: seq<Task>): nat {
    if tasks == [] then 0 else Claims(tasks[..|tasks| - 1]) + tasks[|tasks| - 1].Claim()
  }

  lemma {:induction false} ClaimsUpdate(tasks: seq<Task>, i: nat, t: Task)
    requires i < |tasks|
    ensures Claims(tasks[i := t]) == Claims(tasks) + t.Claim() - tasks[i].Claim()
  {
    var n := |tasks| - 1;
    if i < n {
      assert tasks[i := t][..n] == tasks[..n][i := t];
      ClaimsUpdate(tasks[..n], i, t);
    } else {
      assert tasks[i := t][..n] == tasks[..n];
    }
  }

  // Does it wait for the channel that is open now?
  predicate Waits(t: Task, generation: nat) { (t.pc.Blocked? || t.pc.MoreBlocked?) && t.pc.gen == generation }

  ghost predicate TaskInv(s: State, t: Task) {
    && t.used <= t.reserved
    && (t.pc.Asking() ==> t.reserved == 0)
    && (t.pc.Trying? || t.pc.Looked? || t.pc.Missed? || t.pc.Blocked? ==> Required(t.input, s.limit) == Some(t.pc.required) && t.pc.required > 0)
    && (t.pc.Staging? ==> Required(t.input, s.limit).Some?)
    && (t.pc.Staging? && !Owned(t.input) ==> t.reserved == Required(t.input, s.limit).value)
    && (t.pc.AskingMore() ==> t.reserved == 0)
    && (t.pc.Looked? || t.pc.Missed? || t.pc.Blocked? || t.pc.MoreLooked? || t.pc.MoreMissed? || t.pc.MoreBlocked? ==> t.pc.gen <= s.generation)
    && (Waits(t, s.generation) ==> s.reserved > 0)
  }

  ghost predicate Inv(s: State) {
    && s.reserved == Claims(s.tasks) <= s.limit
    && forall i :: 0 <= i < |s.tasks| ==> TaskInv(s, s.tasks[i])
  }

  // A section that releases nothing wakes nobody wrongly.
  lemma GrowKeeps(s: State, i: nat, t: Task, reserved: nat)
    requires Inv(s) && i < |s.tasks| && s.reserved <= reserved <= s.limit
    requires reserved - s.reserved == t.Claim() - s.tasks[i].Claim()
    requires TaskInv(s.(reserved := reserved), t)
    ensures Inv(Put(s, i, t).(reserved := reserved))
  {
    ClaimsUpdate(s.tasks, i, t);
  }

  lemma {:induction false} ClaimAtMost(tasks: seq<Task>, i: nat)
    requires i < |tasks|
    ensures tasks[i].Claim() <= Claims(tasks)
  {
    if i < |tasks| - 1 {
      ClaimAtMost(tasks[..|tasks| - 1], i);
    }
  }

  /** A release gives back what was captured, no more: the clamp at zero never fires. */
  lemma ClampNeverFires(s: State, i: nat)
    requires Inv(s) && i < |s.tasks| && s.tasks[i].pc.Releasing?
    ensures s.tasks[i].pc.captured <= s.reserved
  {
    ClaimAtMost(s.tasks, i);
  }

  lemma ReleaseKeeps(s: State, i: nat)
    requires Inv(s) && i < |s.tasks| && s.tasks[i].pc.Releasing?
    ensures Inv(ManagerRelease(Put(s, i, s.tasks[i].(pc := Over)), s.tasks[i].pc.captured))
  {
    ClampNeverFires(s, i);
    ClaimsUpdate(s.tasks, i, s.tasks[i].(pc := Over));
  }

  lemma AddKeeps(s: State, i: nat, bytes: nat)
    requires Inv(s) && i < |s.tasks| && (s.tasks[i].pc.Rendering? || (s.tasks[i].pc.Staging? && Owned(s.tasks[i].input)))
    ensures Inv(LeaseAdd(s, i, bytes))
  {
    var t := s.tasks[i];
    if t.used + bytes <= t.reserved {
      GrowKeeps(s, i, t.(used := t.used + bytes), s.reserved);
    } else {
      var extra := t.used + bytes - t.reserved;
      if extra <= s.limit - s.reserved {
        GrowKeeps(s, i, t.(used := t.used + bytes, reserved := t.reserved + extra), s.reserved + extra);
      }
    }
  }

  lemma AskKeeps(s: State, i: nat, a: Action)
    requires Inv(s) && i < |s.tasks| && Next(s, i, a).Some? && s.tasks[i].pc.Asking()
    ensures Inv(Next(s, i, a).value)
  {
    var next := Next(s, i, a).value;
    GrowKeeps(s, i, next.tasks[i], next.reserved);
  }

  lemma AskMoreKeeps(s: State, i: nat, a: Action)
    requires Inv(s) && i < |s.tasks| && Next(s, i, a).Some? && (s.tasks[i].pc.AskingMore() || s.tasks[i].pc.MoreCredit?)
    ensures Inv(Next(s, i, a).value)
  {
    var next := Next(s, i, a).value;
    GrowKeeps(s, i, next.tasks[i], next.reserved);
  }

  lemma UseKeeps(s: State, i: nat, a: Action)
    requires Inv(s) && i < |s.tasks| && Next(s, i, a).Some? && (s.tasks[i].pc.Staging? || s.tasks[i].pc.Rendering?)
    ensures Inv(Next(s, i, a).value)
  {
    var next := Next(s, i, a).value;
    if a.Add? {
      AddKeeps(s, i, a.bytes);
    } else if a.Render? && AsksAllowance(s.tasks[i].input) {
      AllowanceStartsEmpty(s.tasks[i].input, s.limit);
      GrowKeeps(s, i, next.tasks[i], s.reserved);
    } else {
      GrowKeeps(s, i, next.tasks[i], s.reserved);
    }
  }

  /** Every critical section keeps the ledger: the claims add up to the manager's total, the total
      stays within the limit, and nobody waits on an open channel while nothing is reserved. */
  lemma StepKeeps(s: State, i: nat, a: Action)
    requires Inv(s) && i < |s.tasks| && Next(s, i, a).Some?
    ensures Inv(Next(s, i, a).value)
  {
    var pc := s.tasks[i].pc;
    if pc.Asking() {
      AskKeeps(s, i, a);
    } else if pc.AskingMore() || pc.MoreCredit? {
      AskMoreKeeps(s, i, a);
    } else if pc.Staging? || pc.Rendering? {
      UseKeeps(s, i, a);
    } else if pc.Releasing? {
      ReleaseKeeps(s, i);
    }
  }

  // ---------- Progress ----------

  lemma {:induction false} SomeoneClaims(tasks: seq<Task>)
    requires Claims(tasks) > 0
    ensures exists j :: 0 <= j < |tasks| && tasks[j].Claim() > 0
  {
    var n := |tasks| - 1;
    if tasks[n].Claim() == 0 {
      SomeoneClaims(tasks[..n]);
      var j :| 0 <= j < n && tasks[..n][j].Claim() > 0;
      assert tasks[j].Claim() > 0;
    }
  }

  // Does task j hold something, and is it past every wait of its own?
  predicate Holder(s: State, j: nat) {
    && j < |s.tasks| && s.tasks[j].Claim() > 0
    && (s.tasks[j].pc.Staging? || s.tasks[j].pc.Rendering? || s.tasks[j].pc.Releasing? || s.tasks[j].pc.MoreCredit?)
  }

  /** No wake-up is lost and no wait is circular: a task that waits on the open channel holds
      nothing itself, while another holds something and can act. */
  lemma WaiterDependsOnHolder(s: State, i: nat)
    requires Inv(s) && i < |s.tasks| && Waits(s.tasks[i], s.generation)
    ensures s.tasks[i].Claim() == 0 && exists j :: j != i && Holder(s, j)
  {
    assert TaskInv(s, s.tasks[i]);
    SomeoneClaims(s.tasks);
    var j :| 0 <= j < |s.tasks| && s.tasks[j].Claim() > 0;
    assert TaskInv(s, s.tasks[j]) && Holder(s, j);
  }

  // When everything is released, everything is free again.
  lemma {:induction false} NothingLeft(tasks: seq<Task>)
    requires forall i :: 0 <= i < |tasks| ==> tasks[i].pc.Over?
    ensures Claims(tasks) == 0
  {
    if tasks != [] {
      NothingLeft(tasks[..|tasks| - 1]);
    }
  }

  /** If no task that holds or may take bytes can act any more, all are over and the whole budget is
      free. */
  lemma LedgerDrains(s: State)
    requires Inv(s)
    requires forall i :: 0 <= i < |s.tasks| ==> Next(s, i, Go(0)).None? && Next(s, i, Render(0)).None? && Next(s, i, Add(0)).None?
    ensures forall i :: 0 <= i < |s.tasks| ==> s.tasks[i].pc.Over?
    ensures s.reserved == 0
  {
    forall i | 0 <= i < |s.tasks| ensures s.tasks[i].pc.Over? || Waits(s.tasks[i], s.generation) {
      assert Next(s, i, Go(0)).None? && Next(s, i, Render(0)).None? && Next(s, i, Add(0)).None?;
    }
    if i :| 0 <= i < |s.tasks| && Waits(s.tasks[i], s.generation) {
      WaiterDependsOnHolder(s, i);
      assert false;
    }
    NothingLeft(s.tasks);
  }

  // Releasing a lease twice is releasing it once.
  lemma DoubleReleaseHarmless(s: State, i: nat)
    requires i < |s.tasks| && s.tasks[i].pc.Over?
    ensures Next(s, i, Release) == Some(s)
  {
  }

  // ---------- Whole runs ----------

  datatype Move = Move(task: nat, action: Action)

  function Run(s: State, moves: seq<Move>): Option<State>
    decreases |moves|
  {
    if moves == [] then Some(s)
    else if moves[0].task >= |s.tasks| then None
    else match Next(s, moves[0].task, moves[0].action)
      case None => None
      case Some(next) => Run(next, moves[1..])
  }

  ghost predicate Initial(s: State) {
    s.reserved == 0 && forall i :: 0 <= i < |s.tasks| ==> s.tasks[i].pc.Fresh? && s.tasks[i].reserved == s.tasks[i].used == 0
  }

  lemma {:induction false} InitialClaims(tasks: seq<Task>)
    requires forall i :: 0 <= i < |tasks| ==> tasks[i].pc.Fresh? && tasks[i].reserved == 0
    ensures Claims(tasks) == 0
  {
    if tasks != [] {
      InitialClaims(tasks[..|tasks| - 1]);
    }
  }

  lemma {:induction false} RunKeeps(s: State, moves: seq<Move>)
    requires Inv(s) && Run(s, moves).Some?
    ensures Inv(Run(s, moves).value)
    decreases |moves|
  {
    if moves != [] {
      StepKeeps(s, moves[0].task, moves[0].action);
      RunKeeps(Next(s, moves[0].task, moves[0].action).value, moves[1..]);
    }
  }

  /** Every interleaving of any inputs from an empty ledger: the claims add up to the total, which stays
      within the limit, no lease is overdrawn, and whoever waits holds nothing while another task does. */
  lemma {:induction false} EveryInterleaving(start: State, moves: seq<Move>)
    requires Initial(start) && Run(start, moves).Some?
    ensures var s := Run(start, moves).value;
            && Inv(s)
            && forall i | 0 <= i < |s.tasks| && Waits(s.tasks[i], s.generation) ::
                 s.tasks[i].Claim() == 0 && exists j :: j != i && Holder(s, j)
  {
    InitialClaims(start.tasks);
    RunKeeps(start, moves);
    var s := Run(start, moves).value;
    forall i | 0 <= i < |s.tasks| && Waits(s.tasks[i], s.generation)
      ensures s.tasks[i].Claim() == 0 && exists j :: j != i && Holder(s, j)
    {
      WaiterDependsOnHolder(s, i);
    }
  }
}
