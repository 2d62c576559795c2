/** The reference-counted lock of one root Flow (internal/ingest/identity.go:156-190): entries come and go,
    but while anyone is inside, the map holds the one lock they all use. */
module GraphLock {
  import opened Text

  datatype Stage = Outside | Waiting | Holding | Unlocked | Gone

  datatype Task = Task(root: string, stage: Stage, lock: nat) {
    // Entered and not yet left.
    predicate Inside() { stage == Waiting || stage == Holding || stage == Unlocked }
  }

  datatype Lock = Lock(held: bool, users: nat)

  // Locks are numbered in order of creation; the map is the Pipeline's graphLocks.
  datatype State = State(entries: map<string, nat>, locks: seq<Lock>, tasks: seq<Task>)

  function Put(s: State, i: nat, t: Task): State
    requires i < |s.tasks|
  {
    s.(tasks := s.tasks[i := t])
  }

  // One critical section of task i, or None while it is blocked on the mutex.
  function Next(s: State, i: nat): Option<State>
    requires i < |s.tasks|
  {
    var t := s.tasks[i];
    match t.stage
    case Outside =>
      if t.root in s.entries then
        var k := s.entries[t.root];
        if k < |s.locks| then Some(Put(s, i, t.(stage := Waiting, lock := k)).(locks := s.locks[k := s.locks[k].(users := s.locks[k].users + 1)]))
        else None
      else
        var k := |s.locks|;
        Some(Put(s, i, t.(stage := Waiting, lock := k)).(locks := s.locks + [Lock(false, 1)], entries := s.entries[t.root := k]))
    case Waiting =>
      if t.lock < |s.locks| && !s.locks[t.lock].held then
        Some(Put(s, i, t.(stage := Holding)).(locks := s.locks[t.lock := s.locks[t.lock].(held := true)]))
      else None
    case Holding =>
      if t.lock < |s.locks| then Some(Put(s, i, t.(stage := Unlocked)).(locks := s.locks[t.lock := s.locks[t.lock].(held := false)]))
      else None
    case Unlocked =>
      if t.lock < |s.locks| && s.locks[t.lock].users > 0 then
        var users := s.locks[t.lock].users - 1;
        Some(Put(s, i, t.(stage := Gone)).(locks := s.locks[t.lock := s.locks[t.lock].(users := users)],
          entries := if users == 0 then s.entries - {t.root} else s.entries))
      else None
    case Gone => None
  }

  // ---------- Counting ----------

  function Users(tasks: seq<Task>, lock: nat): nat {
    if tasks == [] then 0
    else
      var t := tasks[|tasks| - 1];
      Users(tasks[..|tasks| - 1], lock) + if t.Inside() && t.lock == lock then 1 else 0
  }

  function Holders(tasks: seq<Task>, lock: nat): nat {
    if tasks == [] then 0
    else
      var t := tasks[|tasks| - 1];
      Holders(tasks[..|tasks| - 1], lock) + if t.stage == Holding && t.lock == lock then 1 else 0
  }

  function One(b: bool): nat { if b then 1 else 0 }

  lemma {:induction false} UsersUpdate(tasks: seq<Task>, i: nat, t: Task, lock: nat)
    requires i < |tasks|
    ensures Users(tasks[i := t], lock) + One(tasks[i].Inside() && tasks[i].lock == lock) == Users(tasks, lock) + One(t.Inside() && t.lock == lock)
  {
    var n := |tasks| - 1;
    if i < n {
      assert tasks[i := t][..n] == tasks[..n][i := t];
      UsersUpdate(tasks[..n], i, t, lock);
    } else {
      assert tasks[i := t][..n] == tasks[..n];
    }
  }

  lemma {:induction false} HoldersUpdate(tasks: seq<Task>, i: nat, t: Task, lock: nat)
    requires i < |tasks|
    ensures Holders(tasks[i := t], lock) + One(tasks[i].stage == Holding && tasks[i].lock == lock) == Holders(tasks, lock) + One(t.stage == Holding && t.lock == lock)
  {
    var n := |tasks| - 1;
    if i < n {
      assert tasks[i := t][..n] == tasks[..n][i := t];
      HoldersUpdate(tasks[..n], i, t, lock);
    } else {
      assert tasks[i := t][..n] == tasks[..n];
    }
  }

  lemma {:induction false} UsedBy(tasks: seq<Task>, i: nat)
    requires i < |tasks|
    ensures tasks[i].Inside() ==> Users(tasks, tasks[i].lock) >= 1
    ensures tasks[i].stage == Holding ==> Holders(tasks, tasks[i].lock) >= 1
  {
    if i < |tasks| - 1 {
      UsedBy(tasks[..|tasks| - 1], i);
    }
  }

  lemma {:induction false} TwoHolders(tasks: seq<Task>, i: nat, j: nat)
    requires i < j < |tasks| && tasks[i].stage == tasks[j].stage == Holding && tasks[i].lock == tasks[j].lock
    ensures Holders(tasks, tasks[i].lock) >= 2
  {
    var n := |tasks| - 1;
    if j < n {
      TwoHolders(tasks[..n], i, j);
    } else {
      UsedBy(tasks[..n], i);
    }
  }

  // ---------- The invariant ----------

  // Whoever is inside uses the lock the map names for its root.
  ghost predicate Named(s: State, t: Task) { t.Inside() ==> t.root in s.entries && s.entries[t.root] == t.lock }

  ghost predicate Entry(s: State, root: string)
    requires root in s.entries
  {
    s.entries[root] < |s.locks| && s.locks[s.entries[root]].users >= 1
  }

  ghost predicate Counts(s: State) {
    forall k: nat :: k < |s.locks| ==> s.locks[k].users == Users(s.tasks, k) && One(s.locks[k].held) == Holders(s.tasks, k)
  }

  ghost predicate Inv(s: State) {
    && (forall i :: 0 <= i < |s.tasks| ==> Named(s, s.tasks[i]))
    && (forall r :: r in s.entries ==> Entry(s, r))
    && (forall q, r :: q in s.entries && r in s.entries && q != r ==> s.entries[q] != s.entries[r])
    && Counts(s) && Unborn(s)
  }

  // A lock that does not exist yet has no users.
  ghost predicate Unborn(s: State) { forall k: nat :: k >= |s.locks| ==> Users(s.tasks, k) == 0 && Holders(s.tasks, k) == 0 }

  lemma CountsMove(s: State, i: nat, t: Task, next: State)
    requires i < |s.tasks| && Counts(s) && Unborn(s) && next.tasks == s.tasks[i := t] && |next.locks| >= |s.locks|
    requires forall k: nat :: k < |next.locks| ==>
      var before := if k < |s.locks| then s.locks[k] else Lock(false, 0);
      && next.locks[k].users + One(s.tasks[i].Inside() && s.tasks[i].lock == k) == before.users + One(t.Inside() && t.lock == k)
      && One(next.locks[k].held) + One(s.tasks[i].stage == Holding && s.tasks[i].lock == k) == One(before.held) + One(t.stage == Holding && t.lock == k)
    requires t.Inside() ==> t.lock < |next.locks|
    ensures Counts(next) && Unborn(next)
  {
    forall k: nat
      ensures k < |next.locks| ==> next.locks[k].users == Users(next.tasks, k) && One(next.locks[k].held) == Holders(next.tasks, k)
      ensures k >= |next.locks| ==> Users(next.tasks, k) == 0 && Holders(next.tasks, k) == 0
    {
      UsersUpdate(s.tasks, i, t, k);
      HoldersUpdate(s.tasks, i, t, k);
    }
  }

  lemma EnterKeeps(s: State, i: nat)
    requires Inv(s) && i < |s.tasks| && s.tasks[i].stage == Outside && Next(s, i).Some?
    ensures Inv(Next(s, i).value)
  {
    var next := Next(s, i).value;
    CountsMove(s, i, next.tasks[i], next);
  }

  lemma HoldKeeps(s: State, i: nat)
    requires Inv(s) && i < |s.tasks| && (s.tasks[i].stage == Waiting || s.tasks[i].stage == Holding) && Next(s, i).Some?
    ensures Inv(Next(s, i).value)
  {
    var next := Next(s, i).value;
    UsedBy(s.tasks, i);
    CountsMove(s, i, next.tasks[i], next);
  }

  // The entry goes only when its last user does.
  lemma LeaveKeeps(s: State, i: nat)
    requires Inv(s) && i < |s.tasks| && s.tasks[i].stage == Unlocked && Next(s, i).Some?
    ensures Inv(Next(s, i).value)
  {
    var next, t := Next(s, i).value, s.tasks[i];
    UsedBy(s.tasks, i);
    CountsMove(s, i, next.tasks[i], next);
    forall k | 0 <= k < |next.tasks| ensures Named(next, next.tasks[k]) {
      if k != i && next.tasks[k].Inside() {
        assert Named(s, s.tasks[k]) && Named(s, t);
        UsedBy(next.tasks, k);
      }
    }
    forall r | r in next.entries ensures Entry(next, r) {
      assert Entry(s, r) && Named(s, t);
    }
  }

  /** Every critical section keeps the invariant, including the deletion and re-creation of entries. */
  lemma StepKeeps(s: State, i: nat)
    requires Inv(s) && i < |s.tasks| && Next(s, i).Some?
    ensures Inv(Next(s, i).value)
  {
    match s.tasks[i].stage
    case Outside => EnterKeeps(s, i);
    case Unlocked => LeaveKeeps(s, i);
    case _ => HoldKeeps(s, i);
  }

  /** At most one task holds a root Flow. */
  lemma MutualExclusion(s: State, i: nat, j: nat)
    requires Inv(s) && i < j < |s.tasks| && s.tasks[i].stage == s.tasks[j].stage == Holding
    ensures s.tasks[i].root != s.tasks[j].root
  {
    if s.tasks[i].root == s.tasks[j].root {
      assert Named(s, s.tasks[i]) && Named(s, s.tasks[j]) && Entry(s, s.tasks[i].root);
      TwoHolders(s.tasks, i, j);
      assert false;
    }
  }

  /** A waiter's lock stays in the map, and when nobody is inside the map is empty. */
  lemma EntriesAreUsers(s: State, root: string)
    requires Inv(s)
    ensures root in s.entries <==> exists i :: 0 <= i < |s.tasks| && s.tasks[i].Inside() && s.tasks[i].root == root
  {
    if root in s.entries {
      assert Entry(s, root);
      var k := s.entries[root];
      var i := SomeUser(s.tasks, k);
      assert Named(s, s.tasks[i]);
    }
    if i :| 0 <= i < |s.tasks| && s.tasks[i].Inside() && s.tasks[i].root == root {
      assert Named(s, s.tasks[i]);
    }
  }

  lemma {:induction false} SomeUser(tasks: seq<Task>, lock: nat) returns (i: nat)
    requires Users(tasks, lock) >= 1
    ensures i < |tasks| && tasks[i].Inside() && tasks[i].lock == lock
  {
    var n := |tasks| - 1;
    if tasks[n].Inside() && tasks[n].lock == lock {
      i := n;
    } else {
      i := SomeUser(tasks[..n], lock);
    }
  }

  lemma {:induction false} SomeHolder(tasks: seq<Task>, lock: nat) returns (i: nat)
    requires Holders(tasks, lock) >= 1
    ensures i < |tasks| && tasks[i].stage == Holding && tasks[i].lock == lock
  {
    var n := |tasks| - 1;
    if tasks[n].stage == Holding && tasks[n].lock == lock {
      i := n;
    } else {
      i := SomeHolder(tasks[..n], lock);
    }
  }

  /** While someone is inside, someone can step: a waiter is blocked only by a holder. */
  lemma Progress(s: State)
    requires Inv(s) && forall i :: 0 <= i < |s.tasks| ==> Next(s, i).None?
    ensures forall i :: 0 <= i < |s.tasks| ==> s.tasks[i].stage == Gone
    ensures s.entries == map[]
  {
    forall i | 0 <= i < |s.tasks| ensures s.tasks[i].stage == Gone || s.tasks[i].stage == Waiting {
      BlockedStage(s, i);
    }
    forall i | 0 <= i < |s.tasks| ensures s.tasks[i].stage == Gone {
      if s.tasks[i].stage == Waiting {
        assert Next(s, i).None? && Named(s, s.tasks[i]) && Entry(s, s.tasks[i].root);
        assert s.locks[s.tasks[i].lock].held;
        var j := SomeHolder(s.tasks, s.tasks[i].lock);
        assert false;
      }
    }
    forall r | r in s.entries ensures false {
      EntriesAreUsers(s, r);
    }
    assert s.entries == map[];
  }

  lemma BlockedStage(s: State, i: nat)
    requires Inv(s) && i < |s.tasks| && Next(s, i).None?
    ensures s.tasks[i].stage == Gone || s.tasks[i].stage == Waiting
  {
    var t := s.tasks[i];
    assert Named(s, t);
    UsedBy(s.tasks, i);
    if t.root in s.entries {
      assert Entry(s, t.root);
    }
  }

  // ---------- Whole runs ----------

  function Run(s: State, moves: seq<nat>): Option<State>
    decreases |moves|
  {
    if moves == [] then Some(s)
    else if moves[0] >= |s.tasks| then None
    else match Next(s, moves[0])
      case None => None
      case Some(next) => Run(next, moves[1..])
  }

  lemma {:induction false} NobodyInside(tasks: seq<Task>, lock: nat)
    requires forall i :: 0 <= i < |tasks| ==> tasks[i].stage == Outside
    ensures Users(tasks, lock) == 0 && Holders(tasks, lock) == 0
  {
    if tasks != [] {
      NobodyInside(tasks[..|tasks| - 1], lock);
    }
  }

  lemma {:induction false} RunKeeps(s: State, moves: seq<nat>)
    requires Inv(s) && Run(s, moves).Some?
    ensures Inv(Run(s, moves).value)
    decreases |moves|
  {
    if moves != [] {
      StepKeeps(s, moves[0]);
      RunKeeps(Next(s, moves[0]).value, moves[1..]);
    }
  }

  /** From an empty map, in every interleaving. */
  lemma {:induction false} EveryInterleaving(tasks: seq<Task>, moves: seq<nat>)
    requires (forall i :: 0 <= i < |tasks| ==> tasks[i].stage == Outside) && Run(State(map[], [], tasks), moves).Some?
    ensures Inv(Run(State(map[], [], tasks), moves).value)
  {
    forall k: nat ensures Users(tasks, k) == 0 && Holders(tasks, k) == 0 {
      NobodyInside(tasks, k);
    }
    RunKeeps(State(map[], [], tasks), moves);
  }
}
