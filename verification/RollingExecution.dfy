/** Committing a live render in small batches (internal/ingest/rolling.go:80-253): every prepared Object is
    flushed once, in order, and counted once, whatever the store does, the backlog stays bounded, and at any
    moment everything said of every Object flushed so far is true of its Flow in the store. */
module RollingExecution {
  import opened ObjectResults
  import opened RemoteStore
  import opened EventProtocol
  import opened RollingCommit

  const COMMIT_OBJECTS := 64

  // One Flow of the render: what waits for its next batch, and the summary of what was flushed.
  datatype FlowState = FlowState(pending: seq<PreparedObject>, pendingSize: int, summary: Summary)

  function Size(objects: seq<PreparedObject>): nat {
    if objects == [] then 0 else Size(objects[..|objects| - 1]) + objects[|objects| - 1].size
  }

  lemma {:induction false} SizeMore(objects: seq<PreparedObject>, o: PreparedObject)
    ensures Size(objects + [o]) == Size(objects) + o.size
  {
    assert (objects + [o])[..|objects|] == objects;
  }

  // ---------- Sums over the Flows ----------

  function Count(states: seq<FlowState>): nat {
    if states == [] then 0 else Count(states[..|states| - 1]) + |states[|states| - 1].pending|
  }

  function Bytes(states: seq<FlowState>): int {
    if states == [] then 0 else Bytes(states[..|states| - 1]) + states[|states| - 1].pendingSize
  }

  lemma {:induction false} SumsUpdate(states: seq<FlowState>, k: nat, s: FlowState)
    requires k < |states|
    ensures Count(states[k := s]) == Count(states) + |s.pending| - |states[k].pending|
    ensures Bytes(states[k := s]) == Bytes(states) + s.pendingSize - states[k].pendingSize
  {
    var n := |states| - 1;
    if k < n {
      assert states[k := s][..n] == states[..n][k := s];
      SumsUpdate(states[..n], k, s);
    } else {
      assert states[k := s][..n] == states[..n];
    }
  }

  lemma {:induction false} SumsAtLeast(states: seq<FlowState>, k: nat)
    requires k < |states| && forall i :: 0 <= i < |states| ==> states[i].pendingSize >= 0
    ensures |states[k].pending| <= Count(states) && 0 <= states[k].pendingSize <= Bytes(states)
  {
    var n := |states| - 1;
    if k < n {
      SumsAtLeast(states[..n], k);
    } else {
      SumsNonNegative(states[..n]);
    }
  }

  lemma {:induction false} SumsNonNegative(states: seq<FlowState>)
    requires forall i :: 0 <= i < |states| ==> states[i].pendingSize >= 0
    ensures Bytes(states) >= 0
  {
    if states != [] {
      SumsNonNegative(states[..|states| - 1]);
    }
  }

  lemma {:induction false} NothingWaits(states: seq<FlowState>)
    requires forall i :: 0 <= i < |states| ==> states[i].pending == [] && states[i].pendingSize == 0
    ensures Count(states) == 0 && Bytes(states) == 0
  {
    if states != [] {
      NothingWaits(states[..|states| - 1]);
    }
  }

  // ---------- One Flow's account ----------

  // Everything the Flow was given was flushed or waits, in order; the summary counts what was flushed.
  ghost predicate Kept(s: FlowState, accepted: seq<PreparedObject>, done: seq<PreparedObject>, entries: seq<ObjectResult>) {
    accepted == done + s.pending && s.pendingSize == Size(s.pending) && s.summary == Tally(entries)
  }

  method Accumulate(summary: Summary, results: seq<ObjectResult>, ghost entries: seq<ObjectResult>) returns (counted: Summary)
    requires summary == Tally(entries)
    ensures counted == Tally(entries + results)
  {
    counted := summary;
    var k := 0;
    assert entries + results[..k] == entries;
    while k < |results|
      invariant 0 <= k <= |results| && counted == Tally(entries + results[..k])
    {
      assert (entries + results[..k + 1])[..|entries| + k] == entries + results[..k];
      counted := counted.Add(results[k]);
      k := k + 1;
    }
    assert results[..k] == results;
  }

  datatype Validation = Unusable | NotReady | Ready

  class Execution {
    const states: array<FlowState>
    const commits: seq<FlowCommit>
    const streaming: bool       // output is checked before anything is committed
    const commitBytes: nat
    var active: int             // the one Flow of a muxed render, or -1
    var planned: bool
    var totalObjects: nat
    var pendingBytes: int
    var pendingCount: int
    ghost var accepted: seq<seq<PreparedObject>>

    function Stores(): set<Store> { set c | c in commits :: c.store }

    // Every Flow has a commit and a store of its own.
    ghost predicate Separate() {
      forall i, j :: 0 <= i < j < |commits| ==> commits[i] != commits[j] && commits[i].store != commits[j].store
    }

    ghost predicate FlowOk(k: nat, s: FlowState, objects: seq<PreparedObject>)
      requires k < |commits|
      reads commits, Stores()
    {
      var c := commits[k];
      c.Valid() && Kept(s, objects, c.done, c.entries) && Fits(objects, c.start, c.leaving)
    }

    ghost predicate Shape()
      reads this`accepted, this`active
    {
      && |accepted| == |commits| == states.Length && -1 <= active < states.Length && commitBytes >= 1 && Separate()
    }

    ghost predicate Flows()
      requires |accepted| == |commits| == states.Length
      reads this`accepted, states, commits, Stores()
    {
      forall k :: 0 <= k < states.Length ==> FlowOk(k, states[k], accepted[k])
    }

    ghost predicate Valid()
      reads this, states, commits, Stores()
    {
      && Shape() && Flows()
      && pendingCount == Count(states[..]) && pendingBytes == Bytes(states[..])
    }

    constructor (commits: seq<FlowCommit>, stream: bool, bytes: nat, only: int)
      requires -1 <= only < |commits| && bytes >= 1
      requires forall i, j :: 0 <= i < j < |commits| ==> commits[i] != commits[j] && commits[i].store != commits[j].store
      requires forall c :: c in commits ==> c.Valid() && c.done == [] && c.entries == []
      ensures Valid() && fresh(states) && this.commits == commits && forall k :: 0 <= k < |commits| ==> accepted[k] == []
    {
      this.commits := commits;
      states := new FlowState[|commits|](_ => FlowState([], 0, EMPTY_SUMMARY));
      streaming, commitBytes, active, planned := stream, bytes, only, false;
      totalObjects, pendingBytes, pendingCount := 0, 0, 0;
      accepted := seq(|commits|, _ => []);
      new;
      NothingWaits(states[..]);
    }

    // The backlog an accepted record may leave behind.
    predicate Bounded()
      reads this
    {
      pendingCount < 64 && (!streaming || planned ==> pendingBytes < commitBytes)
    }

    // Sends one Flow's backlog to its store and counts what became of it.
    method Commit(k: nat) returns (summary: Summary, failed: bool)
      requires Valid() && k < states.Length && states[k].pending != []
      modifies commits[k], commits[k].store
      ensures FlowOk(k, FlowState([], 0, summary), accepted[k])
      ensures forall i :: 0 <= i < states.Length && i != k ==> FlowOk(i, states[i], accepted[i])
    {
      assert FlowOk(k, states[k], accepted[k]);
      ghost var entries := commits[k].entries;
      var results;
      results, failed := commits[k].FlushBatch(states[k].pending);
      summary := Accumulate(states[k].summary, results, entries);
      assert accepted[k] + [] == accepted[k];
    }

    /** Flushing one Flow moves exactly its backlog to its account, whether or not the store takes it. */
    method Flush(k: nat) returns (ok: bool)
      requires Valid() && k < states.Length
      modifies this`accepted, this`pendingBytes, this`pendingCount, states, commits, Stores()
      ensures Valid() && accepted == old(accepted)
      ensures states[k].pending == []
      ensures forall i :: 0 <= i < states.Length && i != k ==> states[i] == old(states[i])
    {
      if states[k].pending == [] {
        return true;
      }
      var summary, failed := Commit(k);
      Settle(k, summary);
      var removed := *;
      ok := !failed && removed;
    }

    lemma ClearShare(k: nat)
      requires Shape() && k < states.Length && states[k].pendingSize >= 0
      requires forall i :: 0 <= i < states.Length && i != k ==> FlowOk(i, states[i], accepted[i])
      ensures |states[k].pending| <= Count(states[..]) && states[k].pendingSize <= Bytes(states[..])
    {
      forall i | 0 <= i < states.Length ensures states[i].pendingSize >= 0 {
        assert i != k ==> FlowOk(i, states[i], accepted[i]);
      }
      SumsAtLeast(states[..], k);
    }

    // Replaces one Flow's state and what it was given.
    method Install(k: nat, s: FlowState, ghost objects: seq<PreparedObject>)
      requires Shape() && k < states.Length && FlowOk(k, s, objects)
      requires forall i :: 0 <= i < states.Length && i != k ==> FlowOk(i, states[i], accepted[i])
      modifies states, this`accepted
      ensures Shape() && Flows()
      ensures states[..] == old(states[..])[k := s] && accepted == old(accepted)[k := objects]
    {
      states[k] := s;
      accepted := accepted[k := objects];
    }

    // Clears the backlog of one Flow and its share of the totals.
    method Settle(k: nat, summary: Summary)
      requires Shape() && k < states.Length && FlowOk(k, FlowState([], 0, summary), accepted[k])
      requires forall i :: 0 <= i < states.Length && i != k ==> FlowOk(i, states[i], accepted[i])
      requires states[k].pendingSize >= 0 && pendingCount == Count(states[..]) && pendingBytes == Bytes(states[..])
      modifies this`accepted, this`pendingBytes, this`pendingCount, states
      ensures Valid() && accepted == old(accepted)
      ensures states[..] == old(states[..])[k := FlowState([], 0, summary)]
    {
      ghost var before := states[..];
      var s := states[k];
      ClearShare(k);
      Install(k, FlowState([], 0, summary), accepted[k]);
      SumsUpdate(before, k, FlowState([], 0, summary));
      TakeTotals(s);
    }

    // The clamps at zero never bite.
    method TakeTotals(s: FlowState)
      requires Shape() && Flows() && pendingCount - |s.pending| == Count(states[..]) && pendingBytes - s.pendingSize == Bytes(states[..])
      requires pendingCount >= |s.pending| && pendingBytes >= s.pendingSize
      modifies this`pendingBytes, this`pendingCount
      ensures Valid()
    {
      pendingBytes := if pendingBytes > s.pendingSize then pendingBytes - s.pendingSize else 0;
      pendingCount := if pendingCount > |s.pending| then pendingCount - |s.pending| else 0;
    }

    // Every Flow in order, until one fails.
    method FlushPending() returns (ok: bool)
      requires Valid()
      modifies this`accepted, this`pendingBytes, this`pendingCount, states, commits, Stores()
      ensures Valid() && accepted == old(accepted)
      ensures ok ==> pendingCount == 0 && pendingBytes == 0
    {
      var k := 0;
      ok := true;
      while ok && k < states.Length
        invariant 0 <= k <= states.Length && Valid() && accepted == old(accepted)
        invariant forall i :: 0 <= i < k ==> states[i].pending == []
      {
        ok := Flush(k);
        k := k + 1;
      }
      if ok {
        TotalsClear();
      }
    }

    // All that was said of Flow k is true of its store, and the summary counts it.
    ghost predicate Accounted(k: nat)
      requires k < |commits| && k < states.Length
      reads this, states, commits, Stores()
    {
      var c := commits[k];
      && Distinct(c.entries) && ById(c.entries).Keys == Ids(c.done) && |c.entries| == |c.done|
      && states[k].summary == Tally(c.entries) && states[k].summary.total == |c.done|
      && (!c.dryRun ==> AllTrue(c.done, ById(c.entries), c.start, c.store.present, c.store.doomed, c.store.content, c.mode, c.named) && c.Delivered())
    }

    /** At every moment of a run the account of each Flow is true of what has been flushed. */
    lemma AlwaysAccounted(k: nat)
      requires Valid() && k < states.Length
      ensures Accounted(k) && accepted[k] == commits[k].done + states[k].pending
    {
      assert FlowOk(k, states[k], accepted[k]);
      TallyConserves(commits[k].entries);
    }

    lemma TotalsClear()
      requires Valid() && forall i :: 0 <= i < states.Length ==> states[i].pending == []
      ensures pendingCount == 0 && pendingBytes == 0
    {
      forall i | 0 <= i < states.Length ensures states[i].pendingSize == 0 {
        assert FlowOk(i, states[i], accepted[i]);
      }
      NothingWaits(states[..]);
    }

    lemma AllAccounted()
      requires Valid() && forall i :: 0 <= i < states.Length ==> states[i].pending == []
      ensures forall i :: 0 <= i < states.Length ==> commits[i].done == accepted[i] && Accounted(i)
    {
      forall i | 0 <= i < states.Length ensures commits[i].done == accepted[i] && Accounted(i) {
        AlwaysAccounted(i);
      }
    }

    lemma AppendOk(k: nat, o: PreparedObject)
      requires Valid() && k < states.Length && Fits(accepted[k] + [o], commits[k].start, commits[k].leaving)
      ensures var s := states[k]; FlowOk(k, s.(pending := s.pending + [o], pendingSize := s.pendingSize + o.size), accepted[k] + [o])
    {
      var s := states[k];
      assert FlowOk(k, s, accepted[k]);
      SizeMore(s.pending, o);
      assert commits[k].done + (s.pending + [o]) == (commits[k].done + s.pending) + [o];
    }

    // Puts a prepared Object at the end of its Flow's backlog.
    method Append(k: nat, o: PreparedObject)
      requires Valid() && k < states.Length && Fits(accepted[k] + [o], commits[k].start, commits[k].leaving)
      modifies this`accepted, this`totalObjects, this`pendingBytes, this`pendingCount, states
      ensures Valid() && accepted == old(accepted)[k := old(accepted)[k] + [o]]
      ensures pendingCount == old(pendingCount) + 1 && pendingBytes == old(pendingBytes) + o.size
    {
      ghost var before := states[..];
      var s := states[k];
      var t := s.(pending := s.pending + [o], pendingSize := s.pendingSize + o.size);
      AppendOk(k, o);
      Install(k, t, accepted[k] + [o]);
      SumsUpdate(before, k, t);
      AddTotals(o);
    }

    // Counts one more Object that waits.
    method AddTotals(o: PreparedObject)
      requires Shape() && Flows() && pendingCount + 1 == Count(states[..]) && pendingBytes + o.size == Bytes(states[..])
      modifies this`totalObjects, this`pendingBytes, this`pendingCount
      ensures Valid() && pendingCount == old(pendingCount) + 1 && pendingBytes == old(pendingBytes) + o.size
    {
      totalObjects, pendingBytes, pendingCount := totalObjects + 1, pendingBytes + o.size, pendingCount + 1;
    }

    // The Flow a record belongs to.
    function Chosen(stream: int): int
      reads this
    {
      if active >= 0 then active else stream
    }

    // A record is taken when its Flow is known, its Object prepared and its evidence usable.
    predicate Takes(stream: int, prepared: bool, validation: Validation)
      reads this
    {
      0 <= Chosen(stream) < states.Length && prepared && (streaming ==> validation != Unusable)
    }

    /** One finished Segment: it joins its Flow's backlog. The whole backlog is flushed when a live stream's
        evidence becomes complete, and afterwards or otherwise when the staging area asks or a limit is reached;
        in every other case it just waits. Unless something fails it is left below both limits, or below the
        count limit while the stream's evidence is still incomplete. */
    method Accept(stream: int, o: PreparedObject, prepared: bool, validation: Validation, flushStaging: bool) returns (ok: bool)
      requires Valid()
      requires var k := Chosen(stream); 0 <= k < states.Length ==> Fits(accepted[k] + [o], commits[k].start, commits[k].leaving)
      modifies this, states, commits, Stores()
      ensures Valid() && active == old(active)
      ensures if old(Takes(stream, prepared, validation)) then var k := old(Chosen(stream)); accepted == old(accepted)[k := old(accepted)[k] + [o]]
              else !ok && accepted == old(accepted)
      ensures ok ==> Bounded() && planned == (old(planned) || (streaming && validation == Ready))
      ensures ok ==>
        if (if streaming && !old(planned) then validation == Ready
            else flushStaging || old(pendingBytes) + o.size >= commitBytes || old(pendingCount) + 1 >= 64)
        then pendingCount == 0 && pendingBytes == 0
        else pendingCount == old(pendingCount) + 1 && pendingBytes == old(pendingBytes) + o.size && unchanged(commits, Stores())
    {
      if !Takes(stream, prepared, validation) {
        return false;
      }
      Append(Chosen(stream), o);
      ok := AfterAppend(validation, flushStaging);
    }

    // Whether the backlog must be flushed now.
    method AfterAppend(validation: Validation, flushStaging: bool) returns (ok: bool)
      requires Valid() && pendingCount >= 1 && (streaming ==> validation != Unusable)
      modifies this, states, commits, Stores()
      ensures Valid() && active == old(active) && accepted == old(accepted)
      ensures ok ==> Bounded() && planned == (old(planned) || (streaming && validation == Ready))
      ensures ok ==>
        if (if streaming && !old(planned) then validation == Ready
            else flushStaging || old(pendingBytes) >= commitBytes || old(pendingCount) >= 64)
        then pendingCount == 0 && pendingBytes == 0
        else unchanged(this, commits, Stores())
    {
      if streaming && !planned {
        if validation != Ready {
          return pendingCount < COMMIT_OBJECTS;
        }
        ok := *;    // the Flow graph is written before the first batch
        if !ok {
          return;
        }
        planned := true;
        ok := FlushPending();
        return;
      }
      if flushStaging || pendingBytes >= commitBytes || pendingCount >= COMMIT_OBJECTS {
        ok := FlushPending();
      } else {
        ok := true;
      }
    }

    /** At the end every Flow is flushed, also after an earlier one failed: nothing waits, and of every
        Object each Flow was given, what is said is true of the store and counted by the summary. */
    method Finish() returns (ok: bool)
      requires Valid()
      modifies this, states, commits, Stores()
      ensures Valid() && accepted == old(accepted)
      ensures streaming && !planned ==> !ok && unchanged(this, states, commits, Stores())
      ensures !streaming || planned ==> pendingCount == 0 && pendingBytes == 0
      ensures !streaming || planned ==> forall k :: 0 <= k < states.Length ==> commits[k].done == accepted[k] && Accounted(k)
    {
      if streaming && !planned {
        return false;
      }
      ok := FlushAll();
      TotalsClear();
      AllAccounted();
    }

    // Every Flow in order, whatever fails.
    method FlushAll() returns (ok: bool)
      requires Valid()
      modifies this`accepted, this`pendingBytes, this`pendingCount, states, commits, Stores()
      ensures Valid() && accepted == old(accepted)
      ensures forall i :: 0 <= i < states.Length ==> states[i].pending == []
    {
      ok := true;
      var k := 0;
      while k < states.Length
        invariant 0 <= k <= states.Length && Valid() && accepted == old(accepted)
        invariant forall i :: 0 <= i < k ==> states[i].pending == []
      {
        var done := Flush(k);
        ok := ok && done;
        k := k + 1;
      }
    }
  }
}
