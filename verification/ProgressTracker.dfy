/** Cumulative progress of one input (internal/progress/progress.go:39-190): what a reporter is handed, in
    what order, and that it always makes sense. */
module ProgressTracker {
  import opened EventProtocol
  import opened EventMailbox

  datatype PhaseState = PhaseState(completed: Work, total: Work, totalsFinal: bool, revision: nat)

  const FRESH := PhaseState(Work(0, 0), Work(0, 0), false, 0)

  predicate AtMost(a: Work, b: Work) { a.objects <= b.objects && a.bytes <= b.bytes }

  predicate NonNegative(w: Work) { w.objects >= 0 && w.bytes >= 0 }

  // Snapshot.Validate, for a known phase.
  predicate Validates(s: Snapshot) {
    s.input >= 0 && s.revision > 0 && NonNegative(s.completed) && NonNegative(s.total) && (s.totalsFinal ==> AtMost(s.completed, s.total))
  }

  // Nothing a reporter saw is taken back: work and totals only grow, and final totals stay.
  ghost predicate Follows(before: Snapshot, after: Snapshot) {
    && before.input == after.input && before.revision < after.revision
    && (before.phase == after.phase ==>
         && AtMost(before.completed, after.completed) && AtMost(before.total, after.total)
         && (before.totalsFinal ==> after.totalsFinal && after.total == before.total))
  }

  class Tracker {
    const input: nat
    var states: map<Phase, PhaseState>
    var revision: nat
    ghost var reported: seq<Snapshot>

    function Of(phase: Phase): PhaseState
      reads this
    {
      if phase in states then states[phase] else FRESH
    }

    ghost predicate Valid()
      reads this
    {
      && revision == |reported|
      && (forall p :: p in states ==> Sane(states[p]))
      && (forall k :: 0 <= k < |reported| ==> Reported(reported[k], k))
      && (forall j, k :: 0 <= j < k < |reported| ==> Follows(reported[j], reported[k]))
    }

    predicate Sane(s: PhaseState) {
      NonNegative(s.completed) && NonNegative(s.total) && (s.totalsFinal ==> AtMost(s.completed, s.total))
    }

    // The k-th report is the k-th revision, valid, and no later than what its phase has reached.
    ghost predicate Reported(s: Snapshot, k: nat)
      reads this
    {
      && Validates(s) && s.input == input && s.revision == k + 1
      && AtMost(s.completed, Of(s.phase).completed) && AtMost(s.total, Of(s.phase).total)
      && (s.totalsFinal ==> Of(s.phase).totalsFinal && Of(s.phase).total == s.total)
    }

    // Each phase reports itself once when the tracker begins.
    constructor (index: nat, phases: seq<Phase>)
      ensures Valid() && input == index && fresh(this)
    {
      input, states, revision, reported := index, map[], 0, [];
      new;
      var k := 0;
      while k < |phases|
        invariant 0 <= k <= |phases| && Valid() && fresh(this) && input == index
        invariant forall p :: p in states ==> states[p].completed == Work(0, 0) == states[p].total && !states[p].totalsFinal
      {
        if phases[k] !in states {
          Report(phases[k], FRESH);
        }
        k := k + 1;
      }
    }

    // Under the tracker's lock, so reports leave in revision order.
    method Report(phase: Phase, state: PhaseState)
      requires Valid() && Sane(state)
      requires AtMost(Of(phase).completed, state.completed) && AtMost(Of(phase).total, state.total)
      requires Of(phase).totalsFinal ==> state.totalsFinal && state.total == Of(phase).total
      modifies this
      ensures Valid() && states == old(states)[phase := state.(revision := revision)] && revision == old(revision) + 1
      ensures reported == old(reported) + [Snapshot(input, phase, state.completed, state.total, state.totalsFinal, revision)]
    {
      revision := revision + 1;
      ghost var s := Snapshot(input, phase, state.completed, state.total, state.totalsFinal, revision);
      forall k | 0 <= k < |reported| ensures Follows(reported[k], s) {
        assert Reported(reported[k], k);
      }
      states := states[phase := state.(revision := revision)];
      reported := reported + [s];
    }

    method SetTotals(phase: Phase, total: Work, final: bool) returns (ok: bool)
      requires Valid()
      modifies this
      ensures Valid()
      ensures ok <==> NonNegative(total) && if old(Of(phase)).totalsFinal then final && total == old(Of(phase)).total
                                            else AtMost(old(Of(phase)).total, total) && (final ==> AtMost(old(Of(phase)).completed, total))
      ensures ok && !old(Of(phase)).totalsFinal ==> Of(phase) == PhaseState(old(Of(phase)).completed, total, final, revision)
      ensures !ok || old(Of(phase)).totalsFinal ==> reported == old(reported) && states == old(states)
    {
      if !NonNegative(total) {
        return false;
      }
      var state := Of(phase);
      if state.totalsFinal {
        return final && total == state.total;
      }
      if !AtMost(state.total, total) || (final && !AtMost(state.completed, total)) {
        return false;
      }
      Report(phase, state.(total := total, totalsFinal := final));
      return true;
    }

    method Advance(phase: Phase, work: Work) returns (ok: bool)
      requires Valid()
      modifies this
      ensures Valid()
      ensures var next := Work(old(Of(phase)).completed.objects + work.objects, old(Of(phase)).completed.bytes + work.bytes);
        && (ok <==> NonNegative(work) && (old(Of(phase)).totalsFinal ==> AtMost(next, old(Of(phase)).total)))
        && (if ok then Of(phase) == old(Of(phase)).(completed := next, revision := revision) else reported == old(reported) && states == old(states))
    {
      if !NonNegative(work) {
        return false;
      }
      var state := Of(phase);
      var next := Work(state.completed.objects + work.objects, state.completed.bytes + work.bytes);
      if state.totalsFinal && !AtMost(next, state.total) {
        return false;
      }
      Report(phase, state.(completed := next));
      return true;
    }
  }
}
