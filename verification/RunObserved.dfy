/** One run over many inputs (internal/ingest/pipeline.go:230-367): workers take indexes, report a
    terminal result each, and whatever was never dispatched is reported afterwards. The schedule,
    the moment of cancellation, every result and every observer failure are arbitrary. */
module RunObserved {
  datatype Result = Empty | Succeeded | Failed

  // How often an index was reported.
  function Reports(observed: seq<nat>, i: nat): nat {
    if observed == [] then 0 else Reports(observed[..|observed| - 1], i) + if observed[|observed| - 1] == i then 1 else 0
  }

  lemma {:induction false} ReportMore(observed: seq<nat>, k: nat)
    ensures forall i: nat :: Reports(observed + [k], i) == Reports(observed, i) + if i == k then 1 else 0
  {
    assert (observed + [k])[..|observed|] == observed;
  }

  class Run {
    const size: nat
    const workers: nat
    const results: array<Result>
    const completed: array<bool>
    var next: nat               // the dispatcher's position
    var open: bool              // the jobs channel
    var running: set<nat>       // indexes the workers hold
    var cancelled: bool
    var observed: seq<nat>      // every observe call, in order

    constructor (n: nat, w: nat)
      requires w >= 1
      ensures Valid() && size == n && workers == w && next == 0 && open && observed == [] && fresh(results) && fresh(completed)
    {
      size, workers := n, w;
      results := new Result[n](_ => Empty);
      completed := new bool[n](_ => false);
      next, open, running, cancelled, observed := 0, true, {}, false, [];
    }

    // An index is waiting, running or completed, and reported exactly when completed.
    ghost predicate Valid()
      reads this, results, completed
    {
      && results.Length == completed.Length == size && results != completed as object && next <= size && workers >= 1
      && |running| <= workers
      && (forall i :: i in running ==> i < next && !completed[i])
      && (forall i :: 0 <= i < size ==> (completed[i] <==> i < next && i !in running))
      && Accounted()
    }

    ghost predicate Accounted()
      reads this, results, completed
      requires results.Length == completed.Length == size
    {
      && (forall i: nat :: Reports(observed, i) == if i < size && completed[i] then 1 else 0)
      && (forall i :: 0 <= i < size && completed[i] ==> results[i] != Empty)
    }

    // The dispatcher hands an index to an idle worker.
    method Dispatch()
      requires Valid() && open && next < size && |running| < workers
      modifies this`next, this`running
      ensures Valid() && next == old(next) + 1 && |running| == |old(running)| + 1
    {
      running, next := running + {next}, next + 1;
    }

    // A worker's result reaches the consumer, which stores it and tells the observer.
    method Finish(index: nat)
      requires Valid() && index in running
      modifies this, results, completed
      ensures Valid() && next == old(next) && open == old(open) && running == old(running) - {index}
    {
      var failed := *;
      results[index] := if failed then Failed else Succeeded;
      completed[index] := true;
      running := running - {index};
      Observe(index);
      var observerFailed := *;
      if observerFailed {
        cancelled := true;
      }
    }

    method Observe(index: nat)
      modifies this`observed
      ensures forall i: nat :: Reports(observed, i) == Reports(old(observed), i) + if i == index then 1 else 0
    {
      ReportMore(observed, index);
      observed := observed + [index];
    }

    // Until the jobs channel is closed and the last worker has reported.
    method Drain()
      requires Valid() && open
      modifies this, results, completed
      ensures Valid() && !open && running == {}
    {
      while open || exists i :: i in running
        invariant Valid()
        decreases 2 * (size - next) + |running| + if open then 1 else 0
      {
        var mayDispatch := open && !cancelled && next < size && |running| < workers;
        var mayClose := open && (cancelled || next == size);
        var dispatchAnyway := *; // a cancelled dispatcher may still hand out one more index
        if mayDispatch || (dispatchAnyway && open && next < size && |running| < workers) {
          Dispatch();
        } else if mayClose {
          open := false;
        } else {
          var index :| index in running;
          Finish(index);
        }
        var interrupted := *;
        cancelled := cancelled || interrupted;
      }
      assert running == {};
    }

    // Inputs that were never dispatched still receive a terminal result, in order.
    method FailUndispatched()
      requires Valid() && running == {}
      modifies this, results, completed
      ensures results.Length == completed.Length == size && Accounted()
      ensures forall i :: 0 <= i < size ==> completed[i]
    {
      var index := 0;
      while index < size
        invariant index <= size && results.Length == completed.Length == size && Accounted()
        invariant forall i :: 0 <= i < index ==> completed[i]
      {
        if !completed[index] {
          results[index] := Failed;
          completed[index] := true;
          Observe(index);
        }
        index := index + 1;
      }
    }

    /** Every input is reported exactly once and fills its slot, and the counts add up, whatever the
        schedule, the cancellation and the observer do. */
    method RunAll() returns (succeeded: nat, failed: nat)
      requires Valid() && open && next == 0 && observed == []
      modifies this, results, completed
      ensures results.Length == size && forall i :: 0 <= i < size ==> results[i] != Empty
      ensures forall i: nat :: Reports(observed, i) == if i < size then 1 else 0
      ensures succeeded + failed == size
    {
      Drain();
      FailUndispatched();
      succeeded, failed := 0, 0;
      var k := 0;
      while k < size
        invariant k <= size && succeeded + failed == k
      {
        if results[k] == Failed {
          failed := failed + 1;
        } else {
          succeeded := succeeded + 1;
        }
        k := k + 1;
      }
    }
  }
}
