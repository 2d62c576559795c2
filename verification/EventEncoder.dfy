/** The encoder of one NDJSON stream: sequence numbers, elapsed time and the hello and terminal
    boundaries (internal/ingestevent/codec.go). Whether a line fits the advertised limit and
    whether the writer takes it are the environment's choice. */
module EventEncoder {
  import opened EventProtocol

  datatype Record = Record(seqNo: nat, elapsed: nat, event: Event)

  // Contiguous numbers, time that never runs backwards, and one record for every event.
  ghost predicate WellNumbered(records: seq<Record>, log: seq<Event>) {
    && |records| == |log|
    && (forall k :: 0 <= k < |records| ==> records[k].seqNo == k && records[k].event == log[k])
    && (forall j, k :: 0 <= j < k < |records| ==> records[j].elapsed <= records[k].elapsed)
  }

  class Encoder {
    const reliable: bool        // every line fits, is well formed and is taken
    var nextSequence: nat
    var lastElapsed: nat
    var failed: bool
    var finished: bool
    var final: bool
    var finalError: bool
    var records: seq<Record>    // the lines the sink took
    ghost var log: seq<Event>

    ghost predicate Valid()
      reads this
    {
      && nextSequence == |log| && WellNumbered(records, log)
      && (forall k :: 0 <= k < |records| ==> records[k].elapsed <= lastElapsed)
      && (finished <==> log != [] && log[|log| - 1].RunFinished?)
    }

    constructor (reliable: bool)
      ensures Valid() && log == [] && !failed && !finished && !final && this.reliable == reliable
    {
      this.reliable := reliable;
      nextSequence, lastElapsed, records, log := 0, 0, [], [];
      failed, finished, final, finalError := false, false, false, false;
    }

    method Emit(e: Event, clock: int, fits: bool, written: bool) returns (ok: bool)
      requires Valid()
      modifies this
      ensures Valid() && final == old(final)
      ensures ok <==> !final && !old(finished) && !old(failed) && (e.Hello? <==> old(log) == []) && fits && written
      ensures log == if ok then old(log) + [e] else old(log)
      ensures failed <==> old(failed) || (!final && !old(finished) && (e.Hello? <==> old(log) == []) && fits && !written)
    {
      if final || finished || failed {
        return false;
      }
      if (nextSequence == 0 && !e.Hello?) || (nextSequence > 0 && e.Hello?) {
        return false;
      }
      var elapsed: nat := if clock > 0 then clock else 0;
      if elapsed < lastElapsed {
        elapsed := lastElapsed;
      }
      if !fits {
        return false;
      }
      if !written {
        failed := true;
        return false;
      }
      records := records + [Record(nextSequence, elapsed, e)];
      log := log + [e];
      nextSequence, lastElapsed := nextSequence + 1, elapsed;
      if e.RunFinished? {
        finished := true;
      }
      return true;
    }

    // Checks that the producer wrote the terminal record; asked again, it gives the same answer.
    method Finalize() returns (ok: bool)
      requires Valid()
      modifies this`final, this`finalError
      ensures Valid() && final
      ensures old(final) ==> finalError == old(finalError)
      ensures !old(final) ==> finalError == (failed || !finished)
      ensures ok == !finalError
    {
      if !final {
        final, finalError := true, failed || !finished;
      }
      return !finalError;
    }
  }
}
