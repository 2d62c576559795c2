/** The progress mailbox of an event stream: the latest snapshot of every input and phase, taken
    under its own lock by the flusher while reporters keep replacing them
    (internal/cli/ingest_events.go:271-308, internal/cli/ingest_event_progress.go). */
module EventMailbox {
  import opened EventProtocol

  datatype Work = Work(objects: int, bytes: int)

  datatype Snapshot = Snapshot(input: int, phase: Phase, completed: Work, total: Work, totalsFinal: bool, revision: nat) {
    predicate Hidden() { phase == VerifyPhase && !totalsFinal && completed == Work(0, 0) }
    predicate Complete() { totalsFinal && completed == total }
    function Record(): Event { ProgressSnapshot(input, phase, revision) }
  }

  datatype Accepted = Accepted(revision: nat, totalsFinal: bool)

  // The flusher's order; the phase breaks ties that one Tracker never produces.
  predicate Before(a: Snapshot, b: Snapshot) {
    a.input < b.input || (a.input == b.input &&
      (a.revision < b.revision || (a.revision == b.revision && a.phase == StorePhase && b.phase == VerifyPhase)))
  }

  // Strictly by input, then by revision.
  predicate Older(a: Snapshot, b: Snapshot) { a.input < b.input || (a.input == b.input && a.revision < b.revision) }

  ghost predicate Ascending(s: seq<Snapshot>) {
    forall j, k :: 0 <= j < k < |s| ==> Older(s[j], s[k])
  }

  // One of two snapshots of one input is newer.
  ghost predicate Apart(a: Snapshot, b: Snapshot) { a.input == b.input ==> a.revision != b.revision }

  method Place(s: seq<Snapshot>, x: Snapshot) returns (r: seq<Snapshot>)
    requires Ascending(s) && forall k :: 0 <= k < |s| ==> Apart(x, s[k])
    ensures Ascending(r)
    ensures forall y :: y in r <==> y in s || y == x
  {
    var at := 0;
    while at < |s| && Before(s[at], x)
      invariant 0 <= at <= |s|
      invariant forall j :: 0 <= j < at ==> Older(s[j], x)
    {
      at := at + 1;
    }
    if at < |s| {
      assert Older(x, s[at]);
      assert forall j :: at <= j < |s| ==> Older(x, s[j]);
    }
    r := s[..at] + [x] + s[at..];
    Inserted(s, at, x);
  }

  lemma Inserted(s: seq<Snapshot>, at: nat, x: Snapshot)
    requires at <= |s| && Ascending(s)
    requires forall j :: 0 <= j < at ==> Older(s[j], x)
    requires forall j :: at <= j < |s| ==> Older(x, s[j])
    ensures Ascending(s[..at] + [x] + s[at..])
    ensures forall y :: y in s[..at] + [x] + s[at..] <==> y in s || y == x
  {
    var r := s[..at] + [x] + s[at..];
    assert s == s[..at] + s[at..];
    forall j, k | 0 <= j < k < |r| ensures Older(r[j], r[k]) {
      if j < at && k > at { assert r[j] == s[j] && r[k] == s[k - 1]; }
    }
  }

  function At(revisions: map<int, nat>, i: int): nat { if i in revisions then revisions[i] else 0 }

  // What waits belongs to started inputs and is newer than everything taken before.
  ghost predicate Fresh(pending: map<(int, Phase), Snapshot>, started: set<int>, drained: map<int, nat>, delivered: map<int, nat>) {
    forall k :: k in pending ==>
      && pending[k].input == k.0 && pending[k].phase == k.1 && k.0 in started
      && At(drained, k.0) < pending[k].revision <= At(delivered, k.0)
  }

  ghost predicate AllApart(pending: map<(int, Phase), Snapshot>) {
    forall k, l :: k in pending && l in pending && k != l ==> Apart(pending[k], pending[l])
  }

  ghost predicate Sound(accepted: map<(int, Phase), Accepted>, pending: map<(int, Phase), Snapshot>, started: set<int>,
    drained: map<int, nat>, delivered: map<int, nat>)
  {
    && Fresh(pending, started, drained, delivered) && AllApart(pending)
    && (forall k :: k in accepted ==> accepted[k].revision <= At(delivered, k.0))
    && (forall i :: At(drained, i) <= At(delivered, i))
  }

  lemma Handed(accepted: map<(int, Phase), Accepted>, pending: map<(int, Phase), Snapshot>, started: set<int>,
    drained: map<int, nat>, delivered: map<int, nat>, s: Snapshot)
    requires Sound(accepted, pending, started, drained, delivered) && At(delivered, s.input) < s.revision
    ensures Sound(accepted, pending, started, drained, delivered[s.input := s.revision])
    ensures s.input in started ==>
      Sound(accepted[(s.input, s.phase) := Accepted(s.revision, s.totalsFinal)], pending[(s.input, s.phase) := s], started,
        drained, delivered[s.input := s.revision])
  {
    var key, more := (s.input, s.phase), pending[(s.input, s.phase) := s];
    forall k, l | k in more && l in more && k != l ensures Apart(more[k], more[l]) {
      if k != key && l != key { assert Apart(pending[k], pending[l]); }
    }
  }

  predicate Chosen(k: (int, Phase), all: bool, input: int) { all || k.0 == input }

  function Others(pending: map<(int, Phase), Snapshot>, all: bool, input: int): map<(int, Phase), Snapshot> {
    map k | k in pending && !Chosen(k, all, input) :: pending[k]
  }

  ghost function Drain(drained: map<int, nat>, delivered: map<int, nat>, all: bool, input: int): map<int, nat> {
    if all then delivered else drained[input := At(delivered, input)]
  }

  lemma KeepOthers(accepted: map<(int, Phase), Accepted>, pending: map<(int, Phase), Snapshot>, started: set<int>,
    drained: map<int, nat>, delivered: map<int, nat>, all: bool, input: int)
    requires Sound(accepted, pending, started, drained, delivered)
    ensures Sound(accepted, Others(pending, all, input), started, Drain(drained, delivered, all, input), delivered)
    ensures forall k :: k in pending && Chosen(k, all, input) ==> pending[k].revision <= At(Drain(drained, delivered, all, input), k.0)
    ensures forall i :: At(drained, i) <= At(Drain(drained, delivered, all, input), i)
  {
  }

  // The chosen snapshots, sorted; a map is visited in no particular order.
  method InOrder(pending: map<(int, Phase), Snapshot>, all: bool, input: int) returns (taken: seq<Snapshot>)
    requires AllApart(pending) && forall k :: k in pending ==> k == (pending[k].input, pending[k].phase)
    ensures Ascending(taken)
    ensures forall s :: s in taken ==> var k := (s.input, s.phase); k in pending && pending[k] == s && Chosen(k, all, input)
    ensures forall k :: k in pending && Chosen(k, all, input) ==> pending[k] in taken
  {
    var left := set k | k in pending && Chosen(k, all, input);
    taken := [];
    while left != {}
      invariant left <= pending.Keys && Ascending(taken)
      invariant forall j :: 0 <= j < |taken| ==> var k := (taken[j].input, taken[j].phase);
        k in pending && k !in left && pending[k] == taken[j] && Chosen(k, all, input)
      invariant forall k :: k in pending && Chosen(k, all, input) && k !in left ==> pending[k] in taken
    {
      var k :| k in left;
      forall j | 0 <= j < |taken| ensures Apart(pending[k], taken[j]) {
        assert (taken[j].input, taken[j].phase) != k;
      }
      var longer := Place(taken, pending[k]);
      forall j | 0 <= j < |longer| ensures longer[j] in taken || longer[j] == pending[k] {
        assert longer[j] in longer;
      }
      taken, left := longer, left - {k};
    }
  }

  class Mailbox {
    var accepted: map<(int, Phase), Accepted>
    var pending: map<(int, Phase), Snapshot>
    var started: set<int>
    var sealed: set<int>
    var stopped: bool
    var delivered: map<int, nat>      // the revision of each input's Tracker
    ghost var drained: map<int, nat>  // the same, when the input was last taken

    ghost predicate Valid()
      reads this
    {
      Sound(accepted, pending, started, drained, delivered)
    }

    constructor ()
      ensures Valid() && pending == map[] && started == {} && sealed == {} && !stopped && drained == map[] && delivered == map[]
    {
      accepted, pending, started, sealed, stopped := map[], map[], {}, {}, false;
      delivered, drained := map[], map[];
    }

    // Sampling drops a snapshot that comes too soon, unless it completes or seals its phase.
    predicate Sampled(s: Snapshot, recent: bool)
      reads this
    {
      (s.input, s.phase) in accepted && accepted[(s.input, s.phase)].revision > 0
      && !s.Complete() && !(s.totalsFinal && !accepted[(s.input, s.phase)].totalsFinal) && recent
    }

    predicate Open(i: int)
      reads this
    {
      !stopped && i !in sealed && i in started
    }

    /** An open input's snapshot takes the place of the one that waits, unless it shows no verification yet, or
        follows an accepted one too soon without completing its phase or sealing its totals.
        Trackers deliver under their own lock, so a revision here is always newer than the last. The
        stale-revision test of the code then never fires. */
    method Report(s: Snapshot, recent: bool)
      requires Valid() && At(delivered, s.input) < s.revision
      modifies this`accepted, this`pending, this`delivered
      ensures Valid() && delivered == old(delivered)[s.input := s.revision]
      ensures var key := (s.input, s.phase);
        if && old(!stopped && s.input in started && s.input !in sealed)
           && (s.phase == VerifyPhase ==> s.totalsFinal || s.completed != Work(0, 0))
           && (!recent || key !in old(accepted) || old(accepted)[key].revision == 0 || (s.totalsFinal && (s.completed == s.total || !old(accepted)[key].totalsFinal)))
        then pending == old(pending)[key := s] && accepted == old(accepted)[key := Accepted(s.revision, s.totalsFinal)]
        else pending == old(pending) && accepted == old(accepted)
    {
      Handed(accepted, pending, started, drained, delivered, s);
      delivered := delivered[s.input := s.revision];
      if s.Hidden() || !Open(s.input) || Sampled(s, recent) {
        return;
      }
      var key := (s.input, s.phase);
      if key in accepted && accepted[key].revision > 0 && s.revision > 0 && s.revision <= accepted[key].revision {
        return;
      }
      accepted := accepted[key := Accepted(s.revision, s.totalsFinal)];
      pending := pending[key := s];
    }

    // Nothing reaches a sealed input or a stopped mailbox, and nothing waiting disappears.
    twostate predicate OnlyReports()
      reads this
    {
      && started == old(started) && sealed == old(sealed) && stopped == old(stopped) && drained == old(drained)
      && (forall k :: k in old(pending) ==> k in pending)
      && (forall k :: k in pending && !Open(k.0) ==> k in old(pending))
    }

    // What waits is only ever replaced by something newer.
    twostate predicate Renewed()
      reads this`pending
    {
      forall k :: k in old(pending) ==> k in pending && pending[k].revision >= old(pending)[k].revision
    }

    // Any number of reports, on any inputs, while another lock is held.
    method Interference()
      requires Valid()
      modifies this`accepted, this`pending, this`delivered
      ensures Valid() && OnlyReports() && Renewed()
    {
      var reports: nat := *;
      while reports > 0
        invariant Valid() && OnlyReports() && Renewed()
      {
        var s: Snapshot := *;
        if At(delivered, s.input) < s.revision {
          var recent := *;
          Report(s, recent);
        }
        reports := reports - 1;
      }
    }

    method MarkStarted(i: int)
      requires Valid()
      modifies this`started
      ensures Valid() && started == old(started) + {i}
    {
      started := started + {i};
    }

    method Seal(inputs: set<int>)
      modifies this`sealed
      ensures sealed == old(sealed) + inputs
    {
      sealed := sealed + inputs;
    }

    method Stop()
      modifies this`stopped
      ensures stopped
    {
      stopped := true;
    }

    // Takes what waits, for all inputs or for one, in the order it is to be written.
    method Take(all: bool, input: int) returns (taken: seq<Snapshot>)
      requires Valid()
      modifies this`pending, this`drained
      ensures Valid() && Ascending(taken)
      ensures forall s :: s in taken <==> (var k := (s.input, s.phase); k in old(pending) && old(pending)[k] == s && Chosen(k, all, input))
      ensures pending == Others(old(pending), all, input) && drained == Drain(old(drained), delivered, all, input)
    {
      taken := InOrder(pending, all, input);
      KeepOthers(accepted, pending, started, drained, delivered, all, input);
      pending := Others(pending, all, input);
      drained := Drain(drained, delivered, all, input);
    }
  }
}
