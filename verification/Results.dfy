/** What one run reports about each Media Object (internal/ingest/result_projection.go,
    internal/ingest/lifecycle.go). Results are a slice updated in place; setters touch the
    first entry with the given Object ID. */
module ObjectResults {

  datatype Disposition =
    | Planned | RegistrationIndeterminate | Registered | Ingested | Resumed
    | Rejected | Retracted | Stranded | Unattempted

  datatype Verification = NotRequested | NotReached | Verified | Failed

  datatype Method = NoMethod | Storage | Readback

  datatype ObjectResult = ObjectResult(
    objectId: string,
    disposition: Disposition,
    verification: Verification,
    verifiedBy: Method,
    reported: bool)

  // The slice as its readers see it: each ID stands for its first entry.
  ghost function ById(results: seq<ObjectResult>): map<string, ObjectResult> {
    if results == [] then map[] else ById(results[1..])[results[0].objectId := results[0]]
  }

  ghost predicate Distinct(results: seq<ObjectResult>) {
    forall j, k :: 0 <= j < k < |results| ==> results[j].objectId != results[k].objectId
  }

  ghost function WithDisposition(view: map<string, ObjectResult>, id: string, d: Disposition): map<string, ObjectResult> {
    if id in view then view[id := view[id].(disposition := d)] else view
  }

  ghost function WithVerification(view: map<string, ObjectResult>, id: string, v: Verification, m: Method): map<string, ObjectResult> {
    if id in view then view[id := view[id].(verification := v, verifiedBy := m)] else view
  }

  lemma {:induction false} AbsentFromView(results: seq<ObjectResult>, id: string)
    requires forall j :: 0 <= j < |results| ==> results[j].objectId != id
    ensures id !in ById(results)
  {
    if results != [] {
      AbsentFromView(results[1..], id);
    }
  }

  // Replacing the first entry of an ID by one with the same ID changes that ID's view and no other.
  lemma {:induction false} ReplaceFirst(results: seq<ObjectResult>, k: nat, r: ObjectResult)
    requires k < |results| && r.objectId == results[k].objectId
    requires forall j :: 0 <= j < k ==> results[j].objectId != r.objectId
    ensures r.objectId in ById(results) && ById(results)[r.objectId] == results[k]
    ensures ById(results[k := r]) == ById(results)[r.objectId := r]
  {
    var after := results[k := r];
    if k == 0 {
      assert after[1..] == results[1..];
    } else {
      assert after[1..] == results[1..][k - 1 := r];
      ReplaceFirst(results[1..], k - 1, r);
    }
  }

  method SetObjectDisposition(results: array<ObjectResult>, id: string, d: Disposition)
    modifies results
    ensures ById(results[..]) == WithDisposition(old(ById(results[..])), id, d)
    ensures old(Distinct(results[..])) ==> Distinct(results[..])
  {
    var k := 0;
    while k < results.Length
      invariant 0 <= k <= results.Length
      invariant forall j :: 0 <= j < k ==> results[j].objectId != id
      invariant results[..] == old(results[..])
    {
      if results[k].objectId == id {
        ReplaceFirst(results[..], k, results[k].(disposition := d));
        results[k] := results[k].(disposition := d);
        return;
      }
      k := k + 1;
    }
    AbsentFromView(results[..], id);
  }

  method SetObjectVerification(results: array<ObjectResult>, id: string, v: Verification, m: Method)
    modifies results
    ensures ById(results[..]) == WithVerification(old(ById(results[..])), id, v, m)
    ensures old(Distinct(results[..])) ==> Distinct(results[..])
  {
    var k := 0;
    while k < results.Length
      invariant 0 <= k <= results.Length
      invariant forall j :: 0 <= j < k ==> results[j].objectId != id
      invariant results[..] == old(results[..])
    {
      if results[k].objectId == id {
        ReplaceFirst(results[..], k, results[k].(verification := v, verifiedBy := m));
        results[k] := results[k].(verification := v, verifiedBy := m);
        return;
      }
      k := k + 1;
    }
    AbsentFromView(results[..], id);
  }
}
