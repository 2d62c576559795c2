/** Rewriting a Flow's metadata without losing what others wrote (internal/ingest/flow_graph.go:59-130,
    internal/ingest/flow_graph.go:284-377, internal/ingest/flow_profiles.go:184-268). */
module Metadata {
  import opened Text
  import opened JsonComparison

  type Flow = map<string, Json>

  const TAG_PREFIX := "_tamsin_"
  const SOURCES_TAG := "_tamsin_sources"
  const SOURCE_TAG := "_tamsin_source"
  const STRUCTURAL: set<string> := {"container", "flow_collection", "container_mapping"}
  const DESCRIPTIVE: set<string> := {"label", "description"}

  predicate Owned(tag: string) { TAG_PREFIX <= tag }

  // ---------- Provenance ----------

  function SourceIn(value: Json): set<string> {
    if value.String? && Trim(value.text) != "" then {Trim(value.text)} else {}
  }

  function SourcesFrom(items: seq<Json>): set<string> {
    if items == [] then {} else SourceIn(items[0]) + SourcesFrom(items[1..])
  }

  // A source tag holds one text or a list of them.
  function Sources(value: Json): set<string> {
    match value
    case Array(items) => SourcesFrom(items)
    case _ => SourceIn(value)
  }

  method CollectProvenanceSources(destination: set<string>, value: Json) returns (collected: set<string>)
    ensures collected == destination + Sources(value)
  {
    collected := destination;
    match value
    case String(text) =>
      if Trim(text) != "" {
        collected := collected + {Trim(text)};
      }
    case Array(items) =>
      var k := 0;
      while k < |items|
        invariant 0 <= k <= |items| && collected + SourcesFrom(items[k..]) == destination + SourcesFrom(items)
      {
        assert items[k..][1..] == items[k + 1..];
        if items[k].String? && Trim(items[k].text) != "" {
          collected := collected + {Trim(items[k].text)};
        }
        k := k + 1;
      }
    case _ =>
  }

  function TagSources(tags: map<string, Json>, name: string): set<string> { if name in tags then Sources(tags[name]) else {} }

  function AllSources(tags: map<string, Json>): set<string> { TagSources(tags, SOURCES_TAG) + TagSources(tags, SOURCE_TAG) }

  ghost function Listed(sources: seq<string>): seq<Json> {
    if sources == [] then [] else [String(sources[0])] + Listed(sources[1..])
  }

  lemma {:induction false} TrimTwice(s: string)
    ensures Trim(Trim(s)) == Trim(s)
  {
    LeftTight(s);
    RightTight(TrimLeft(s));
    TrimTight(Trim(s));
  }

  lemma {:induction false} LeftTight(s: string)
    ensures TrimLeft(s) != "" ==> !IsSpace(TrimLeft(s)[0])
  {
    if s != "" && IsSpace(s[0]) {
      LeftTight(s[1..]);
    }
  }

  lemma {:induction false} RightTight(s: string)
    ensures TrimRight(s) != "" ==> TrimRight(s)[0] == s[0] && !IsSpace(TrimRight(s)[|TrimRight(s)| - 1])
  {
    if s != "" && IsSpace(s[|s| - 1]) {
      RightTight(s[..|s| - 1]);
    }
  }

  ghost predicate Trimmed(sources: set<string>) { forall s :: s in sources ==> s != "" && Trim(s) == s }

  lemma {:induction false} SourcesTrimmed(items: seq<Json>)
    ensures Trimmed(SourcesFrom(items))
  {
    if items != [] {
      SourcesTrimmed(items[1..]);
      if items[0].String? {
        TrimTwice(items[0].text);
      }
    }
  }

  lemma AllTrimmed(tags: map<string, Json>)
    ensures Trimmed(AllSources(tags))
  {
    forall name: string ensures Trimmed(TagSources(tags, name)) {
      if name in tags {
        match tags[name]
        case Array(items) => SourcesTrimmed(items);
        case String(text) => TrimTwice(text);
        case _ =>
      }
    }
  }

  lemma {:induction false} ListedSources(sources: seq<string>)
    requires forall k :: 0 <= k < |sources| ==> sources[k] != "" && Trim(sources[k]) == sources[k]
    ensures SourcesFrom(Listed(sources)) == set s | s in sources
  {
    if sources != [] {
      ListedSources(sources[1..]);
      assert Listed(sources)[1..] == Listed(sources[1..]);
      assert forall s :: s in sources <==> s == sources[0] || s in sources[1..];
    }
  }

  // The sources in one order, whichever run added which.
  ghost function SourceList(sources: set<string>): Json { Array(Listed(SortedKeys(sources))) }

  lemma SourceListBack(sources: set<string>)
    requires Trimmed(sources)
    ensures Sources(SourceList(sources)) == sources
  {
    SortedKeysOf(sources);
    forall k | 0 <= k < |SortedKeys(sources)| ensures SortedKeys(sources)[k] in sources {
      assert SortedKeys(sources)[k] in SortedKeys(sources);
    }
    ListedSources(SortedKeys(sources));
  }

  // ---------- Tags ----------

  function Foreign(tags: map<string, Json>): map<string, Json> { map k | k in tags && !Owned(k) :: tags[k] }

  ghost function MergeTags(existing: map<string, Json>, generated: map<string, Json>): map<string, Json> {
    var sources := AllSources(existing) + AllSources(generated);
    var tags := (Foreign(existing) + generated) - {SOURCE_TAG};
    if sources == {} then tags else tags[SOURCES_TAG := SourceList(sources)]
  }

  lemma MergedTag(existing: map<string, Json>, generated: map<string, Json>, name: string)
    requires name != SOURCES_TAG && name != SOURCE_TAG
    ensures var tags := MergeTags(existing, generated);
      && (name in generated ==> name in tags && tags[name] == generated[name])
      && (name !in generated && !Owned(name) && name in existing ==> name in tags && tags[name] == existing[name])
      && (name !in generated && (Owned(name) || name !in existing) ==> name !in tags)
  {
  }

  lemma MergedSources(existing: map<string, Json>, generated: map<string, Json>)
    ensures AllSources(MergeTags(existing, generated)) == AllSources(existing) + AllSources(generated)
  {
    var sources := AllSources(existing) + AllSources(generated);
    AllTrimmed(existing);
    AllTrimmed(generated);
    assert Owned(SOURCES_TAG) && Owned(SOURCE_TAG);
    if sources == {} {
      assert MergeTags(existing, generated) == (Foreign(existing) + generated) - {SOURCE_TAG};
    } else {
      SourceListBack(sources);
    }
  }

  lemma MergeTagsTwice(existing: map<string, Json>, generated: map<string, Json>)
    ensures MergeTags(MergeTags(existing, generated), generated) == MergeTags(existing, generated)
  {
    var once := MergeTags(existing, generated);
    var twice := MergeTags(once, generated);
    MergedSources(existing, generated);
    assert AllSources(once) + AllSources(generated) == AllSources(existing) + AllSources(generated);
    assert Owned(SOURCES_TAG) && Owned(SOURCE_TAG);
    forall k: string
      ensures k in once <==> k in twice
      ensures k in once ==> once[k] == twice[k]
    {
      if k != SOURCES_TAG && k != SOURCE_TAG {
        MergedTag(existing, generated, k);
        MergedTag(once, generated, k);
      }
    }
    assert once == twice;
  }

  // ---------- Flows ----------

  function Get(flow: Flow, k: string): Option<Json> { if k in flow then Some(flow[k]) else None }

  predicate HasTags(flow: Flow) { "tags" in flow && flow["tags"].Object? }

  function TagsOf(flow: Flow): map<string, Json> { if HasTags(flow) then flow["tags"].members else map[] }

  // Everything but the tags.
  function Overlay(existing: Flow, generated: Flow, overrides: set<string>): Flow {
    (existing - (STRUCTURAL - generated.Keys)) + generated
      + (map k | k in DESCRIPTIVE && k !in overrides && k in existing :: existing[k])
  }

  // preserveForeignMetadata.
  ghost function Preserve(existing: Flow, generated: Flow, overrides: set<string>): Flow {
    var merged := Overlay(existing, generated, overrides);
    if HasTags(existing) then merged["tags" := Object(MergeTags(TagsOf(existing), TagsOf(generated)))] else merged
  }

  /** The structural fields follow this run alone, every field it does not generate is kept, a description is
      changed only on request, and everything else it generates replaces what was there. */
  lemma FieldsKept(existing: Flow, generated: Flow, overrides: set<string>, k: string)
    requires k != "tags"
    ensures var merged := Preserve(existing, generated, overrides);
      && (k in {"container", "flow_collection", "container_mapping"} ==> (k in merged <==> k in generated) && (k in generated ==> merged[k] == generated[k]))
      && (k !in {"container", "flow_collection", "container_mapping"} && k !in generated ==> (k in merged <==> k in existing) && (k in existing ==> merged[k] == existing[k]))
      && (k in {"label", "description"} && k !in overrides && k in existing ==> k in merged && merged[k] == existing[k])
      && (k in generated && !(k in {"label", "description"} && k !in overrides && k in existing) ==> k in merged && merged[k] == generated[k])
  {
  }

  /** Where the stored Flow has tags: one that is not Tamsin's is kept unless this run sets it; one that this
      run sets is as it says; and one under Tamsin's prefix that it does not set is gone, apart from the
      collected sources. */
  lemma TagsKept(existing: Flow, generated: Flow, overrides: set<string>, name: string)
    requires HasTags(existing) && name != "_tamsin_sources" && name != "_tamsin_source"
    ensures var merged := Preserve(existing, generated, overrides); var stored, ours, tags := TagsOf(existing), TagsOf(generated), TagsOf(merged);
      && HasTags(merged)
      && (name in ours ==> Get(tags, name) == Some(ours[name]))
      && (name !in ours && !("_tamsin_" <= name) ==> Get(tags, name) == Get(stored, name))
      && (name !in ours && "_tamsin_" <= name ==> name !in tags)
  {
    MergedTag(TagsOf(existing), TagsOf(generated), name);
  }

  // A tag value names a source: as its text or as one of its items, blanks around it aside.
  ghost predicate Names(value: Json, source: string) {
    && source != ""
    && ((value.String? && Trim(value.text) == source)
        || (value.Array? && exists k :: 0 <= k < |value.items| && value.items[k].String? && Trim(value.items[k].text) == source))
  }

  // The tags of a Flow name a source, singly or in the list.
  ghost predicate Credits(tags: map<string, Json>, source: string) {
    || ("_tamsin_source" in tags && Names(tags["_tamsin_source"], source))
    || ("_tamsin_sources" in tags && Names(tags["_tamsin_sources"], source))
  }

  lemma {:induction false} ItemsName(items: seq<Json>, source: string)
    ensures source in SourcesFrom(items) <==> Names(Array(items), source)
  {
    if items != [] {
      ItemsName(items[1..], source);
      assert forall k :: 1 <= k < |items| ==> items[k] == items[1..][k - 1];
      assert forall k :: 0 <= k < |items[1..]| ==> items[1..][k] == items[k + 1];
    }
  }

  lemma SourcesName(tags: map<string, Json>, source: string)
    ensures source in AllSources(tags) <==> Credits(tags, source)
  {
    forall name | name in tags && tags[name].Array? ensures source in SourcesFrom(tags[name].items) <==> Names(tags[name], source) {
      ItemsName(tags[name].items, source);
    }
  }

  /** A rewrite credits exactly the sources that the stored Flow or this run credits, and lists them, each once
      and in order. */
  lemma CreditsKept(existing: Flow, generated: Flow, overrides: set<string>, source: string)
    requires HasTags(existing)
    ensures var tags := TagsOf(Preserve(existing, generated, overrides));
      && (Credits(tags, source) <==> Credits(TagsOf(existing), source) || Credits(TagsOf(generated), source))
      && (Credits(tags, source) ==> exists list :: Ascending(list) && source in list && tags["_tamsin_sources"] == Array(Texts(list)))
  {
    SourcesUnion(existing, generated, overrides);
    SourcesName(TagsOf(existing), source);
    SourcesName(TagsOf(generated), source);
    SourcesName(TagsOf(Preserve(existing, generated, overrides)), source);
    var sources := AllSources(TagsOf(existing)) + AllSources(TagsOf(generated));
    SortedKeysOf(sources);
    ListedTexts(SortedKeys(sources));
  }

  function Texts(list: seq<string>): seq<Json> { seq(|list|, k requires 0 <= k < |list| => String(list[k])) }

  lemma {:induction false} ListedTexts(sources: seq<string>)
    ensures Listed(sources) == Texts(sources)
  {
    if sources != [] {
      ListedTexts(sources[1..]);
    }
  }

  /** Sources only accumulate: where the stored Flow has tags, a rewrite lists exactly the sources that either
      side named, in either form, and names none singly. */
  lemma SourcesUnion(existing: Flow, generated: Flow, overrides: set<string>)
    requires HasTags(existing)
    ensures var merged := Preserve(existing, generated, overrides);
      && AllSources(TagsOf(merged)) == AllSources(TagsOf(existing)) + AllSources(TagsOf(generated))
      && SOURCE_TAG !in TagsOf(merged)
  {
    MergedSources(TagsOf(existing), TagsOf(generated));
    assert SOURCE_TAG != SOURCES_TAG;
  }

  /** Without tags in the stored Flow the generated ones are taken as they are. */
  lemma TagsNew(existing: Flow, generated: Flow, overrides: set<string>)
    requires !HasTags(existing)
    ensures var merged := Preserve(existing, generated, overrides);
      && TagsOf(merged) == TagsOf(generated)
      && ("tags" in generated ==> Get(merged, "tags") == Some(generated["tags"]))
  {
  }

  // Runs may come in any order.
  lemma SourcesCommute(existing: Flow, a: Flow, b: Flow, overrides: set<string>)
    requires HasTags(existing)
    ensures AllSources(TagsOf(Preserve(Preserve(existing, a, overrides), b, overrides)))
        == AllSources(TagsOf(Preserve(Preserve(existing, b, overrides), a, overrides)))
  {
    SourcesUnion(existing, a, overrides);
    SourcesUnion(existing, b, overrides);
    SourcesUnion(Preserve(existing, a, overrides), b, overrides);
    SourcesUnion(Preserve(existing, b, overrides), a, overrides);
  }

  // Tags the first re-plan leaves alone: no source on its own, and the list as it would be written.
  ghost predicate Settled(tags: map<string, Json>) {
    SOURCE_TAG !in tags && (AllSources(tags) == {} || (SOURCES_TAG in tags && tags[SOURCES_TAG] == SourceList(AllSources(tags))))
  }

  lemma SettledMerge(tags: map<string, Json>)
    ensures MergeTags(tags, tags) == tags <==> Settled(tags)
  {
    var rest := tags - {SOURCE_TAG};
    assert (Foreign(tags) + tags) - {SOURCE_TAG} == rest && AllSources(tags) + AllSources(tags) == AllSources(tags);
    assert SOURCE_TAG !in MergeTags(tags, tags) by { assert SOURCE_TAG != SOURCES_TAG; }
    if SOURCE_TAG !in tags {
      assert rest == tags;
      if SOURCES_TAG in tags && tags[SOURCES_TAG] == SourceList(AllSources(tags)) {
        assert tags[SOURCES_TAG := SourceList(AllSources(tags))] == tags;
      }
    }
  }

  // What the first plan leaves under tags, and when that is what the second would write.
  lemma TagsTwice(existing: Flow, generated: Flow, overrides: set<string>)
    ensures var once := Preserve(existing, generated, overrides);
      Get(Preserve(once, generated, overrides), "tags") == Get(once, "tags") <==>
        HasTags(existing) || !HasTags(generated) || Settled(TagsOf(generated))
  {
    if HasTags(existing) {
      MergeTagsTwice(TagsOf(existing), TagsOf(generated));
    } else if HasTags(generated) {
      SettledMerge(TagsOf(generated));
    }
  }

  /** Planning the same write again changes nothing exactly when the stored Flow already had tags, this run
      generates none, or the ones it generates are settled. */
  lemma Idempotent(existing: Flow, generated: Flow, overrides: set<string>)
    ensures Preserve(Preserve(existing, generated, overrides), generated, overrides) == Preserve(existing, generated, overrides)
        <==> HasTags(existing) || !HasTags(generated) || Settled(TagsOf(generated))
  {
    var once := Preserve(existing, generated, overrides);
    var twice := Preserve(once, generated, overrides);
    TagsTwice(existing, generated, overrides);
    forall k: string | k != "tags" ensures Get(twice, k) == Get(once, k) {
      FieldsKept(existing, generated, overrides, k);
      FieldsKept(once, generated, overrides, k);
    }
    SameFields(once, twice);
  }

  lemma SameFields(a: Flow, b: Flow)
    ensures a == b <==> forall k :: Get(a, k) == Get(b, k)
  {
    if forall k :: Get(a, k) == Get(b, k) {
      forall k: string ensures (k in a <==> k in b) && (k in a ==> a[k] == b[k]) {
        assert Get(a, k) == Get(b, k);
      }
      assert a == b;
    }
  }

  /** Without tags the first plan can still be rewritten by the second: a single source becomes a list. */
  lemma FirstPlanNotStable()
    ensures var generated: Flow := map["tags" := Object(map[SOURCE_TAG := String("a")])];
      Preserve(Preserve(map[], generated, {}), generated, {}) != Preserve(map[], generated, {})
  {
    var generated: Flow := map["tags" := Object(map[SOURCE_TAG := String("a")])];
    var once := Preserve(map[], generated, {});
    assert once["tags"] == generated["tags"];
    assert SOURCE_TAG in TagsOf(once);
    assert SOURCE_TAG !in MergeTags(TagsOf(once), TagsOf(generated)) by { assert SOURCES_TAG != SOURCE_TAG; }
  }

  // ---------- Flow Profiles ----------

  const TECHNICAL: set<string> := {"format", "codec", "container", "avg_bit_rate", "segment_duration", "container_mapping", "essence_parameters"}

  // The comparison of one field that expandFlowProfile makes.
  ghost predicate FieldMatches(flow: Flow, profile: Flow, k: string) {
    match (Get(flow, k), Get(profile, k))
    case (Some(a), Some(b)) => FirstMismatch("", a, b) == None
    case (None, None) => true
    case _ => false
  }

  ghost predicate Matches(flow: Flow, profile: Flow) { forall k :: k in TECHNICAL && k != "avg_bit_rate" ==> FieldMatches(flow, profile, k) }

  function Expand(flow: Flow, profile: Flow, profileID: string): Flow { (flow + profile)["profile_id" := String(profileID)] }

  function PutProjection(effective: Flow, profileID: string): Flow {
    if profileID == "" then effective else (effective - TECHNICAL)["profile_id" := String(profileID)]
  }

  /** For a Flow that matches its Profile, the server's expansion of the reduced PUT gives back every
      technical field exactly as generated, except possibly the average bit rate, which is the Profile's
      if it names one and absent otherwise. */
  lemma ProjectionRestores(flow: Flow, profile: Flow, profileID: string, k: string)
    requires Matches(flow, profile) && profileID != ""
    requires k in {"format", "codec", "container", "avg_bit_rate", "segment_duration", "container_mapping", "essence_parameters"}
    ensures var restored := Expand(PutProjection(Expand(flow, profile, profileID), profileID), profile, profileID);
      if k == "avg_bit_rate" then Get(restored, k) == Get(profile, k) else Get(restored, k) == Get(flow, k)
  {
    if k != "avg_bit_rate" {
      assert FieldMatches(flow, profile, k);
      if k in flow && k in profile {
        NoMismatchIffEqual("", flow[k], profile[k]);
      }
    }
  }

  // ---------- Planning one write ----------

  const REVISION_TAG := "_tamsin_input_revision"
  const GUARDED: set<string> := {"format", "codec", "container", "essence_parameters", "segment_duration"}

  // What the store answers when the Flow is read.
  datatype Reply = Found(flow: Flow) | Missing | Unreadable

  datatype Refusal = CannotRead | FromStagedInput | FromStreamedInput | OtherRevision | OtherMetadata | OtherSource | OtherProfile

  datatype Plan = Refused(why: Refusal) | Planned(effective: Flow, request: Flow, existed: bool, changed: bool)

  function StringField(flow: Flow, k: string): string { if k in flow && flow[k].String? then Trim(flow[k].text) else "" }

  function Parameters(flow: Flow): map<string, Json> {
    if "essence_parameters" in flow && flow["essence_parameters"].Object? then flow["essence_parameters"].members else map[]
  }

  // The stored Flow as the reuse guard sees it: without a vfr=false that the service added.
  function Comparable(existing: Flow, generated: Flow): Flow {
    var stored, ours := Parameters(existing), Parameters(generated);
    if "vfr" !in ours && Get(stored, "vfr") == Some(Bool(false)) && "frame_rate" in ours && ours["frame_rate"] != Null
    then existing["essence_parameters" := Object(stored - {"vfr"})]
    else existing
  }

  ghost predicate SameMedia(existing: Flow, generated: Flow) {
    forall k :: k in GUARDED ==> FieldMatches(Comparable(existing, generated), generated, k)
  }

  // The same JSON value on both sides, or none on either.
  ghost predicate Alike(a: Option<Json>, b: Option<Json>) { a == b && (a.Some? ==> Clean(a.value)) }

  /** Apart from a vfr=false that the service may have added to its essence parameters, the stored Flow must
      agree in each of the fields that describe the media. */
  lemma {:induction false} SameMediaExactly(existing: Flow, generated: Flow)
    ensures SameMedia(existing, generated) <==>
      && (forall k :: k in {"format", "codec", "container", "segment_duration"} ==> Alike(Get(existing, k), Get(generated, k)))
      && Alike(if ServiceAddedVfr(existing, generated) then Some(Object(existing["essence_parameters"].members - {"vfr"})) else Get(existing, "essence_parameters"),
               Get(generated, "essence_parameters"))
  {
    var stored := Comparable(existing, generated);
    forall k ensures FieldMatches(stored, generated, k) <==> Alike(Get(stored, k), Get(generated, k)) {
      if k in stored && k in generated {
        NoMismatchIffEqual("", stored[k], generated[k]);
      }
    }
    forall k ensures k != "essence_parameters" ==> Get(stored, k) == Get(existing, k) {
    }
  }

  // The service states vfr=false where this run states a frame rate and says nothing of vfr.
  ghost predicate ServiceAddedVfr(existing: Flow, generated: Flow) {
    && "essence_parameters" in existing && existing["essence_parameters"].Object?
    && "essence_parameters" in generated && generated["essence_parameters"].Object?
    && var stored, ours := existing["essence_parameters"].members, generated["essence_parameters"].members;
       "vfr" in stored && stored["vfr"] == Bool(false) && "vfr" !in ours && "frame_rate" in ours && ours["frame_rate"] != Null
  }

  // The Flows that must not be replaced by this run.
  ghost function Refuses(existing: Flow, generated: Flow, profileID: string): Option<Refusal> {
    var stored, ours := StringField(TagsOf(existing), REVISION_TAG), StringField(TagsOf(generated), REVISION_TAG);
    if stored != ours then Some(if stored == "" then FromStagedInput else if ours == "" then FromStreamedInput else OtherRevision)
    else if ours != "" && !SameMedia(existing, generated) then Some(OtherMetadata)
    else if StringField(existing, "source_id") != StringField(generated, "source_id") then Some(OtherSource)
    else if StringField(existing, "profile_id") != profileID then Some(OtherProfile)
    else None
  }

  ghost function PlanFlowWrite(dryRun: bool, reply: Reply, generated: Flow, profileID: string, overrides: set<string>): Plan {
    var creation := Planned(generated, PutProjection(generated, profileID), false, true);
    if dryRun then creation
    else match reply
      case Missing => creation
      case Unreadable => Refused(CannotRead)
      case Found(existing) =>
        var refusal := Refuses(existing, generated, profileID);
        if refusal.Some? then Refused(refusal.value)
        else
          var effective := Preserve(existing, generated, overrides);
          Planned(effective, PutProjection(effective, profileID), true, FirstMismatch("", Object(effective), Object(existing)) != None)
  }

  lemma ProjectionCarries(effective: Flow, profileID: string, k: string)
    ensures Get(PutProjection(effective, profileID), k) ==
      (if profileID == "" then Get(effective, k)
       else if k == "profile_id" then Some(String(profileID))
       else if k in TECHNICAL then None
       else Get(effective, k))
  {
  }

  /** What is sent for a stored Flow is the merged Flow itself or, with a Profile, the merged Flow without the
      fields the Profile settles and with its identity. */
  lemma RequestCarries(existing: Flow, generated: Flow, profileID: string, overrides: set<string>, k: string)
    requires PlanFlowWrite(false, Found(existing), generated, profileID, overrides).Planned?
    ensures var plan := PlanFlowWrite(false, Found(existing), generated, profileID, overrides); var merged := Preserve(existing, generated, overrides);
      && plan.effective == merged && plan.existed
      && Get(plan.request, k) ==
         (if profileID == "" then Get(merged, k)
          else if k == "profile_id" then Some(String(profileID))
          else if k in TECHNICAL then None
          else Get(merged, k))
      && TagsOf(plan.request) == TagsOf(merged)
  {
    var merged := Preserve(existing, generated, overrides);
    ProjectionCarries(merged, profileID, k);
    ProjectionCarries(merged, profileID, "tags");
  }

  /** What is sent for a Flow that is not in the store, or in a dry run, says the same of the generated one. */
  lemma CreationCarries(dryRun: bool, reply: Reply, generated: Flow, profileID: string, overrides: set<string>, k: string)
    requires dryRun || reply == Missing
    ensures var plan := PlanFlowWrite(dryRun, reply, generated, profileID, overrides);
      && plan == Planned(generated, plan.request, false, true)
      && Get(plan.request, k) ==
         (if profileID == "" then Get(generated, k)
          else if k == "profile_id" then Some(String(profileID))
          else if k in TECHNICAL then None
          else Get(generated, k))
  {
    ProjectionCarries(generated, profileID, k);
  }

  // A Flow that names a Profile names the one assigned to it.
  predicate NamesProfile(generated: Flow, profileID: string) {
    "profile_id" in generated ==> StringField(generated, "profile_id") == profileID
  }

  lemma RevisionKept(existing: Flow, generated: Flow, overrides: set<string>)
    ensures StringField(TagsOf(existing), REVISION_TAG) == StringField(TagsOf(generated), REVISION_TAG) ==>
      StringField(TagsOf(Preserve(existing, generated, overrides)), REVISION_TAG) == StringField(TagsOf(generated), REVISION_TAG)
  {
    if HasTags(existing) {
      TagsKept(existing, generated, overrides, REVISION_TAG);
    }
  }

  lemma MediaKept(existing: Flow, generated: Flow, overrides: set<string>)
    requires SameMedia(existing, generated) && Clean(Object(Preserve(existing, generated, overrides)))
    ensures SameMedia(Preserve(existing, generated, overrides), generated)
  {
    var once := Preserve(existing, generated, overrides);
    forall k | k in GUARDED ensures k !in DESCRIPTIVE && k != "tags" && Get(once, k) == Get(generated, k) {
      assert FieldMatches(Comparable(existing, generated), generated, k);
      FieldsKept(existing, generated, overrides, k);
    }
    assert "essence_parameters" in GUARDED && Parameters(once) == Parameters(generated);
    forall k | k in GUARDED ensures FieldMatches(once, generated, k) {
      if k in generated {
        NoMismatchIffEqual("", once[k], generated[k]);
      }
    }
  }

  lemma NotRefused(existing: Flow, generated: Flow, profileID: string, overrides: set<string>)
    requires Refuses(existing, generated, profileID) == None && NamesProfile(generated, profileID)
    requires Clean(Object(Preserve(existing, generated, overrides)))
    ensures Refuses(Preserve(existing, generated, overrides), generated, profileID) == None
  {
    RevisionKept(existing, generated, overrides);
    if StringField(TagsOf(generated), REVISION_TAG) != "" {
      MediaKept(existing, generated, overrides);
    }
    FieldsKept(existing, generated, overrides, "source_id");
    FieldsKept(existing, generated, overrides, "profile_id");
  }

  // The Flows agree on what this run may not change.
  ghost predicate SameIdentity(existing: Flow, generated: Flow, profileID: string) {
    && StringField(TagsOf(existing), REVISION_TAG) == StringField(TagsOf(generated), REVISION_TAG)
    && (StringField(TagsOf(generated), REVISION_TAG) != "" ==> SameMedia(existing, generated))
    && StringField(existing, "source_id") == StringField(generated, "source_id")
    && StringField(existing, "profile_id") == profileID
  }

  /** A stored Flow is replaced exactly by a run that agrees with it on its input revision, for streamed inputs
      its media, its Source and its Profile; and the write is called a change exactly when it is one. */
  lemma PlannedExactly(existing: Flow, generated: Flow, profileID: string, overrides: set<string>)
    ensures var plan := PlanFlowWrite(false, Found(existing), generated, profileID, overrides);
      && (plan.Planned? <==> SameIdentity(existing, generated, profileID))
      && var stored, ours := StringField(TagsOf(existing), REVISION_TAG), StringField(TagsOf(generated), REVISION_TAG);
      && (plan == Refused(FromStagedInput) <==> stored == "" && ours != "")
      && (plan == Refused(FromStreamedInput) <==> stored != "" && ours == "")
      && (plan == Refused(OtherRevision) <==> stored != "" && ours != "" && stored != ours)
      && (plan == Refused(OtherMetadata) <==> stored == ours != "" && !SameMedia(existing, generated))
      && (plan == Refused(OtherSource) ==> StringField(existing, "source_id") != StringField(generated, "source_id"))
      && (plan == Refused(OtherProfile) ==> StringField(existing, "profile_id") != profileID)
      && plan != Refused(CannotRead)
      && (plan.Planned? ==> (!plan.changed <==> plan.effective == existing && Clean(Object(existing))))
  {
    NoMismatchIffEqual("", Object(Preserve(existing, generated, overrides)), Object(existing));
  }

  /** A replaced Flow keeps its input revision, its Source and its Profile. */
  lemma IdentityKept(existing: Flow, generated: Flow, profileID: string, overrides: set<string>)
    requires PlanFlowWrite(false, Found(existing), generated, profileID, overrides).Planned? && NamesProfile(generated, profileID)
    ensures var effective := PlanFlowWrite(false, Found(existing), generated, profileID, overrides).effective;
      && StringField(TagsOf(effective), REVISION_TAG) == StringField(TagsOf(existing), REVISION_TAG)
      && StringField(effective, "source_id") == StringField(existing, "source_id")
      && StringField(effective, "profile_id") == StringField(existing, "profile_id")
  {
    RevisionKept(existing, generated, overrides);
    FieldsKept(existing, generated, overrides, "source_id");
    FieldsKept(existing, generated, overrides, "profile_id");
  }

  /** A write that was planned against a stored Flow and made is, planned again, neither refused nor made a
      second time exactly when it holds no malformed number and its tags have settled. */
  lemma ReplanUnchanged(existing: Flow, generated: Flow, profileID: string, overrides: set<string>)
    requires PlanFlowWrite(false, Found(existing), generated, profileID, overrides).Planned? && NamesProfile(generated, profileID)
    ensures var written := PlanFlowWrite(false, Found(existing), generated, profileID, overrides).effective;
            var again := PlanFlowWrite(false, Found(written), generated, profileID, overrides);
      again.Planned? && !again.changed <==>
        Clean(Object(written)) && (HasTags(existing) || !HasTags(generated) || Settled(TagsOf(generated)))
  {
    var written := Preserve(existing, generated, overrides);
    Idempotent(existing, generated, overrides);
    NoMismatchIffEqual("", Object(Preserve(written, generated, overrides)), Object(written));
    if Clean(Object(written)) {
      NotRefused(existing, generated, profileID, overrides);
    }
  }

  lemma OwnFlowAccepted(generated: Flow, profileID: string)
    requires Clean(Object(generated)) && StringField(generated, "profile_id") == profileID
    ensures Refuses(generated, generated, profileID) == None
  {
    assert Comparable(generated, generated) == generated;
    forall k | k in GUARDED ensures FieldMatches(generated, generated, k) {
      if k in generated {
        NoMismatchIffEqual("", generated[k], generated[k]);
      }
    }
  }

  /** The same for a Flow this run created: its first re-plan leaves it alone exactly when it is clean, its
      Profile is the one assigned and its tags are settled. */
  lemma ReplanAfterCreation(generated: Flow, profileID: string, overrides: set<string>)
    ensures var written := PlanFlowWrite(false, Missing, generated, profileID, overrides).effective;
            var again := PlanFlowWrite(false, Found(written), generated, profileID, overrides);
      again.Planned? && !again.changed <==>
        Clean(Object(generated)) && StringField(generated, "profile_id") == profileID && (!HasTags(generated) || Settled(TagsOf(generated)))
  {
    assert Preserve(map[], generated, overrides) == generated;
    Idempotent(map[], generated, overrides);
    NoMismatchIffEqual("", Object(Preserve(generated, generated, overrides)), Object(generated));
    if Clean(Object(generated)) && StringField(generated, "profile_id") == profileID {
      OwnFlowAccepted(generated, profileID);
    }
  }
}
