/** The findings of a report and the verdict that rests on them. */
module Verdicts {
  import opened Tables
  import opened Coalescing
  import opened Conservation
  import C2Bundle
  import H = Handlers

  datatype PlatformFinding = PlatformFinding(
    windows: bool, id: string, stage: string, kind: string, confidence: string, summary: string, details: map<string, Json>)

  /** A persisted C2 finding; the members of its details that are read by name have fields of their own. */
  datatype C2Finding = C2Finding(
    id: string, stage: string, android: bool, kind: string, confidence: string, plain: string, caveat: Option<string>,
    timestamp: Option<string>, domain: Option<string>, ip: Option<string>, port: Option<int>, protocol: Option<string>,
    count: Option<int>, observed: set<string>, refs: seq<Ref>, ids: set<string>, details: map<string, Json>)

  const NOT_SAMPLE := "network_process_not_sample"
  const UNATTRIBUTED := "network_process_unattributed"

  predicate Lineage(refs: seq<Ref>) {
    exists r :: r in refs && r.Entry? && "sample_lineage" in r.fields && r.fields["sample_lineage"] == Bool(true)
  }

  /** `_c2_lacks_sample_process`. */
  predicate LacksSampleProcess(item: C2Finding) {
    if item.kind == "static_ioc" then false
    else if item.caveat == Some(NOT_SAMPLE) || item.caveat == Some(UNATTRIBUTED) then true
    else item.kind == "dns" && !Lineage(item.refs)
  }

  function EffectiveConfidence(item: C2Finding): string {
    if !LacksSampleProcess(item) || item.confidence == "allowlisted" then item.confidence else "weak"
  }

  function AsList(caveat: Option<string>): seq<string> { if C2Bundle.Truthy(caveat) then [caveat.value] else [] }

  function PlatformRow(f: PlatformFinding, artifacts: set<string>): RowData {
    RowData(if f.windows then "windows" else "android", f.kind, true, f.id, f.confidence, f.details, f.stage,
            None, None, None, None, None, [], Some(f.summary), None, {}, [], {}, artifacts, NO_MEMBERS)
  }

  /** What the report says of a C2 finding. */
  function ShownText(item: C2Finding): string {
    var destination := C2Bundle.TextOr(item.domain, C2Bundle.TextOr(item.ip, "an unidentified destination"));
    if item.android && (item.kind == "exfil" || (item.kind == "correlation" && item.caveat != Some(C2Bundle.TEMPORAL_ONLY))) then
      "Potential outbound transfer behavior was observed, but no Android data item attribution was established."
    else if LacksSampleProcess(item) then
      "Network activity involving " + destination + " was observed without sample-process attribution; "
      + "it is not attributed to this sample's C2 or exfiltration behavior."
    else item.plain
  }

  function ShownCaveats(item: C2Finding): seq<string> {
    AsList(if LacksSampleProcess(item) && !C2Bundle.Truthy(item.caveat) then Some(UNATTRIBUTED) else item.caveat)
  }

  function C2Row(item: C2Finding, artifacts: set<string>): RowData {
    RowData("c2", if LacksSampleProcess(item) then "network_observation" else item.kind, true, item.id, EffectiveConfidence(item),
            item.details, item.stage, item.timestamp, item.domain, item.ip, item.port, item.protocol,
            ShownCaveats(item), Some(ShownText(item)),
            item.count, item.observed, item.refs, item.ids, artifacts, NO_MEMBERS)
  }

  /** What `_findings` is given, besides the rows: the artifacts of a stage and which static indicators are credible. */
  datatype Sources = Sources(artifacts: map<string, set<string>>, credible: C2Finding -> bool)

  function ArtifactsOf(sources: Sources, stage: string): set<string> {
    if stage in sources.artifacts then sources.artifacts[stage] else {}
  }

  function PlatformRows(sources: Sources, findings: seq<PlatformFinding>): (r: seq<RowData>)
    ensures |r| == |findings| && forall i :: 0 <= i < |r| ==> r[i] == PlatformRow(findings[i], ArtifactsOf(sources, findings[i].stage))
  {
    seq(|findings|, i requires 0 <= i < |findings| => PlatformRow(findings[i], ArtifactsOf(sources, findings[i].stage)))
  }

  predicate Skipped(sources: Sources, item: C2Finding) { item.kind == "static_ioc" && !sources.credible(item) }

  function C2Rows(sources: Sources, items: seq<C2Finding>): seq<RowData>
    decreases |items|
  {
    if items == [] then [] else
      var last := items[|items| - 1];
      C2Rows(sources, items[..|items| - 1]) + if Skipped(sources, last) then [] else [C2Row(last, ArtifactsOf(sources, last.stage))]
  }

  function Projected(sources: Sources, windows: seq<PlatformFinding>, android: seq<PlatformFinding>, items: seq<C2Finding>): seq<RowData> {
    PlatformRows(sources, windows) + PlatformRows(sources, android) + C2Rows(sources, items)
  }

  /** The rows as objects of their own. */
  method Fill(data: seq<RowData>) returns (rows: seq<Row>)
    ensures fresh(set r | r in rows) && Apart(rows) && DataOf(rows) == data
  {
    rows := [];
    for i := 0 to |data|
      invariant |rows| == i && fresh(set r | r in rows)
      invariant Apart(rows) && forall j :: 0 <= j < i ==> rows[j].data == data[j]
    {
      var row := new Row(data[i]);
      rows := rows + [row];
    }
  }

  /** `_findings` up to the final sort, on which the verdict does not depend. */
  method Findings(sources: Sources, windows: seq<PlatformFinding>, android: seq<PlatformFinding>, items: seq<C2Finding>) returns (findings: seq<RowData>)
    ensures findings == Coalesced(ReportPass, Projected(sources, windows, android, items))
  {
    hide PlatformRow, C2Row, Coalesced;
    var data: seq<RowData> := [];
    for i := 0 to |windows|
      invariant data == PlatformRows(sources, windows[..i])
    {
      data := data + [PlatformRow(windows[i], ArtifactsOf(sources, windows[i].stage))];
    }
    assert windows[..|windows|] == windows;
    for i := 0 to |android|
      invariant data == PlatformRows(sources, windows) + PlatformRows(sources, android[..i])
    {
      data := data + [PlatformRow(android[i], ArtifactsOf(sources, android[i].stage))];
    }
    assert android[..|android|] == android;
    for i := 0 to |items|
      invariant data == Projected(sources, windows, android, items[..i])
    {
      assert items[..i + 1][..i] == items[..i];
      if !Skipped(sources, items[i]) {
        data := data + [C2Row(items[i], ArtifactsOf(sources, items[i].stage))];
      }
    }
    assert items[..|items|] == items;
    var rows := Fill(data);
    var retained := Coalesce(ReportPass, rows);
    findings := seq(|retained|, i requires 0 <= i < |retained| reads retained => retained[i].data);
    assert findings == DataOf(retained);
  }

  // ---------- the verdict ----------

  function Rank(confidence: string): int {
    if confidence == "allowlisted" then 0 else if confidence == "weak" then 2 else if confidence == "strong" then 3
    else if confidence == "confirmed" then 4 else 1
  }

  const MALICIOUS_KINDS: set<string> := {"command_and_control", "credential_theft", "exfil", "malware", "ransomware", "trojan"}

  const BLOCKING_CAVEATS: set<string> := {
    "android_api_monitoring_failed", "application_data_collection_failed", "analysis_timed_out", "c2_analysis_failed",
    "host_telemetry_degraded", "network_capture_incomplete", "static_analysis_only", "stimulation_incomplete"}

  predicate Configured(details: map<string, Json>) {
    || ("verdict" in details && details["verdict"] == Str("malicious"))
    || ("malicious" in details && details["malicious"] == Bool(true))
  }

  /** A finding that by itself makes the verdict malicious. */
  predicate Damning(f: RowData) { f.confidence == "confirmed" && (f.kind in MALICIOUS_KINDS || Configured(f.details)) }

  predicate Suspect(f: RowData) { Rank(f.confidence) >= Rank("weak") }

  /** The rest of what `_verdict` reads: stages in order, caveats, which adaptations exist. */
  datatype Circumstances = Circumstances(
    stages: seq<(StageKind, StageState)>, caveats: set<string>, hasPlatform: bool, hasC2: bool, requiresC2: bool)

  function StateOfFirst(stages: seq<(StageKind, StageState)>, k: StageKind): Option<StageState> {
    if stages == [] then None else if stages[0].0 == k then Some(stages[0].1) else StateOfFirst(stages[1..], k)
  }

  predicate PlatformFailed(c: Circumstances) { !c.hasPlatform && StateOfFirst(c.stages, PlatformAnalysis) == Some(Failed) }

  predicate Finished(c: Circumstances, k: StageKind) { (k, Completed) in c.stages || (k, Partial) in c.stages }

  predicate AllFinished(c: Circumstances) {
    && Finished(c, PlatformAnalysis) && Finished(c, PlatformAdaptation)
    && (c.requiresC2 ==> Finished(c, C2Analysis) && Finished(c, C2Adaptation))
  }

  predicate Blocked(c: Circumstances) { !c.hasPlatform || (c.requiresC2 && !c.hasC2) || BLOCKING_CAVEATS * c.caveats != {} }

  method DecideVerdict(findings: seq<RowData>, c: Circumstances) returns (verdict: H.Verdict)
    ensures verdict.VerdictFailed? <==> PlatformFailed(c)
    ensures verdict.Malicious? <==> !PlatformFailed(c) && exists f :: f in findings && Damning(f)
    ensures verdict.Suspicious? <==>
              !PlatformFailed(c) && (forall f :: f in findings ==> !Damning(f)) && exists f :: f in findings && Suspect(f)
    ensures verdict.NoMaliciousActivityObserved? <==>
              !PlatformFailed(c) && (forall f :: f in findings ==> !Damning(f) && !Suspect(f)) && !Blocked(c) && AllFinished(c)
  {
    hide Damning, Suspect;
    if PlatformFailed(c) { return H.VerdictFailed; }
    for i := 0 to |findings|
      invariant forall j :: 0 <= j < i ==> !Damning(findings[j])
    {
      if Damning(findings[i]) { return H.Malicious; }
    }
    for i := 0 to |findings|
      invariant forall j :: 0 <= j < i ==> !Suspect(findings[j])
    {
      if Suspect(findings[i]) { return H.Suspicious; }
    }
    if Blocked(c) { return H.Inconclusive; }
    var completed: set<StageKind> := {};
    for i := 0 to |c.stages|
      invariant forall k :: k in completed <==> (k, Completed) in c.stages[..i] || (k, Partial) in c.stages[..i]
    {
      assert c.stages[..i + 1] == c.stages[..i] + [c.stages[i]];
      if c.stages[i].1 in {Completed, Partial} { completed := completed + {c.stages[i].0}; }
    }
    assert c.stages[..|c.stages|] == c.stages;
    var mandatory := {PlatformAnalysis, PlatformAdaptation} + if c.requiresC2 then {C2Analysis, C2Adaptation} else {};
    verdict := if mandatory <= completed then H.NoMaliciousActivityObserved else H.Inconclusive;
  }

  // ---------- what a malicious verdict rests on ----------

  /** What a finding can do to the verdict by itself. */
  datatype Grade = Malice | Doubt

  predicate Shows(g: Grade, f: RowData) { if g.Malice? then Damning(f) else Suspect(f) }

  /** Some row tells: it shows it by itself, and no earlier neutral row of its key takes its place. */
  predicate Tells(g: Grade, rows: seq<RowData>)
    decreases |rows|
  {
    rows != [] &&
    var n := |rows| - 1;
    || Tells(g, rows[..n])
    || (Shows(g, rows[n]) && (Neutral(ReportPass, rows[n]) ==> KeyOf(ReportPass, rows[n]) !in Keys(ReportPass, rows[..n])))
  }

  lemma KeptShows(g: Grade, row: RowData, later: RowData)
    ensures Shows(g, First(ReportPass, row)) == Shows(g, row) && Shows(g, Merge(ReportPass, row, later)) == Shows(g, row)
  {}

  /** Exactly the first row of each key and the rows that are not neutral can make a report malicious, or
      suspicious. */
  lemma {:induction false} CoalescedTells(g: Grade, rows: seq<RowData>)
    ensures (exists f :: f in Coalesced(ReportPass, rows) && Shows(g, f)) <==> Tells(g, rows)
    decreases |rows|
  {
    hide Neutral, KeyOf, First, Merge, Find, Shows, Keys;
    if rows != [] {
      var n := |rows| - 1;
      var kept, row := Coalesced(ReportPass, rows[..n]), rows[n];
      CoalescedTells(g, rows[..n]);
      OneRowForEachKey(ReportPass, rows[..n]);
      FirstSeenOnce(Keys(ReportPass, rows[..n]));
      FoundIsSeen(ReportPass, kept, KeyOf(ReportPass, row));
      AddedShows(g, kept, row);
    }
  }

  lemma AddedShows(g: Grade, kept: seq<RowData>, row: RowData)
    ensures (exists f :: f in Add(ReportPass, kept, row) && Shows(g, f)) <==>
              ((exists f :: f in kept && Shows(g, f))
               || (Shows(g, row) && (Neutral(ReportPass, row) ==> Find(ReportPass, kept, KeyOf(ReportPass, row)).None?)))
  {
    hide Neutral, KeyOf, First, Merge, Find, Shows;
    KeptShows(g, row, row);
    var at := Find(ReportPass, kept, KeyOf(ReportPass, row));
    var all := Add(ReportPass, kept, row);
    if !Neutral(ReportPass, row) || at.None? {
      assert all[|kept|] in all;
      forall f | f in kept ensures f in all {}
    } else {
      KeptShows(g, kept[at.value], row);
      forall i | 0 <= i < |kept| ensures Shows(g, kept[i]) == Shows(g, all[i]) {}
      if f :| f in kept && Shows(g, f) {
        var i :| 0 <= i < |kept| && kept[i] == f;
        assert all[i] in all;
      }
    }
  }

  // ---------- flagged C2 rows ----------

  predicate AllLack(items: seq<C2Finding>) { forall i :: 0 <= i < |items| ==> LacksSampleProcess(items[i]) }

  function Attributed(items: seq<C2Finding>): seq<C2Finding>
    decreases |items|
  {
    if items == [] then [] else
      Attributed(items[..|items| - 1]) + if LacksSampleProcess(items[|items| - 1]) then [] else [items[|items| - 1]]
  }

  /** A finding without a sample process is never confirmed. */
  lemma FlaggedHarmless(item: C2Finding, artifacts: set<string>)
    requires LacksSampleProcess(item)
    ensures !Damning(C2Row(item, artifacts)) && Neutral(ReportPass, C2Row(item, artifacts))
  {}

  function Base(sources: Sources, windows: seq<PlatformFinding>, android: seq<PlatformFinding>): seq<RowData> {
    PlatformRows(sources, windows) + PlatformRows(sources, android)
  }

  lemma TellsNext(g: Grade, rows: seq<RowData>, row: RowData)
    ensures Tells(g, rows + [row]) <==>
              (Tells(g, rows) || (Shows(g, row) && (Neutral(ReportPass, row) ==> KeyOf(ReportPass, row) !in Keys(ReportPass, rows))))
  {
    assert (rows + [row])[..|rows|] == rows;
  }

  /** Without the flagged rows no key is new, and whatever convicted still does. */
  lemma {:induction false} FlaggedRowsAddNothing(sources: Sources, windows: seq<PlatformFinding>, android: seq<PlatformFinding>, items: seq<C2Finding>)
    ensures var all := Projected(sources, windows, android, items);
      var rest := Projected(sources, windows, android, Attributed(items));
      && (forall k :: k in Keys(ReportPass, rest) ==> k in Keys(ReportPass, all))
      && (Tells(Malice, all) ==> Tells(Malice, rest))
    decreases |items|
  {
    hide Neutral, KeyOf, Damning, Keys, Tells, PlatformRow, C2Row, LacksSampleProcess;
    if items != [] {
      var n := |items| - 1;
      var item := items[n];
      FlaggedRowsAddNothing(sources, windows, android, items[..n]);
      assert Attributed(items[..n]) + [] == Attributed(items[..n]);
      if !Skipped(sources, item) {
        var row := C2Row(item, ArtifactsOf(sources, item.stage));
        ProjectedNext(sources, windows, android, items[..n], item);
        assert items == items[..n] + [item];
        TellsNext(Malice, Projected(sources, windows, android, items[..n]), row);
        KeysAppended(ReportPass, Projected(sources, windows, android, items[..n]), row);
        if LacksSampleProcess(item) {
          FlaggedHarmless(item, ArtifactsOf(sources, item.stage));
        } else {
          ProjectedNext(sources, windows, android, Attributed(items[..n]), item);
          TellsNext(Malice, Projected(sources, windows, android, Attributed(items[..n])), row);
          KeysAppended(ReportPass, Projected(sources, windows, android, Attributed(items[..n])), row);
        }
      } else {
        ProjectedSkips(sources, windows, android, items[..n], item);
        ProjectedSkips(sources, windows, android, Attributed(items[..n]), item);
        assert items == items[..n] + [item];
      }
    }
  }

  lemma ProjectedNext(sources: Sources, windows: seq<PlatformFinding>, android: seq<PlatformFinding>, items: seq<C2Finding>, item: C2Finding)
    requires !Skipped(sources, item)
    ensures Projected(sources, windows, android, items + [item])
              == Projected(sources, windows, android, items) + [C2Row(item, ArtifactsOf(sources, item.stage))]
  {
    hide C2Row;
    assert (items + [item])[..|items|] == items;
  }

  lemma ProjectedSkips(sources: Sources, windows: seq<PlatformFinding>, android: seq<PlatformFinding>, items: seq<C2Finding>, item: C2Finding)
    requires Skipped(sources, item)
    ensures Projected(sources, windows, android, items + [item]) == Projected(sources, windows, android, items)
  {
    hide C2Row;
    assert (items + [item])[..|items|] == items;
  }

  /** Flagged rows never make a report malicious: if it is malicious with them, it is without them. */
  lemma FlaggedRowsDoNotConvict(sources: Sources, windows: seq<PlatformFinding>, android: seq<PlatformFinding>, items: seq<C2Finding>)
    requires exists f :: f in Coalesced(ReportPass, Projected(sources, windows, android, items)) && Damning(f)
    ensures exists f :: f in Coalesced(ReportPass, Projected(sources, windows, android, Attributed(items))) && Damning(f)
  {
    hide Damning, Coalesced, Projected, Tells;
    var all, rest := Projected(sources, windows, android, items), Projected(sources, windows, android, Attributed(items));
    CoalescedTells(Malice, all);
    FlaggedRowsAddNothing(sources, windows, android, items);
    CoalescedTells(Malice, rest);
    var f :| f in Coalesced(ReportPass, all) && Damning(f);
    assert Shows(Malice, f);
    var e :| e in Coalesced(ReportPass, rest) && Shows(Malice, e);
    assert Damning(e);
  }

  // ---------- the verdict in terms of the inputs ----------

  /** Confirmed, and of a malicious kind or malicious by its own details; or at least weak. */
  predicate Grave(g: Grade, kind: string, confidence: string, details: map<string, Json>) {
    if g.Malice? then confidence == "confirmed" && (kind in MALICIOUS_KINDS || Configured(details))
    else confidence in {"weak", "strong", "confirmed"}
  }

  predicate GravePlatform(g: Grade, f: PlatformFinding) { Grave(g, f.kind, f.confidence, f.details) }

  /** A C2 finding that is in the report: one without a sample process is never malicious, and at least weak
      unless it is allowlisted. */
  predicate GraveC2(g: Grade, sources: Sources, item: C2Finding) {
    && (item.kind == "static_ioc" ==> sources.credible(item))
    && (if LacksSampleProcess(item) then g.Doubt? && item.confidence != "allowlisted"
        else Grave(g, item.kind, item.confidence, item.details))
  }

  /** It speaks of traffic only. */
  predicate Traffic(sources: Sources, item: C2Finding) {
    (item.kind == "network_observation" || LacksSampleProcess(item)) && (item.kind == "static_ioc" ==> sources.credible(item))
  }

  /** Two findings that show one observation. */
  predicate SameObservation(a: C2Finding, b: C2Finding) {
    && a.stage == b.stage && a.timestamp == b.timestamp && a.port == b.port && a.protocol == b.protocol
    && (if C2Bundle.Truthy(a.domain) then a.domain else a.ip) == (if C2Bundle.Truthy(b.domain) then b.domain else b.ip)
    && ShownCaveats(a) == ShownCaveats(b) && ShownText(a) == ShownText(b)
  }

  /** An earlier finding shows the same observation, and is reported in its place. */
  ghost predicate Repeated(sources: Sources, items: seq<C2Finding>, i: nat)
    requires i < |items|
  {
    Traffic(sources, items[i]) && exists j :: 0 <= j < i && Traffic(sources, items[j]) && SameObservation(items[j], items[i])
  }

  /** Some input makes the report malicious, or suspicious. */
  ghost predicate Told(g: Grade, sources: Sources, windows: seq<PlatformFinding>, android: seq<PlatformFinding>, items: seq<C2Finding>) {
    || (exists i :: 0 <= i < |windows| && GravePlatform(g, windows[i]))
    || (exists i :: 0 <= i < |android| && GravePlatform(g, android[i]))
    || (exists i :: 0 <= i < |items| && GraveC2(g, sources, items[i]) && !Repeated(sources, items, i))
  }

  lemma PlatformShows(g: Grade, f: PlatformFinding, artifacts: set<string>)
    ensures Shows(g, PlatformRow(f, artifacts)) <==> GravePlatform(g, f)
    ensures !Neutral(ReportPass, PlatformRow(f, artifacts))
  {}

  lemma C2Shows(g: Grade, sources: Sources, item: C2Finding, artifacts: set<string>)
    requires !Skipped(sources, item)
    ensures Shows(g, C2Row(item, artifacts)) <==> GraveC2(g, sources, item)
    ensures Neutral(ReportPass, C2Row(item, artifacts)) <==> Traffic(sources, item)
  {
    hide ShownText, ShownCaveats, Lineage;
  }

  lemma SkippedIsNothing(g: Grade, sources: Sources, item: C2Finding)
    requires Skipped(sources, item)
    ensures !GraveC2(g, sources, item) && !Traffic(sources, item)
  {}

  lemma SameKeySameObservation(a: C2Finding, b: C2Finding, x: set<string>, y: set<string>)
    ensures KeyOf(ReportPass, C2Row(a, x)) == KeyOf(ReportPass, C2Row(b, y)) <==> SameObservation(a, b)
  {
    hide ShownText, ShownCaveats, LacksSampleProcess, EffectiveConfidence;
  }

  ghost predicate TrafficOf(sources: Sources, items: seq<C2Finding>, item: C2Finding) {
    exists j :: 0 <= j < |items| && Traffic(sources, items[j]) && SameObservation(items[j], item)
  }

  lemma TrafficNext(sources: Sources, items: seq<C2Finding>, last: C2Finding, item: C2Finding)
    ensures TrafficOf(sources, items + [last], item) <==>
              TrafficOf(sources, items, item) || (Traffic(sources, last) && SameObservation(last, item))
  {
    hide Traffic, SameObservation;
    var all := items + [last];
    if j :| 0 <= j < |items| && Traffic(sources, items[j]) && SameObservation(items[j], item) { assert all[j] == items[j]; }
    assert all[|items|] == last;
  }

  lemma {:induction false} BaseKeys(rows: seq<RowData>)
    requires forall i :: 0 <= i < |rows| ==> !Neutral(ReportPass, rows[i])
    ensures Keys(ReportPass, rows) == []
    decreases |rows|
  {
    hide Neutral, KeyOf;
    if rows != [] { BaseKeys(rows[..|rows| - 1]); }
  }

  lemma {:induction false} BaseTells(g: Grade, rows: seq<RowData>)
    requires forall i :: 0 <= i < |rows| ==> !Neutral(ReportPass, rows[i])
    ensures Tells(g, rows) <==> exists i :: 0 <= i < |rows| && Shows(g, rows[i])
    decreases |rows|
  {
    hide Neutral, KeyOf, Shows;
    if rows != [] {
      var n := |rows| - 1;
      BaseTells(g, rows[..n]);
      if i :| 0 <= i < n && Shows(g, rows[..n][i]) { assert Shows(g, rows[i]); }
      if i :| 0 <= i < |rows| && Shows(g, rows[i]) { if i < n { assert Shows(g, rows[..n][i]); } }
    }
  }

  lemma NotNeutralBase(sources: Sources, windows: seq<PlatformFinding>, android: seq<PlatformFinding>)
    ensures forall i :: 0 <= i < |windows| + |android| ==> !Neutral(ReportPass, Base(sources, windows, android)[i])
  {}

  lemma {:induction false} ObservationSeen(sources: Sources, windows: seq<PlatformFinding>, android: seq<PlatformFinding>, items: seq<C2Finding>, item: C2Finding, artifacts: set<string>)
    ensures KeyOf(ReportPass, C2Row(item, artifacts)) in Keys(ReportPass, Projected(sources, windows, android, items)) <==>
              TrafficOf(sources, items, item)
    decreases |items|
  {
    hide Neutral, KeyOf, C2Row, PlatformRow, Keys, Traffic, SameObservation, Skipped;
    if items == [] {
      NotNeutralBase(sources, windows, android);
      BaseKeys(Base(sources, windows, android));
      assert Projected(sources, windows, android, items) == Base(sources, windows, android);
    } else {
      var n := |items| - 1;
      var last, before := items[n], Projected(sources, windows, android, items[..n]);
      assert items == items[..n] + [last];
      ObservationSeen(sources, windows, android, items[..n], item, artifacts);
      TrafficNext(sources, items[..n], last, item);
      if Skipped(sources, last) {
        ProjectedSkips(sources, windows, android, items[..n], last);
        SkippedIsNothing(Malice, sources, last);
      } else {
        var row := C2Row(last, ArtifactsOf(sources, last.stage));
        ProjectedNext(sources, windows, android, items[..n], last);
        KeysAppended(ReportPass, before, row);
        C2Shows(Malice, sources, last, ArtifactsOf(sources, last.stage));
        SameKeySameObservation(last, item, ArtifactsOf(sources, last.stage), artifacts);
      }
    }
  }

  lemma ToldNext(g: Grade, sources: Sources, windows: seq<PlatformFinding>, android: seq<PlatformFinding>, items: seq<C2Finding>, last: C2Finding)
    ensures Told(g, sources, windows, android, items + [last]) <==>
              (Told(g, sources, windows, android, items)
               || (GraveC2(g, sources, last) && !(Traffic(sources, last) && TrafficOf(sources, items, last))))
  {
    hide GraveC2, Traffic, SameObservation, GravePlatform;
    var all, n := items + [last], |items|;
    assert all[n] == last && forall i :: 0 <= i < n ==> all[i] == items[i];
    assert Repeated(sources, all, n) <==> Traffic(sources, last) && TrafficOf(sources, items, last) by { RepeatedLast(sources, items, last); }
    forall i: nat | i < n ensures Repeated(sources, all, i) <==> Repeated(sources, items, i) { RepeatedBefore(sources, items, last, i); }
    hide Repeated, TrafficOf;
  }

  lemma RepeatedLast(sources: Sources, items: seq<C2Finding>, last: C2Finding)
    ensures Repeated(sources, items + [last], |items|) <==> Traffic(sources, last) && TrafficOf(sources, items, last)
  {
    hide Traffic, SameObservation;
    var all := items + [last];
    if j :| 0 <= j < |items| && Traffic(sources, items[j]) && SameObservation(items[j], last) { assert all[j] == items[j]; }
  }

  lemma RepeatedBefore(sources: Sources, items: seq<C2Finding>, last: C2Finding, i: nat)
    requires i < |items|
    ensures Repeated(sources, items + [last], i) <==> Repeated(sources, items, i)
  {
    hide Traffic, SameObservation;
    var all := items + [last];
    assert all[i] == items[i];
    if j :| 0 <= j < i && Traffic(sources, items[j]) && SameObservation(items[j], items[i]) { assert all[j] == items[j]; }
  }

  lemma BaseTold(g: Grade, sources: Sources, windows: seq<PlatformFinding>, android: seq<PlatformFinding>)
    ensures Tells(g, Base(sources, windows, android)) <==> Told(g, sources, windows, android, [])
  {
    hide Shows, Neutral, GravePlatform, PlatformRow, Tells;
    var rows := Base(sources, windows, android);
    forall i | 0 <= i < |rows| ensures !Neutral(ReportPass, rows[i])
      && (Shows(g, rows[i]) <==> GravePlatform(g, if i < |windows| then windows[i] else android[i - |windows|]))
    {
      var f := if i < |windows| then windows[i] else android[i - |windows|];
      PlatformShows(g, f, ArtifactsOf(sources, f.stage));
    }
    BaseTells(g, rows);
    forall i | 0 <= i < |android| ensures GravePlatform(g, android[i]) <==> Shows(g, rows[|windows| + i]) {}
  }

  /** What the coalesced report can be told by is told by the inputs: projecting and coalescing lose nothing
      but repetitions and invent nothing. */
  lemma {:induction false} TellsWhatIsTold(g: Grade, sources: Sources, windows: seq<PlatformFinding>, android: seq<PlatformFinding>, items: seq<C2Finding>)
    ensures Tells(g, Projected(sources, windows, android, items)) <==> Told(g, sources, windows, android, items)
    decreases |items|
  {
    hide Shows, Neutral, KeyOf, C2Row, PlatformRow, Keys, Tells, Told, Traffic, TrafficOf, GraveC2, Skipped;
    if items == [] {
      BaseTold(g, sources, windows, android);
      assert Projected(sources, windows, android, items) == Base(sources, windows, android);
    } else {
      var n := |items| - 1;
      var last, before := items[n], Projected(sources, windows, android, items[..n]);
      assert items == items[..n] + [last];
      TellsWhatIsTold(g, sources, windows, android, items[..n]);
      ToldNext(g, sources, windows, android, items[..n], last);
      if Skipped(sources, last) {
        ProjectedSkips(sources, windows, android, items[..n], last);
        SkippedIsNothing(g, sources, last);
      } else {
        var artifacts := ArtifactsOf(sources, last.stage);
        ProjectedNext(sources, windows, android, items[..n], last);
        TellsNext(g, before, C2Row(last, artifacts));
        C2Shows(g, sources, last, artifacts);
        ObservationSeen(sources, windows, android, items[..n], last, artifacts);
      }
    }
  }

  /** The input a malicious verdict rests on: confirmed, and a platform finding, a static indicator, or a C2
      finding that is not flagged. */
  ghost predicate Witness(windows: seq<PlatformFinding>, android: seq<PlatformFinding>, items: seq<C2Finding>) {
    || (exists i :: 0 <= i < |windows| && windows[i].confidence == "confirmed")
    || (exists i :: 0 <= i < |android| && android[i].confidence == "confirmed")
    || (exists i :: 0 <= i < |items| && items[i].confidence == "confirmed" && !LacksSampleProcess(items[i]))
  }

  lemma ToldHasWitness(sources: Sources, windows: seq<PlatformFinding>, android: seq<PlatformFinding>, items: seq<C2Finding>)
    requires Told(Malice, sources, windows, android, items)
    ensures Witness(windows, android, items)
  {
    hide LacksSampleProcess, Repeated, Configured;
  }

  /** Whatever is coalesced, a malicious report has a witness among its inputs. */
  lemma MaliciousHasWitness(sources: Sources, windows: seq<PlatformFinding>, android: seq<PlatformFinding>, items: seq<C2Finding>)
    requires exists f :: f in Coalesced(ReportPass, Projected(sources, windows, android, items)) && Damning(f)
    ensures Witness(windows, android, items)
  {
    hide Coalesced, Projected, Tells, Told, Damning;
    var rows := Projected(sources, windows, android, items);
    var f :| f in Coalesced(ReportPass, rows) && Damning(f);
    assert Shows(Malice, f);
    CoalescedTells(Malice, rows);
    TellsWhatIsTold(Malice, sources, windows, android, items);
    ToldHasWitness(sources, windows, android, items);
  }

  /** The whole path, from the worker's inputs to the verdict. */
  method Judge(sources: Sources, windows: seq<PlatformFinding>, android: seq<PlatformFinding>, items: seq<C2Finding>, c: Circumstances) returns (verdict: H.Verdict)
    ensures verdict.VerdictFailed? <==> PlatformFailed(c)
    ensures verdict.Malicious? <==> !PlatformFailed(c) && Told(Malice, sources, windows, android, items)
    ensures verdict.Suspicious? <==>
              !PlatformFailed(c) && !Told(Malice, sources, windows, android, items) && Told(Doubt, sources, windows, android, items)
    ensures verdict.NoMaliciousActivityObserved? <==>
              !PlatformFailed(c) && !Told(Malice, sources, windows, android, items) && !Told(Doubt, sources, windows, android, items)
              && !Blocked(c) && AllFinished(c)
    ensures verdict.Malicious? ==> Witness(windows, android, items)
    ensures windows == [] && android == [] && AllLack(items) ==> !verdict.Malicious?
  {
    hide Coalesced, Projected, Damning, Suspect, Tells, Told, LacksSampleProcess;
    var findings := Findings(sources, windows, android, items);
    verdict := DecideVerdict(findings, c);
    CoalescedTells(Malice, Projected(sources, windows, android, items));
    CoalescedTells(Doubt, Projected(sources, windows, android, items));
    TellsWhatIsTold(Malice, sources, windows, android, items);
    TellsWhatIsTold(Doubt, sources, windows, android, items);
    assert forall f: RowData :: Shows(Malice, f) == Damning(f) && Shows(Doubt, f) == Suspect(f);
    if verdict.Malicious? { ToldHasWitness(sources, windows, android, items); }
  }

  /** The order of the findings does not matter to the verdict. */
  lemma SortingIsIrrelevant(findings: seq<RowData>, sorted: seq<RowData>)
    requires multiset(findings) == multiset(sorted)
    ensures (exists f :: f in findings && Damning(f)) <==> exists f :: f in sorted && Damning(f)
    ensures (exists f :: f in findings && Suspect(f)) <==> exists f :: f in sorted && Suspect(f)
  {
    hide Damning, Suspect;
    forall f ensures f in findings <==> f in sorted { assert f in findings <==> f in multiset(findings); }
  }
}
