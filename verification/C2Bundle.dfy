/** The signed C2 result bundle: how events are normalised and chained, how a bundle is built and how it is
    verified, and the two gates on Android data-access claims. JSON documents are values; what a file holds
    is the value that was written to it. */
module C2Bundle {
  import opened Tables
  import opened HashChain

  // ---------- events ----------

  /** A member of an evidence reference list: an object, or anything else as its text. */
  datatype Ref = Entry(fields: map<string, Json>) | Loose(value: string)

  /** What the analyzer and the passes after it emit. Absent and null are both None, but for the tier: a tier
      that is absent is None, and one that is null is Some(None). */
  datatype NativeEvent = NativeEvent(
    eventId: Option<string>, timestamp: Option<string>, domain: Option<string>, ip: Option<string>, port: Option<int>,
    dataType: Option<string>, accessCall: Option<string>, findingKind: Option<string>, technique: Option<string>,
    reputation: Option<real>, plain: Option<string>, tier: Option<Option<string>>, caveat: Option<string>, score: Option<real>,
    refs: seq<Ref>, carried: map<string, string>)

  datatype Event = Event(
    eventId: string, sampleId: string, caseId: string, platform: Platform, timestamp: string, manifestSha: Option<string>,
    domain: Option<string>, ip: Option<string>, port: Option<int>, dataType: Option<string>, accessCall: Option<string>,
    kind: string, technique: Option<string>, reputation: Option<real>, plain: string, tier: Option<string>,
    caveat: Option<string>, score: Option<real>, refs: seq<Ref>, carried: map<string, string>)

  datatype Row = Row(event: Event, evidenceHash: string)

  datatype Context = Context(
    run: string, sample: string, platform: Platform, manifestSha: string, startedAt: string, eligible: bool,
    caveats: set<string>, header: string)

  /** Python's truth of an optional string. */
  predicate Truthy(o: Option<string>) { o.Some? && o.value != "" }

  function Or(a: Option<string>, b: Option<string>): Option<string> { if Truthy(a) then a else b }

  function TextOr(o: Option<string>, other: string): string { if Truthy(o) then o.value else other }

  const CORRELATION := "correlation"
  const TEMPORAL_ONLY := "android_temporal_correlation_only"
  const NETWORK_ONLY := "c2_network_only"

  function Spaced(s: string): string {
    if s == "" then "" else [if s[0] == '_' then ' ' else s[0]] + Spaced(s[1..])
  }

  function FindingKind(native: NativeEvent, correlated: bool): string {
    var technique := TextOr(native.technique, "");
    if correlated then CORRELATION
    else if technique == "T1071.004" || native.port == Some(53) then "dns"
    else if technique in {"T1048", "T1048.003", "T1567", "T1567.002"} then "exfil"
    else if technique in {"T1572", "T1573"} then "covert_channel"
    else if native.reputation.Some? && native.reputation.value > 0.0 then "reputation"
    else "network_observation"
  }

  function AsEntry(r: Ref): Ref { if r.Entry? then r else Entry(map["reference" := Str(r.value)]) }

  function AsEntries(refs: seq<Ref>): (r: seq<Ref>)
    ensures |r| == |refs| && forall i :: 0 <= i < |r| ==> r[i] == AsEntry(refs[i])
  {
    seq(|refs|, i requires 0 <= i < |refs| => AsEntry(refs[i]))
  }

  predicate Withheld(context: Context) { context.platform.Android? && !context.eligible }

  /** One row of `_normalize_events` without its hash; `uuid` is used when the event has no id. */
  function Normal(context: Context, native: NativeEvent, uuid: string, first: bool): Event {
    var destination := TextOr(native.domain, TextOr(native.ip, "unknown"));
    var dataType := if Withheld(context) then None else native.dataType;
    Event(
      TextOr(native.eventId, uuid), context.sample, context.run, context.platform,
      TextOr(native.timestamp, context.startedAt), if first then Some(context.manifestSha) else None,
      native.domain, native.ip, native.port, dataType,
      if context.platform.Windows? || context.eligible then native.accessCall else None,
      TextOr(native.findingKind, FindingKind(native, Truthy(dataType))), native.technique, native.reputation,
      TextOr(native.plain,
            if !Truthy(dataType) then "The sample communicated with " + destination + "."
            else "Access to " + Spaced(dataType.value) + " was linked to " + destination + "."),
      if native.tier.Some? then native.tier.value else Some("unconfirmed"),
      if Truthy(native.caveat) then native.caveat else if Withheld(context) then Some(NETWORK_ONLY) else None,
      native.score, AsEntries(native.refs), native.carried)
  }

  /** What normalising does to an event: it takes over the run's identity, keeps what the analyzer knows, fills what
      is missing, and withholds data-access claims, with a caveat, where telemetry cannot support them. */
  lemma NormalMeans(context: Context, native: NativeEvent, uuid: string, first: bool)
    ensures var e := Normal(context, native, uuid, first);
      var withheld := context.platform == Android && !context.eligible;
      && e.sampleId == context.sample && e.caseId == context.run && e.platform == context.platform
      && e.eventId == (if native.eventId in {None, Some("")} then uuid else native.eventId.value)
      && e.timestamp == (if native.timestamp in {None, Some("")} then context.startedAt else native.timestamp.value)
      && e.domain == native.domain && e.ip == native.ip && e.port == native.port && e.technique == native.technique
      && e.reputation == native.reputation && e.score == native.score && e.carried == native.carried
      && (native.tier == None ==> e.tier == Some("unconfirmed")) && (native.tier != None ==> e.tier == native.tier.value)
      && (withheld ==> e.dataType == None && e.accessCall == None) && (!withheld ==> e.dataType == native.dataType && e.accessCall == native.accessCall)
      && (native.caveat !in {None, Some("")} ==> e.caveat == native.caveat)
      && (native.caveat in {None, Some("")} ==> e.caveat == if withheld then Some("c2_network_only") else None)
      && |e.refs| == |native.refs| && (forall i :: 0 <= i < |e.refs| && native.refs[i].Entry? ==> e.refs[i] == native.refs[i])
      && (first <==> e.manifestSha == Some(context.manifestSha))
  {
    hide FindingKind, Spaced;
  }

  /** The kind of an event that the analyzer has not named: a claim comes first, then DNS, then what its
      technique says, then its reputation; whatever nothing speaks of is a network observation. */
  lemma KindMeans(context: Context, native: NativeEvent, uuid: string, first: bool)
    requires native.findingKind in {None, Some("")}
    ensures var e := Normal(context, native, uuid, first);
      var claimed := !(context.platform == Android && !context.eligible) && native.dataType.Some? && native.dataType.value != "";
      var dns := native.technique == Some("T1071.004") || native.port == Some(53);
      var exfil := native.technique in {Some("T1048"), Some("T1048.003"), Some("T1567"), Some("T1567.002")};
      var covert := native.technique in {Some("T1572"), Some("T1573")};
      var known := native.reputation.Some? && native.reputation.value > 0.0;
      && (claimed ==> e.kind == "correlation") && (!claimed && dns ==> e.kind == "dns")
      && (!claimed && !dns && exfil ==> e.kind == "exfil") && (!claimed && !dns && covert ==> e.kind == "covert_channel")
      && (!claimed && !dns && !exfil && !covert ==> e.kind == if known then "reputation" else "network_observation")
  {
    hide Spaced;
  }

  function Normals(context: Context, natives: seq<NativeEvent>, uuids: seq<string>): (r: seq<Event>)
    requires |natives| <= |uuids|
    ensures |r| == |natives| && forall i :: 0 <= i < |r| ==> r[i] == Normal(context, natives[i], uuids[i], i == 0)
  {
    seq(|natives|, i requires 0 <= i < |natives| => Normal(context, natives[i], uuids[i], i == 0))
  }

  function Events(rows: seq<Row>): (r: seq<Event>)
    ensures |r| == |rows| && forall i :: 0 <= i < |r| ==> r[i] == rows[i].event
  {
    seq(|rows|, i requires 0 <= i < |rows| => rows[i].event)
  }

  function Hashes(rows: seq<Row>): (r: seq<string>)
    ensures |r| == |rows| && forall i :: 0 <= i < |r| ==> r[i] == rows[i].evidenceHash
  {
    seq(|rows|, i requires 0 <= i < |rows| => rows[i].evidenceHash)
  }

  /** The rows form a chain from the root to the tip. */
  ghost predicate Chained(h: Hashing<Event>, root: string, rows: seq<Row>, tip: string) {
    Hashes(rows) == Links(h, root, Events(rows)) && tip == Tip(root, Hashes(rows))
  }

  lemma ChainStarts(h: Hashing<Event>, root: string)
    ensures Chained(h, root, [], root)
  {}

  lemma ChainGrows(h: Hashing<Event>, root: string, rows: seq<Row>, tip: string, row: Row)
    requires Chained(h, root, rows, tip)
    ensures Chained(h, root, rows + [row], row.evidenceHash) <==> row.evidenceHash == h.Link(tip, row.event)
  {
    var all := rows + [row];
    assert Events(all)[..|rows|] == Events(rows);
    assert Hashes(all) == Hashes(rows) + [row.evidenceHash];
    assert Links(h, root, Events(all)) == Links(h, root, Events(rows)) + [h.Link(tip, row.event)];
  }

  /** `_normalize_events`. */
  method NormalizeEvents(h: Hashing<Event>, context: Context, natives: seq<NativeEvent>, uuids: seq<string>)
    returns (rows: seq<Row>, root: string, tip: string)
    requires |natives| <= |uuids|
    ensures root == context.manifestSha
    ensures Events(rows) == Normals(context, natives, uuids)
    ensures Chained(h, root, rows, tip)
  {
    hide Chained, Normal;
    root := context.manifestSha;
    rows, tip := [], root;
    ChainStarts(h, root);
    for i := 0 to |natives|
      invariant |rows| == i && Chained(h, root, rows, tip)
      invariant forall j :: 0 <= j < i ==> rows[j].event == Normal(context, natives[j], uuids[j], j == 0)
    {
      var event := Normal(context, natives[i], uuids[i], rows == []);
      var row := Row(event, h.Link(tip, event));
      ChainGrows(h, root, rows, tip, row);
      rows, tip := rows + [row], row.evidenceHash;
    }
    assert Events(rows) == Normals(context, natives, uuids);
  }

  // ---------- the two gates on Android data-access claims ----------

  datatype Mode = Temporal | HostNetwork | NetworkOnly

  function ModeOf(context: Context): Mode {
    if context.platform.Android? && context.eligible then Temporal else if context.eligible then HostNetwork else NetworkOnly
  }

  predicate HostRef(r: Ref) {
    && r.Entry? && "type" in r.fields && r.fields["type"] == Str("host_access")
    && "source" in r.fields && r.fields["source"] == Str("android_telemetry")
  }

  /** A temporal correlation that says so and shows the host access it rests on. */
  predicate Evidenced(mode: Mode, e: Event) {
    mode.Temporal? && e.kind == CORRELATION && e.caveat == Some(TEMPORAL_ONLY) && exists r :: r in e.refs && HostRef(r)
  }

  /** A claim for the validator is one that is there; for the adapter one that is not empty. */
  predicate Claims(e: Event) { e.dataType.Some? || e.accessCall.Some? }

  predicate AdapterClaims(e: Event) { Truthy(e.dataType) || Truthy(e.accessCall) }

  datatype Descriptor = Descriptor(path: Path, sha: string, size: nat)

  datatype Unsigned = Unsigned(
    run: string, sample: string, platform: Platform, mode: Mode, events: seq<Row>, artifacts: seq<Descriptor>,
    caveats: set<string>, root: string, tip: string, header: string)

  datatype Manifest = Manifest(unsigned: Unsigned, keyId: string, signature: string)

  predicate EventIdentity(u: Unsigned, e: Event) {
    && e.caseId == u.run && e.sampleId == u.sample && e.platform == u.platform
    && (u.platform.Android? && Claims(e) ==> Evidenced(u.mode, e))
  }

  /** What `_validate_c2_identity` lets through. */
  predicate Identity(u: Unsigned) { forall i :: 0 <= i < |u.events| ==> EventIdentity(u, u.events[i].event) }

  method ValidateIdentity(u: Unsigned) returns (ok: bool)
    ensures ok <==> Identity(u)
  {
    for i := 0 to |u.events|
      invariant forall j :: 0 <= j < i ==> EventIdentity(u, u.events[j].event)
    {
      var e := u.events[i].event;
      if e.caseId != u.run { return false; }
      if e.sampleId != u.sample { return false; }
      if e.platform != u.platform { return false; }
      if u.platform.Android? && (e.dataType.Some? || e.accessCall.Some?) {
        var hostRefs := SelectHostRefs(e.refs);
        if u.mode != Temporal || e.kind != CORRELATION || e.caveat != Some(TEMPORAL_ONLY) || hostRefs == [] { return false; }
      }
    }
    return true;
  }

  method SelectHostRefs(refs: seq<Ref>) returns (hostRefs: seq<Ref>)
    ensures hostRefs != [] <==> exists r :: r in refs && HostRef(r)
  {
    hostRefs := [];
    for i := 0 to |refs|
      invariant hostRefs != [] <==> exists r :: r in refs[..i] && HostRef(r)
    {
      assert refs[..i + 1] == refs[..i] + [refs[i]];
      if HostRef(refs[i]) {
        hostRefs := hostRefs + [refs[i]];
        assert refs[i] in refs[..i + 1];
      }
    }
    assert refs[..|refs|] == refs;
  }

  /** What the adapter expects of a manifest. */
  datatype Expected = Expected(run: string, sample: string, platform: Platform, executor: string)

  predicate AdapterIdentity(m: Manifest, x: Expected) {
    && m.unsigned.run == x.run && m.unsigned.sample == x.sample && m.unsigned.platform == x.platform && m.keyId == x.executor
    && (x.platform.Android? ==>
          forall i :: 0 <= i < |m.unsigned.events| && AdapterClaims(m.unsigned.events[i].event) ==>
            Evidenced(m.unsigned.mode, m.unsigned.events[i].event))
  }

  /** `_check_identity`: it collects the claims before it looks at any of them. */
  method CheckIdentity(m: Manifest, x: Expected) returns (ok: bool)
    ensures ok <==> AdapterIdentity(m, x)
  {
    var u := m.unsigned;
    if u.run != x.run || u.sample != x.sample || u.platform != x.platform || m.keyId != x.executor { return false; }
    if x.platform.Windows? { return true; }
    var correlated: seq<nat> := [];
    for i := 0 to |u.events|
      invariant forall k :: 0 <= k < |correlated| ==> correlated[k] < i && AdapterClaims(u.events[correlated[k]].event)
      invariant forall j :: 0 <= j < i && AdapterClaims(u.events[j].event) ==> j in correlated
    {
      if AdapterClaims(u.events[i].event) { correlated := correlated + [i]; }
    }
    if correlated != [] && u.mode != Temporal {
      assert !Evidenced(u.mode, u.events[correlated[0]].event);
      return false;
    }
    for k := 0 to |correlated|
      invariant forall n :: 0 <= n < k ==> Evidenced(u.mode, u.events[correlated[n]].event)
    {
      var e := u.events[correlated[k]].event;
      var hostRefs := SelectHostRefs(e.refs);
      if e.kind != CORRELATION || e.caveat != Some(TEMPORAL_ONLY) || hostRefs == [] { return false; }
    }
    return true;
  }

  /** The validator's gate implies the adapter's, for a manifest of the expected identity. */
  lemma GatesAgree(m: Manifest, x: Expected)
    requires Identity(m.unsigned)
    requires m.unsigned.run == x.run && m.unsigned.sample == x.sample && m.unsigned.platform == x.platform && m.keyId == x.executor
    ensures AdapterIdentity(m, x)
  {
    forall i | 0 <= i < |m.unsigned.events| && AdapterClaims(m.unsigned.events[i].event) && x.platform.Android?
      ensures Evidenced(m.unsigned.mode, m.unsigned.events[i].event)
    {
      assert EventIdentity(m.unsigned, m.unsigned.events[i].event);
    }
  }

  // ---------- files ----------

  datatype Path =
    | ManifestJson | HashesSha256 | IntegritySignature
    | NetworkEvents | ExfilEvents | Attribution | Provenance | Timeline | AnalysisNotes | IocsCsv | IocsStix
    | Elsewhere(name: string)

  const RESULT_FILES: seq<Path> := [NetworkEvents, ExfilEvents, Attribution, Provenance, Timeline, AnalysisNotes, IocsCsv, IocsStix]

  const EXPECTED_FILES: set<Path> := {
    ManifestJson, HashesSha256, IntegritySignature,
    NetworkEvents, ExfilEvents, Attribution, Provenance, Timeline, AnalysisNotes, IocsCsv, IocsStix}

  const WRITTEN_LAST: set<Path> := {ManifestJson, HashesSha256, IntegritySignature}

  datatype File =
    | ManifestFile(manifest: Manifest)
    | HashesFile(lines: seq<(string, Path)>)
    | SignatureFile(value: string)
    | EventsFile(rows: seq<Row>)
    | DocumentFile(text: string)

  type Files = map<Path, File>

  /** Cryptography, the JSON Schema and the sizes of files, as functions; the key pair belongs together. */
  datatype World = World(
    fileSha: File -> string, fileSize: File -> nat, sign: Unsigned -> string, accepts: (string, Unsigned) -> bool,
    schema: Manifest -> bool, h: Hashing<Event>)

  ghost predicate Sane(w: World) {
    && (forall f :: |w.fileSha(f)| == 64) && (forall u :: w.accepts(w.sign(u), u)) && Regular(w.h)
  }

  // ---------- verification ----------

  function Described(list: seq<Descriptor>): map<Path, Descriptor>
    decreases |list|
  {
    if list == [] then map[] else Described(list[..|list| - 1])[list[|list| - 1].path := list[|list| - 1]]
  }

  predicate DistinctPaths(lines: seq<(string, Path)>) {
    forall i, j :: 0 <= i < j < |lines| ==> lines[i].1 != lines[j].1
  }

  function Paths(lines: seq<(string, Path)>): set<Path> { set i | 0 <= i < |lines| :: lines[i].1 }

  predicate HashLines(w: World, files: Files, lines: seq<(string, Path)>) {
    && DistinctPaths(lines)
    && Paths(lines) == EXPECTED_FILES - {HashesSha256, IntegritySignature}
    && forall i :: 0 <= i < |lines| ==> |lines[i].0| == 64 && lines[i].1 in files && w.fileSha(files[lines[i].1]) == lines[i].0
  }

  predicate Descriptors(w: World, files: Files, list: seq<Descriptor>) {
    var all := Described(list);
    && all.Keys == EXPECTED_FILES - {ManifestJson, HashesSha256, IntegritySignature}
    && forall p :: p in all ==> p in files && all[p].sha == w.fileSha(files[p]) && all[p].size == w.fileSize(files[p])
  }

  /** What `verify_result_bundle` accepts, and the manifest it then returns. */
  ghost predicate Accepted(w: World, files: Files, m: Manifest) {
    && files.Keys == EXPECTED_FILES
    && files[ManifestJson] == ManifestFile(m) && w.schema(m) && Identity(m.unsigned)
    && w.accepts(m.signature, m.unsigned) && files[IntegritySignature] == SignatureFile(m.signature)
    && files[HashesSha256].HashesFile? && HashLines(w, files, files[HashesSha256].lines)
    && Descriptors(w, files, m.unsigned.artifacts)
    && Chained(w.h, m.unsigned.root, m.unsigned.events, m.unsigned.tip)
  }

  /** The dictionary of the hash lines, unless a path is repeated or a digest has the wrong length. */
  method CollectLines(lines: seq<(string, Path)>) returns (ok: bool, expected: map<Path, string>)
    ensures ok <==> DistinctPaths(lines) && forall i :: 0 <= i < |lines| ==> |lines[i].0| == 64
    ensures ok ==> expected.Keys == Paths(lines) && forall i :: 0 <= i < |lines| ==> expected[lines[i].1] == lines[i].0
  {
    expected := map[];
    for i := 0 to |lines|
      invariant forall p :: p in expected ==> exists j :: 0 <= j < i && lines[j].1 == p
      invariant forall j :: 0 <= j < i ==> lines[j].1 in expected && expected[lines[j].1] == lines[j].0
      invariant forall j, k :: 0 <= j < k < i ==> lines[j].1 != lines[k].1
      invariant forall j :: 0 <= j < i ==> |lines[j].0| == 64
    {
      if lines[i].1 in expected || |lines[i].0| != 64 { return false, expected; }
      expected := expected[lines[i].1 := lines[i].0];
    }
    ok := true;
  }

  method CheckLines(w: World, files: Files, lines: seq<(string, Path)>) returns (ok: bool)
    requires files.Keys == EXPECTED_FILES
    ensures ok <==> HashLines(w, files, lines)
  {
    hide DistinctPaths;
    var expected;
    ok, expected := CollectLines(lines);
    if !ok || expected.Keys != EXPECTED_FILES - {HashesSha256, IntegritySignature} { return false; }
    forall i | 0 <= i < |lines| ensures lines[i].1 in expected && lines[i].1 in files {
      assert lines[i].1 in Paths(lines);
      assert lines[i].1 in expected.Keys && lines[i].1 in EXPECTED_FILES;
    }
    ok := forall p :: p in expected ==> w.fileSha(files[p]) == expected[p];
    if !ok {
      var p :| p in expected && w.fileSha(files[p]) != expected[p];
      assert p in Paths(lines);
    }
  }

  method CheckDescriptors(w: World, files: Files, list: seq<Descriptor>) returns (ok: bool)
    requires files.Keys == EXPECTED_FILES
    ensures ok <==> Descriptors(w, files, list)
  {
    var descriptors: map<Path, Descriptor> := map[];
    for i := 0 to |list|
      invariant descriptors == Described(list[..i])
    {
      assert list[..i + 1][..i] == list[..i];
      descriptors := descriptors[list[i].path := list[i]];
    }
    assert list[..|list|] == list;
    if descriptors.Keys != EXPECTED_FILES - {ManifestJson, HashesSha256, IntegritySignature} { return false; }
    ok := forall p :: p in descriptors ==>
      descriptors[p].sha == w.fileSha(files[p]) && descriptors[p].size == w.fileSize(files[p]);
  }

  method CheckChain(h: Hashing<Event>, root: string, rows: seq<Row>, tip: string) returns (ok: bool)
    ensures ok <==> Chained(h, root, rows, tip)
  {
    hide Chained;
    var previous := root;
    ChainStarts(h, root);
    for i := 0 to |rows|
      invariant Chained(h, root, rows[..i], previous)
    {
      assert rows[..i + 1] == rows[..i] + [rows[i]];
      var expected := h.Link(previous, rows[i].event);
      ChainGrows(h, root, rows[..i], previous, rows[i]);
      if rows[i].evidenceHash != expected {
        if Chained(h, root, rows, tip) { ChainPrefix(h, root, rows, tip, i + 1); }
        return false;
      }
      previous := expected;
    }
    assert rows[..|rows|] == rows;
    SameChainSameTip(h, root, rows, previous, tip);
    ok := previous == tip;
  }

  lemma SameChainSameTip(h: Hashing<Event>, root: string, rows: seq<Row>, previous: string, tip: string)
    requires Chained(h, root, rows, previous)
    ensures Chained(h, root, rows, tip) <==> previous == tip
  {}

  lemma ChainPrefix(h: Hashing<Event>, root: string, rows: seq<Row>, tip: string, n: nat)
    requires 0 < n <= |rows| && Chained(h, root, rows, tip)
    ensures Chained(h, root, rows[..n], rows[n - 1].evidenceHash)
  {
    LinksPrefix(h, root, Events(rows), n);
    assert Events(rows)[..n] == Events(rows[..n]) && Hashes(rows)[..n] == Hashes(rows[..n]);
  }

  method VerifyResultBundle(w: World, files: Files) returns (r: Result<Manifest>)
    ensures r.Success? ==> Accepted(w, files, r.value)
    ensures r.Failure? ==> forall m :: !Accepted(w, files, m)
  {
    hide Identity, HashLines, Descriptors, Chained;
    if files.Keys != EXPECTED_FILES { return Failure("result bundle member set mismatch"); }
    if !files[ManifestJson].ManifestFile? { return Failure("invalid result manifest"); }
    var m := files[ManifestJson].manifest;
    var ok := ValidateIdentity(m.unsigned);
    if !w.schema(m) || !ok { return Failure("invalid result manifest"); }
    if !w.accepts(m.signature, m.unsigned) { return Failure("result signature verification failed"); }
    if files[IntegritySignature] != SignatureFile(m.signature) { return Failure("detached result signature mismatch"); }
    if !files[HashesSha256].HashesFile? { return Failure("invalid result hash manifest"); }
    ok := CheckLines(w, files, files[HashesSha256].lines);
    if !ok { return Failure("result artifact hash mismatch"); }
    ok := CheckDescriptors(w, files, m.unsigned.artifacts);
    if !ok { return Failure("result artifact descriptor mismatch"); }
    ok := CheckChain(w.h, m.unsigned.root, m.unsigned.events, m.unsigned.tip);
    if !ok { return Failure("event evidence chain failed"); }
    return Success(m);
  }

  // ---------- building ----------

  datatype NativeResult = NativeResult(
    events: seq<NativeEvent>, attribution: string, provenance: string, timeline: string, notes: string, iocs: string, stix: string)

  datatype Bundle = Bundle(files: Files, manifest: Manifest)

  /** The rows that speak of exfiltration, or link an access to a destination. */
  function Exfil(rows: seq<Row>): (r: seq<Row>)
    ensures forall row :: row in r <==> row in rows && row.event.kind in {"exfil", CORRELATION}
  {
    if rows == [] then []
    else (if rows[0].event.kind in {"exfil", CORRELATION} then [rows[0]] else []) + Exfil(rows[1..])
  }

  /** Which document a bundle for this analysis carries. */
  ghost predicate Describes(w: World, m: Manifest, keyId: string, context: Context, native: NativeResult, uuids: seq<string>)
    requires |native.events| <= |uuids|
  {
    var u := m.unsigned;
    && u.run == context.run && u.sample == context.sample && u.platform == context.platform && u.mode == ModeOf(context)
    && Events(u.events) == Normals(context, native.events, uuids) && u.root == context.manifestSha
    && Chained(w.h, u.root, u.events, u.tip) && u.caveats == context.caveats && u.header == context.header
    && m.keyId == keyId && m.signature == w.sign(u)
  }

  function ResultFiles(native: NativeResult, rows: seq<Row>): Files {
    map[NetworkEvents := EventsFile(rows), ExfilEvents := EventsFile(Exfil(rows)), Attribution := DocumentFile(native.attribution),
        Provenance := DocumentFile(native.provenance), Timeline := DocumentFile(native.timeline),
        AnalysisNotes := DocumentFile(native.notes), IocsCsv := DocumentFile(native.iocs), IocsStix := DocumentFile(native.stix)]
  }

  /** Each result file holds its own part of the analyzer's result, and the exfiltration file the rows that speak of
      exfiltration or link an access to a destination. */
  lemma ResultFilesMean(native: NativeResult, rows: seq<Row>)
    ensures var files := ResultFiles(native, rows);
      && files.Keys == EXPECTED_FILES - WRITTEN_LAST
      && files[NetworkEvents] == EventsFile(rows) && files[ExfilEvents].EventsFile?
      && (forall row :: row in files[ExfilEvents].rows <==> row in rows && row.event.kind in {"exfil", "correlation"})
      && files[Attribution] == DocumentFile(native.attribution) && files[Provenance] == DocumentFile(native.provenance)
      && files[Timeline] == DocumentFile(native.timeline) && files[AnalysisNotes] == DocumentFile(native.notes)
      && files[IocsCsv] == DocumentFile(native.iocs) && files[IocsStix] == DocumentFile(native.stix)
  {}

  predicate Accurate(w: World, files: Files, d: Descriptor) {
    d.path in files && d.sha == w.fileSha(files[d.path]) && d.size == w.fileSize(files[d.path])
  }

  lemma {:induction false} DescribedAccurately(w: World, files: Files, list: seq<Descriptor>, paths: seq<Path>)
    requires |list| == |paths| && forall i :: 0 <= i < |list| ==> list[i].path == paths[i] && Accurate(w, files, list[i])
    ensures Described(list).Keys == set i | 0 <= i < |paths| :: paths[i]
    ensures forall p :: p in Described(list) ==> Described(list)[p].path == p && Accurate(w, files, Described(list)[p])
    decreases |list|
  {
    if list != [] {
      var n := |list| - 1;
      DescribedAccurately(w, files, list[..n], paths[..n]);
      assert (set i | 0 <= i < |paths| :: paths[i]) == (set i | 0 <= i < n :: paths[..n][i]) + {paths[n]};
    }
  }

  method DescribeFiles(w: World, files: Files) returns (list: seq<Descriptor>)
    requires files.Keys == EXPECTED_FILES - {ManifestJson, HashesSha256, IntegritySignature}
    ensures Descriptors(w, files, list)
  {
    hide Described;
    list := [];
    for i := 0 to |RESULT_FILES|
      invariant |list| == i && forall j :: 0 <= j < i ==> list[j].path == RESULT_FILES[j] && Accurate(w, files, list[j])
    {
      var p := RESULT_FILES[i];
      list := list + [Descriptor(p, w.fileSha(files[p]), w.fileSize(files[p]))];
    }
    DescribedAccurately(w, files, list, RESULT_FILES);
    ResultFilesSet();
  }

  lemma ResultFilesSet()
    ensures (set i | 0 <= i < |RESULT_FILES| :: RESULT_FILES[i]) == EXPECTED_FILES - {ManifestJson, HashesSha256, IntegritySignature}
    ensures forall i, j :: 0 <= i < j < |RESULT_FILES| ==> RESULT_FILES[i] != RESULT_FILES[j]
  {
    var r := RESULT_FILES;
    var s := set i | 0 <= i < |r| :: r[i];
    assert r[0] in s && r[1] in s && r[2] in s && r[3] in s && r[4] in s && r[5] in s && r[6] in s && r[7] in s;
  }

  method HashFiles(w: World, files: Files) returns (lines: seq<(string, Path)>)
    requires Sane(w) && files.Keys == EXPECTED_FILES - {HashesSha256, IntegritySignature}
    ensures HashLines(w, files, lines)
  {
    var paths := RESULT_FILES + [ManifestJson];
    lines := [];
    ResultFilesSet();
    for i := 0 to |paths|
      invariant |lines| == i && forall j :: 0 <= j < i ==> lines[j].1 == paths[j] && paths[j] in files && lines[j].0 == w.fileSha(files[paths[j]])
    {
      lines := lines + [(w.fileSha(files[paths[i]]), paths[i])];
    }
    assert Paths(lines) == (set i | 0 <= i < |RESULT_FILES| :: RESULT_FILES[i]) + {ManifestJson} by {
      assert lines[8].1 == ManifestJson;
      forall i | 0 <= i < |RESULT_FILES| ensures RESULT_FILES[i] in Paths(lines) { assert lines[i].1 == RESULT_FILES[i]; }
    }
  }

  lemma HashLinesKept(w: World, files: Files, more: Files, lines: seq<(string, Path)>)
    requires HashLines(w, files, lines) && forall p :: p in files ==> p in more && more[p] == files[p]
    ensures HashLines(w, more, lines)
  {}

  /** `build`: what it returns is accepted, and verification gives the same manifest back. */
  method Build(w: World, keyId: string, context: Context, native: NativeResult, occupied: bool, uuids: seq<string>) returns (r: Result<Bundle>)
    requires Sane(w) && |native.events| <= |uuids|
    ensures r.Success? ==> Accepted(w, r.value.files, r.value.manifest)
    ensures r.Success? ==> Describes(w, r.value.manifest, keyId, context, native, uuids)
    ensures r.Success? ==>
              var results := ResultFiles(native, r.value.manifest.unsigned.events);
              forall p :: p in results ==> p in r.value.files && r.value.files[p] == results[p]
    ensures r.Failure? ==> occupied || exists m ::
              Describes(w, m, keyId, context, native, uuids) && (!w.schema(m) || !Identity(m.unsigned))
  {
    hide Identity, Accepted, Descriptors, Chained, Normals;
    if occupied { return Failure("result destination is not empty"); }
    var rows, root, tip := NormalizeEvents(w.h, context, native.events, uuids);
    var files := ResultFiles(native, rows);
    var artifacts := DescribeFiles(w, files);
    var u := Unsigned(context.run, context.sample, context.platform, ModeOf(context), rows, artifacts, context.caveats, root, tip, context.header);
    var m := Manifest(u, keyId, w.sign(u));
    var ok := ValidateIdentity(u);
    if !w.schema(m) || !ok {
      assert Describes(w, m, keyId, context, native, uuids);
      return Failure("c2/c2-result.schema.json");
    }
    var all := SealFiles(w, files, m);
    return Success(Bundle(all, m));
  }

  /** The files written after the manifest is found valid: the manifest, the hashes and the signature. */
  method SealFiles(w: World, files: Files, m: Manifest) returns (all: Files)
    requires Sane(w) && files.Keys == EXPECTED_FILES - {ManifestJson, HashesSha256, IntegritySignature}
    requires w.schema(m) && Identity(m.unsigned) && m.signature == w.sign(m.unsigned)
    requires Descriptors(w, files, m.unsigned.artifacts) && Chained(w.h, m.unsigned.root, m.unsigned.events, m.unsigned.tip)
    ensures Accepted(w, all, m)
    ensures forall p :: p in files ==> p in all && all[p] == files[p]
  {
    hide Identity, HashLines, Descriptors, Chained;
    var hashed := files[ManifestJson := ManifestFile(m)];
    var lines := HashFiles(w, hashed);
    all := hashed[HashesSha256 := HashesFile(lines)][IntegritySignature := SignatureFile(m.signature)];
    HashLinesKept(w, hashed, all, lines);
    DescriptorsKept(w, files, all, m.unsigned.artifacts);
  }

  lemma DescriptorsKept(w: World, files: Files, more: Files, list: seq<Descriptor>)
    requires Descriptors(w, files, list) && forall p :: p in files ==> p in more && more[p] == files[p]
    ensures Descriptors(w, more, list)
  {
    hide Described;
  }

  // ---------- what acceptance protects ----------

  /** No two result files of these bundles share a digest. */
  ghost predicate NoCollision(w: World, a: Files, b: Files) {
    forall p :: p in a && p in b && p !in WRITTEN_LAST && w.fileSha(a[p]) == w.fileSha(b[p]) ==> a[p] == b[p]
  }

  /** The hash list without its order. */
  function LineSet(f: File): set<(string, Path)> { if f.HashesFile? then set l | l in f.lines else {} }

  /** The same files, but for the order of the hash list. */
  ghost predicate SameFiles(a: Files, b: Files) {
    && a.Keys == b.Keys && (forall p :: p in a && p != HashesSha256 ==> b[p] == a[p])
    && HashesSha256 in a && a[HashesSha256].HashesFile? && b[HashesSha256].HashesFile?
    && LineSet(a[HashesSha256]) == LineSet(b[HashesSha256]) && DistinctPaths(b[HashesSha256].lines)
  }

  lemma SameResultFile(w: World, a: Files, b: Files, m: Manifest, p: Path)
    requires Accepted(w, a, m) && Accepted(w, b, m) && NoCollision(w, a, b)
    requires p in EXPECTED_FILES && p !in WRITTEN_LAST
    ensures a[p] == b[p]
  {
    hide Identity, HashLines, Chained, Described;
    assert p in Described(m.unsigned.artifacts).Keys;
  }

  lemma HashLineOf(w: World, files: Files, lines: seq<(string, Path)>, l: (string, Path))
    requires files.Keys == EXPECTED_FILES && HashLines(w, files, lines)
    ensures l in lines <==> l.1 in EXPECTED_FILES - {HashesSha256, IntegritySignature} && l.0 == w.fileSha(files[l.1])
  {
    hide DistinctPaths;
    if l.1 in EXPECTED_FILES - {HashesSha256, IntegritySignature} && l.0 == w.fileSha(files[l.1]) {
      assert l.1 in Paths(lines);
      var i :| 0 <= i < |lines| && lines[i].1 == l.1;
      assert lines[i] == l;
    }
    if l in lines {
      var i :| 0 <= i < |lines| && lines[i] == l;
      assert lines[i].1 in Paths(lines);
    }
  }

  lemma SameHashLines(w: World, a: Files, b: Files)
    requires a.Keys == b.Keys == EXPECTED_FILES && a[HashesSha256].HashesFile? && b[HashesSha256].HashesFile?
    requires HashLines(w, a, a[HashesSha256].lines) && HashLines(w, b, b[HashesSha256].lines)
    requires forall p :: p in a && p != HashesSha256 ==> b[p] == a[p]
    ensures LineSet(a[HashesSha256]) == LineSet(b[HashesSha256])
  {
    hide HashLines;
    forall l ensures l in LineSet(a[HashesSha256]) <==> l in LineSet(b[HashesSha256]) {
      HashLineOf(w, a, a[HashesSha256].lines, l);
      HashLineOf(w, b, b[HashesSha256].lines, l);
    }
  }

  lemma SameLinesAreHashLines(w: World, a: Files, b: Files)
    requires a.Keys == EXPECTED_FILES && a[HashesSha256].HashesFile? && HashLines(w, a, a[HashesSha256].lines) && SameFiles(a, b)
    ensures HashLines(w, b, b[HashesSha256].lines)
  {
    hide DistinctPaths;
    var x, y := a[HashesSha256].lines, b[HashesSha256].lines;
    var named := EXPECTED_FILES - {HashesSha256, IntegritySignature};
    forall l ensures l in y <==> l.1 in named && l.0 == w.fileSha(b[l.1]) {
      HashLineOf(w, a, x, l);
      assert l in y <==> l in LineSet(b[HashesSha256]);
      assert l in x <==> l in LineSet(a[HashesSha256]);
    }
    forall i | 0 <= i < |y| ensures y[i].1 in named && y[i].0 == w.fileSha(b[y[i].1]) && |y[i].0| == 64 {
      assert y[i] in y;
      assert y[i] in LineSet(a[HashesSha256]);
    }
    forall p | p in named ensures p in Paths(y) {
      assert (w.fileSha(b[p]), p) in y;
    }
    assert Paths(y) == named;
  }

  /** A signed manifest fixes its bundle: given one accepted bundle and no collisions, whatever is offered with
      the same manifest is accepted if and only if it is the same files, the hash list in any order. */
  lemma ManifestFixesFiles(w: World, a: Files, b: Files, m: Manifest)
    requires Accepted(w, a, m) && NoCollision(w, a, b)
    ensures Accepted(w, b, m) <==> SameFiles(a, b)
  {
    hide Identity, HashLines, Descriptors, Chained, DistinctPaths;
    if Accepted(w, b, m) {
      forall p | p in a && p != HashesSha256 ensures b[p] == a[p] {
        if p !in WRITTEN_LAST { SameResultFile(w, a, b, m, p); }
      }
      SameHashLines(w, a, b);
      assert DistinctPaths(b[HashesSha256].lines) by { HashLinesDistinct(w, b, b[HashesSha256].lines); }
    }
    if SameFiles(a, b) {
      SameLinesAreHashLines(w, a, b);
      SameDescriptors(w, a, b, m.unsigned.artifacts);
    }
  }

  lemma HashLinesDistinct(w: World, files: Files, lines: seq<(string, Path)>)
    requires HashLines(w, files, lines)
    ensures DistinctPaths(lines)
  {}

  lemma SameDescriptors(w: World, a: Files, b: Files, list: seq<Descriptor>)
    requires Descriptors(w, a, list) && SameFiles(a, b)
    ensures Descriptors(w, b, list)
  {
    hide Described;
  }

  /** One result file of an accepted bundle is replaced, and the hash list rewritten at will: it is refused. */
  method ReplacedFileRefused(w: World, files: Files, m: Manifest, p: Path, f: File, lines: seq<(string, Path)>) returns (r: Result<Manifest>)
    requires Accepted(w, files, m) && p in EXPECTED_FILES && p !in WRITTEN_LAST
    requires w.fileSha(f) != w.fileSha(files[p])
    ensures r.Failure?
  {
    hide Identity, HashLines, Descriptors, Chained;
    var changed := files[p := f][HashesSha256 := HashesFile(lines)];
    r := VerifyResultBundle(w, changed);
    if r.Success? {
      SameManifestFile(w, files, m, changed, r.value);
      ManifestFixesFiles(w, files, changed, m);
      DiffersAt(w, files, changed, p);
    }
  }

  lemma SameManifestFile(w: World, a: Files, m: Manifest, b: Files, n: Manifest)
    requires Accepted(w, a, m) && Accepted(w, b, n) && a.Keys == b.Keys && a[ManifestJson] == b[ManifestJson]
    ensures m == n
  {
    hide Identity, HashLines, Descriptors, Chained;
  }

  lemma DiffersAt(w: World, a: Files, b: Files, p: Path)
    requires p in a && p in b && p != HashesSha256 && a[p] != b[p]
    ensures !SameFiles(a, b)
  {}

  /** If the key only ever signed the manifests of these bundles, every accepted bundle holds the manifest and
      the result files of one of them. */
  lemma OnlySignedIsAccepted(w: World, signed: seq<Bundle>, files: Files, m: Manifest)
    requires Accepted(w, files, m)
    requires forall i :: 0 <= i < |signed| ==> Accepted(w, signed[i].files, signed[i].manifest) && NoCollision(w, signed[i].files, files)
    requires forall s, u :: w.accepts(s, u) ==> exists i :: 0 <= i < |signed| && signed[i].manifest.unsigned == u
    ensures exists i :: 0 <= i < |signed| && signed[i].manifest.unsigned == m.unsigned
              && forall p :: p in EXPECTED_FILES && p !in WRITTEN_LAST ==>
                   p in files && p in signed[i].files && files[p] == signed[i].files[p]
  {
    hide Identity, HashLines, Chained, Described;
    assert w.accepts(m.signature, m.unsigned);
    var i :| 0 <= i < |signed| && signed[i].manifest.unsigned == m.unsigned;
    var a := signed[i].files;
    forall p | p in EXPECTED_FILES && p !in WRITTEN_LAST ensures p in files && files[p] == a[p] {
      assert p in Described(m.unsigned.artifacts).Keys;
    }
  }
}
