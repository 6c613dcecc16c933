/** Android data-access claims from the telemetry to the bundle: how an access is associated with a network
    observation, and that what is associated survives normalisation and passes both gates. */
module AndroidCorrelation {
  import opened Tables
  import opened HashChain
  import opened C2Bundle

  // ---------- two bundles with one chain ----------

  /** Accepted event lists with one root, one length and one tip are the same list. */
  lemma SameChainSameEvents(w: World, a: Files, m: Manifest, b: Files, n: Manifest)
    requires Sane(w) && Accepted(w, a, m) && Accepted(w, b, n)
    requires m.unsigned.root == n.unsigned.root && |m.unsigned.root| == 64 && m.unsigned.tip == n.unsigned.tip
    requires |m.unsigned.events| == |n.unsigned.events|
    requires CollisionFree(w.h, Inputs(w.h, m.unsigned.root, Events(m.unsigned.events))
                                + Inputs(w.h, n.unsigned.root, Events(n.unsigned.events)))
    ensures m.unsigned.events == n.unsigned.events
  {
    hide Inputs, Links, CollisionFree, Regular, Identity, HashLines, Descriptors;
    var x, y := m.unsigned.events, n.unsigned.events;
    SameLengthSameChain(w.h, m.unsigned.root, Events(x), Events(y));
    forall i | 0 <= i < |x| ensures x[i] == y[i] {
      assert Events(x)[i] == Events(y)[i] && Hashes(x)[i] == Hashes(y)[i];
    }
  }

  // ---------- which native events a bundle may hold ----------

  /** The kind a native event is given. */
  function KindOf(context: Context, native: NativeEvent): string {
    TextOr(native.findingKind, FindingKind(native, !Withheld(context) && Truthy(native.dataType)))
  }

  /** A native event claims no data access, or is a temporal correlation with its host reference. */
  predicate Supported(context: Context, native: NativeEvent) {
    native.dataType.Some? || native.accessCall.Some? ==>
      && KindOf(context, native) == CORRELATION && native.caveat == Some(TEMPORAL_ONLY)
      && exists r :: r in native.refs && HostRef(r)
  }

  lemma EntriesKeepHostRefs(refs: seq<Ref>)
    ensures (exists r :: r in AsEntries(refs) && HostRef(r)) <==> exists r :: r in refs && HostRef(r)
  {
    if r :| r in refs && HostRef(r) {
      var i :| 0 <= i < |refs| && refs[i] == r;
      assert AsEntries(refs)[i] == r;
    }
    if r :| r in AsEntries(refs) && HostRef(r) {
      var i :| 0 <= i < |refs| && AsEntries(refs)[i] == r;
      assert refs[i] == r;
    }
  }

  lemma NormalSupported(context: Context, native: NativeEvent, uuid: string, first: bool, u: Unsigned)
    requires u.run == context.run && u.sample == context.sample && u.platform == context.platform && u.mode == ModeOf(context)
    ensures EventIdentity(u, Normal(context, native, uuid, first)) <==>
              (context.platform.Android? && context.eligible ==> Supported(context, native))
  {
    EntriesKeepHostRefs(native.refs);
  }

  /** A build for Android with usable telemetry meets the identity gate exactly when each of its native
      events is supported; any other build always does. */
  lemma BuiltIdentity(w: World, m: Manifest, keyId: string, context: Context, native: NativeResult, uuids: seq<string>)
    requires |native.events| <= |uuids| && Describes(w, m, keyId, context, native, uuids)
    ensures Identity(m.unsigned) <==>
              (context.platform.Android? && context.eligible ==> forall n :: n in native.events ==> Supported(context, n))
  {
    hide Chained, Supported, EventIdentity, Normal;
    var u := m.unsigned;
    forall i | 0 <= i < |u.events|
      ensures EventIdentity(u, u.events[i].event) <==>
                (context.platform.Android? && context.eligible ==> Supported(context, native.events[i]))
    {
      assert Events(u.events)[i] == Normals(context, native.events, uuids)[i];
      NormalSupported(context, native.events[i], uuids[i], i == 0, u);
    }
    if forall n :: n in native.events ==> Supported(context, n) {
      forall i | 0 <= i < |native.events| ensures Supported(context, native.events[i]) { assert native.events[i] in native.events; }
    }
    assert |u.events| == |native.events| by { assert |Events(u.events)| == |Normals(context, native.events, uuids)|; }
  }

  // ---------- the two gates ----------

  /** Claims of data access that are there but empty: claims to the validator, none to the adapter. */
  predicate EmptyClaims(e: Event) { Claims(e) && !AdapterClaims(e) }

  /** An event that names another run, sample or platform than its document. */
  predicate Misnamed(u: Unsigned, e: Event) { e.caseId != u.run || e.sampleId != u.sample || e.platform != u.platform }

  /** An event on which the two gates decide differently: the adapter looks at no event's names, and at empty
      claims neither. */
  predicate Parts(u: Unsigned, e: Event) { Misnamed(u, e) || (u.platform.Android? && EmptyClaims(e) && !Evidenced(u.mode, e)) }

  predicate IsExpected(m: Manifest, x: Expected) {
    m.unsigned.run == x.run && m.unsigned.sample == x.sample && m.unsigned.platform == x.platform && m.keyId == x.executor
  }

  /** Of an expected document the adapter accepts all that the validator accepts; of what the adapter accepts,
      the validator refuses exactly the documents with an event on which the gates part. */
  lemma GatesPart(m: Manifest, x: Expected)
    ensures Identity(m.unsigned) && IsExpected(m, x) ==> AdapterIdentity(m, x)
    ensures AdapterIdentity(m, x) ==>
              (Identity(m.unsigned) <==> forall i :: 0 <= i < |m.unsigned.events| ==> !Parts(m.unsigned, m.unsigned.events[i].event))
  {
    hide Evidenced;
    var u := m.unsigned;
    if Identity(u) && IsExpected(m, x) { GatesAgree(m, x); }
    forall i | 0 <= i < |u.events| && AdapterIdentity(m, x)
      ensures EventIdentity(u, u.events[i].event) <==> !Parts(u, u.events[i].event)
    {}
  }

  /** Both gates on one document. */
  method BothGates(m: Manifest, x: Expected) returns (validator: bool, adapter: bool)
    ensures validator == Identity(m.unsigned) && adapter == AdapterIdentity(m, x)
    ensures validator && IsExpected(m, x) ==> adapter
    ensures adapter ==> (!validator <==> exists i :: 0 <= i < |m.unsigned.events| && Parts(m.unsigned, m.unsigned.events[i].event))
  {
    hide Parts, EventIdentity, Identity, AdapterIdentity;
    validator := ValidateIdentity(m.unsigned);
    adapter := CheckIdentity(m, x);
    GatesPart(m, x);
  }

  /** An observation without evidence whose data type is the empty string. */
  function EmptyClaim(id: string, run: string, sample: string): Event {
    Event(id, sample, run, Android, "2024-01-01T00:00:00Z", None, Some("host.example"), None, Some(443), Some(""), None,
          "network_observation", None, None, "The sample communicated with host.example.", Some("weak"), None, None, [], map[])
  }

  /** A document with that event: the validator refuses it, the adapter lets it through. */
  method EmptyClaimParts(id: string, run: string, sample: string, executor: string, hash: string) returns (m: Manifest, validator: bool, adapter: bool)
    ensures m.unsigned.events == [Row(EmptyClaim(id, run, sample), hash)] && m.unsigned.mode == Temporal
    ensures validator == Identity(m.unsigned) && adapter == AdapterIdentity(m, Expected(run, sample, Android, executor))
    ensures !validator && adapter
  {
    var row := Row(EmptyClaim(id, run, sample), hash);
    m := Manifest(Unsigned(run, sample, Android, Temporal, [row], [], {}, "", "", ""), executor, "");
    validator, adapter := BothGates(m, Expected(run, sample, Android, executor));
    assert m.unsigned.events[0].event == row.event && !EventIdentity(m.unsigned, row.event);
  }

  // ---------- associating accesses with network observations ----------

  /** A telemetry event; its time and its uncertainty in milliseconds are None where they do not parse. */
  datatype Access = Access(
    time: Option<real>, uncertainty: Option<real>, dataType: Option<string>, apiCall: Option<string>, details: map<string, Json>)

  /** A network event and the time it parses to. */
  datatype Candidate = Candidate(time: real, event: NativeEvent)

  function Abs(x: real): real { if x < 0.0 then -x else x }

  function Min(x: real, y: real): real { if y < x then y else x }

  /** Seconds an access and an observation may lie apart. */
  function Tolerance(uncertainty: real): (r: real)
    ensures 5.0 <= r <= 30.0
  {
    var wide := uncertainty / 1000.0 + 5.0;
    Min(30.0, if 5.0 < wide then wide else 5.0)
  }

  /** An observation is within reach if it is at most half a minute away, and at most five seconds, or five more
      than the access's uncertainty in milliseconds says. */
  lemma ReachExactly(c: Candidate, time: real, uncertainty: real)
    ensures var apart := if c.time < time then time - c.time else c.time - time;
      Within(c, time, Tolerance(uncertainty)) <==> apart <= 30.0 && (apart <= 5.0 || 1000.0 * (apart - 5.0) <= uncertainty)
  {}

  function Destination(n: NativeEvent): string { TextOr(n.domain, TextOr(n.ip, "")) }

  function Delta(c: Candidate, time: real): real { Abs(c.time - time) }

  predicate Within(c: Candidate, time: real, tolerance: real) { Delta(c, time) <= tolerance }

  predicate StringLess(a: string, b: string) {
    b != [] && (a == [] || a[0] < b[0] || (a[0] == b[0] && StringLess(a[1..], b[1..])))
  }

  /** The order of `min`: the delta first, the destination where deltas are equal. */
  predicate Nearer(a: Candidate, b: Candidate, time: real) {
    || Delta(a, time) < Delta(b, time)
    || (Delta(a, time) == Delta(b, time) && StringLess(Destination(a.event), Destination(b.event)))
  }

  lemma {:induction false} StringLessTransitive(a: string, b: string, c: string)
    requires !StringLess(b, a) && StringLess(c, a)
    ensures StringLess(c, b)
    decreases |a|
  {
    if b != [] && c != [] && a[0] == b[0] && c[0] == a[0] {
      StringLessTransitive(a[1..], b[1..], c[1..]);
    }
  }

  /** Of the candidates within reach the nearest, and the first of those that are equally near. */
  ghost predicate Chosen(candidates: seq<Candidate>, time: real, tolerance: real, k: nat) {
    && k < |candidates| && Within(candidates[k], time, tolerance)
    && forall i :: 0 <= i < |candidates| && Within(candidates[i], time, tolerance) ==>
         !Nearer(candidates[i], candidates[k], time) && (i < k ==> Nearer(candidates[k], candidates[i], time))
  }

  method Nearest(candidates: seq<Candidate>, time: real, tolerance: real) returns (k: Option<nat>)
    ensures k.Some? ==> Chosen(candidates, time, tolerance, k.value)
    ensures k.None? ==> forall i :: 0 <= i < |candidates| ==> !Within(candidates[i], time, tolerance)
  {
    k := None;
    for i := 0 to |candidates|
      invariant k.Some? ==> k.value < i && Chosen(candidates[..i], time, tolerance, k.value)
      invariant k.None? ==> forall j :: 0 <= j < i ==> !Within(candidates[j], time, tolerance)
    {
      if Within(candidates[i], time, tolerance) {
        if k.None? || Nearer(candidates[i], candidates[k.value], time) {
          ghost var before := k;
          k := Some(i);
          forall j | 0 <= j <= i && Within(candidates[j], time, tolerance)
            ensures !Nearer(candidates[j], candidates[i], time) && (j < i ==> Nearer(candidates[i], candidates[j], time))
          {
            if before.Some? && j < i {
              assert candidates[..i][j] == candidates[j];
              NearerTransitive(candidates[j], candidates[before.value], candidates[i], time);
            } else if j == i {
              StringLessIrreflexive(Destination(candidates[i].event));
            }
          }
        }
      }
    }
    assert candidates[..|candidates|] == candidates;
  }

  lemma {:induction false} StringLessIrreflexive(a: string)
    ensures !StringLess(a, a)
    decreases |a|
  {
    if a != [] { StringLessIrreflexive(a[1..]); }
  }

  lemma {:induction false} StringLessAsymmetric(a: string, b: string)
    requires StringLess(a, b)
    ensures !StringLess(b, a)
    decreases |a|
  {
    if a != [] && a[0] == b[0] { StringLessAsymmetric(a[1..], b[1..]); }
  }

  /** If a is not nearer than b, and c is nearer than b, then c is nearer than a, and a not than c. */
  lemma NearerTransitive(a: Candidate, b: Candidate, c: Candidate, time: real)
    requires !Nearer(a, b, time) && Nearer(c, b, time)
    ensures !Nearer(a, c, time) && Nearer(c, a, time)
  {
    var x, y, z := Destination(a.event), Destination(b.event), Destination(c.event);
    if Delta(a, time) == Delta(b, time) == Delta(c, time) {
      StringLessTransitive(y, x, z);
      StringLessAsymmetric(z, x);
    }
  }

  /** The reference an association rests on. */
  function HostAccess(access: Access, artifact: map<string, Json>, delta: real): Ref {
    Entry(access.details + artifact + map["type" := Str("host_access"), "source" := Str("android_telemetry"), "time_delta_s" := Number(delta)])
  }

  /** The event emitted for an access and the observation nearest to it. */
  function Associated(access: Access, c: Candidate, artifact: map<string, Json>, show: real -> string): NativeEvent
    requires access.time.Some?
  {
    var delta := Delta(c, access.time.value);
    c.event.(
      eventId := None, dataType := access.dataType, accessCall := access.apiCall, findingKind := Some(CORRELATION),
      score := Some(Min(0.55, if c.event.score.Some? && c.event.score.value != 0.0 then c.event.score.value else 0.4)),
      tier := Some(Some("weak")), technique := None,
      plain := Some("The Android app accessed " + Spaced(if access.dataType.Some? then access.dataType.value else "None")
                    + " and traffic to " + Destination(c.event) + " was observed within " + show(delta) + " seconds. "
                    + "The timing association does not prove that this information was sent."),
      caveat := Some(TEMPORAL_ONLY), refs := AsEntries(c.event.refs) + [HostAccess(access, artifact, delta)])
  }

  /** An associated event is the observation, at its time and to its destination, with the access's claim, never
      scored above 0.55 or above a score the observation has; it keeps the observation's references and adds one
      that names the access and how far apart they are. */
  lemma AssociatedMeans(access: Access, c: Candidate, artifact: map<string, Json>, show: real -> string)
    requires access.time.Some?
    ensures var e := Associated(access, c, artifact, show);
      && e.timestamp == c.event.timestamp && e.domain == c.event.domain && e.ip == c.event.ip && e.port == c.event.port
      && e.dataType == access.dataType && e.accessCall == access.apiCall && e.eventId == None && e.technique == None
      && e.score.Some? && e.score.value <= 0.55 && (c.event.score.Some? && c.event.score.value != 0.0 ==> e.score.value <= c.event.score.value)
      && |e.refs| == |c.event.refs| + 1 && (forall i :: 0 <= i < |c.event.refs| && c.event.refs[i].Entry? ==> e.refs[i] == c.event.refs[i])
      && var host := e.refs[|c.event.refs|];
         && host.Entry? && "type" in host.fields && host.fields["type"] == Str("host_access")
         && "source" in host.fields && host.fields["source"] == Str("android_telemetry")
         && "time_delta_s" in host.fields
         && host.fields["time_delta_s"] == Number(if c.time < access.time.value then access.time.value - c.time else c.time - access.time.value)
  {
    hide Spaced;
  }

  /** An observation that names a destination and has a time. */
  predicate Observed(n: NativeEvent) { Truthy(n.domain) || Truthy(n.ip) }

  /** The candidates: the observations whose timestamp parses, in their order. */
  function Candidates(network: seq<(NativeEvent, Option<real>)>): seq<Candidate>
    decreases |network|
  {
    if network == [] then [] else
      var last := network[|network| - 1];
      Candidates(network[..|network| - 1])
      + if Observed(last.0) && last.1.Some? then [Candidate(last.1.value, last.0)] else []
  }

  predicate Usable(access: Access) { access.time.Some? && access.uncertainty.Some? }

  /** The emitted event is that of a usable access and of the nearest observation within reach. */
  ghost predicate ExplainedBy(candidates: seq<Candidate>, access: Access, emitted: NativeEvent, artifact: map<string, Json>, show: real -> string, k: nat) {
    && Usable(access) && k < |candidates| && Chosen(candidates, access.time.value, Tolerance(access.uncertainty.value), k)
    && emitted == Associated(access, candidates[k], artifact, show)
  }

  ghost predicate Explains(candidates: seq<Candidate>, access: Access, emitted: NativeEvent, artifact: map<string, Json>, show: real -> string) {
    exists k: nat :: ExplainedBy(candidates, access, emitted, artifact, show, k)
  }

  ghost predicate Unreached(candidates: seq<Candidate>, access: Access) {
    Usable(access) ==> forall i :: 0 <= i < |candidates| ==> !Within(candidates[i], access.time.value, Tolerance(access.uncertainty.value))
  }

  /** The emitted events are those of the accesses at these positions, and all other accesses reach nothing. */
  ghost predicate Correlates(candidates: seq<Candidate>, accesses: seq<Access>, emitted: seq<NativeEvent>, at: seq<nat>, artifact: map<string, Json>, show: real -> string) {
    && |at| == |emitted|
    && (forall i :: 0 <= i < |at| ==> at[i] < |accesses| && Explains(candidates, accesses[at[i]], emitted[i], artifact, show))
    && (forall i, j :: 0 <= i < j < |at| ==> at[i] < at[j])
    && (forall i :: 0 <= i < |accesses| && i !in at ==> Unreached(candidates, accesses[i]))
  }

  const ACCESS_LIMIT: nat := 100000

  function Considered(accesses: seq<Access>): seq<Access> {
    if |accesses| <= ACCESS_LIMIT then accesses else accesses[..ACCESS_LIMIT]
  }

  method CollectCandidates(network: seq<(NativeEvent, Option<real>)>) returns (candidates: seq<Candidate>)
    ensures candidates == Candidates(network)
  {
    candidates := [];
    for i := 0 to |network|
      invariant candidates == Candidates(network[..i])
    {
      assert network[..i + 1][..i] == network[..i];
      if Observed(network[i].0) && network[i].1.Some? {
        candidates := candidates + [Candidate(network[i].1.value, network[i].0)];
      }
    }
    assert network[..|network|] == network;
  }

  lemma NothingCorrelated(candidates: seq<Candidate>, accesses: seq<Access>, artifact: map<string, Json>, show: real -> string)
    requires accesses == []
    ensures Correlates(candidates, accesses, [], [], artifact, show)
  {}

  /** One more access: it reaches nothing, or it adds the event it explains. */
  lemma CorrelatesNext(candidates: seq<Candidate>, before: seq<Access>, access: Access, emitted: seq<NativeEvent>, at: seq<nat>, artifact: map<string, Json>, show: real -> string)
    requires Correlates(candidates, before, emitted, at, artifact, show)
    ensures Unreached(candidates, access) ==> Correlates(candidates, before + [access], emitted, at, artifact, show)
    ensures forall e :: Explains(candidates, access, e, artifact, show) ==>
              Correlates(candidates, before + [access], emitted + [e], at + [|before|], artifact, show)
  {
    hide Explains, Unreached;
    var all := before + [access];
    forall i | 0 <= i < |all| && i !in at + [|before|] ensures Unreached(candidates, all[i]) {
      assert i < |before| && i !in at;
    }
  }

  /** `_correlate_android_access`. */
  method CorrelateAndroidAccess(network: seq<(NativeEvent, Option<real>)>, accesses: seq<Access>, artifact: map<string, Json>, show: real -> string)
    returns (correlated: seq<NativeEvent>)
    ensures exists at :: Correlates(Candidates(network), Considered(accesses), correlated, at, artifact, show)
  {
    hide Associated, Tolerance, Chosen, Delta, Correlates, Candidates, Considered;
    var candidates := CollectCandidates(network);
    var all := Considered(accesses);
    correlated := [];
    ghost var at: seq<nat> := [];
    NothingCorrelated(candidates, all[..0], artifact, show);
    for i := 0 to |all|
      invariant Correlates(candidates, all[..i], correlated, at, artifact, show)
    {
      var access := all[i];
      assert all[..i + 1] == all[..i] + [access];
      CorrelatesNext(candidates, all[..i], access, correlated, at, artifact, show);
      if Usable(access) {
        var k := Nearest(candidates, access.time.value, Tolerance(access.uncertainty.value));
        if k.Some? {
          ChosenInRange(candidates, access.time.value, Tolerance(access.uncertainty.value), k.value);
          var event := Associated(access, candidates[k.value], artifact, show);
          assert ExplainedBy(candidates, access, event, artifact, show, k.value);
          correlated, at := correlated + [event], at + [i];
        }
      }
    }
    assert all[..|all|] == all;
  }

  lemma ChosenInRange(candidates: seq<Candidate>, time: real, tolerance: real, k: nat)
    requires Chosen(candidates, time, tolerance, k)
    ensures k < |candidates|
  {}

  // ---------- what was associated survives ----------

  /** Whatever the telemetry says, an associated event keeps its claim, its kind, its caveat and its host
      reference through normalisation, and both gates let it through. */
  lemma AssociatedSurvives(candidates: seq<Candidate>, access: Access, emitted: NativeEvent, artifact: map<string, Json>, show: real -> string,
                           context: Context, uuid: string, first: bool, u: Unsigned)
    requires Explains(candidates, access, emitted, artifact, show) && context.platform.Android? && context.eligible
    requires u.run == context.run && u.sample == context.sample && u.platform == context.platform && u.mode == ModeOf(context)
    ensures var e := Normal(context, emitted, uuid, first);
      && e.dataType == access.dataType && e.accessCall == access.apiCall
      && e.kind == CORRELATION && e.caveat == Some(TEMPORAL_ONLY) && e.tier == Some("weak")
      && EventIdentity(u, e) && Evidenced(u.mode, e)
  {
    hide Chosen, Tolerance, Delta, Min, Spaced;
    var k: nat :| ExplainedBy(candidates, access, emitted, artifact, show, k);
    var host := HostAccess(access, artifact, Delta(candidates[k], access.time.value));
    assert HostRef(host) && host in emitted.refs;
    EntriesKeepHostRefs(emitted.refs);
  }

  /** The same for the whole list: analyzer events without data-access claims, and every associated event,
      make a bundle that both gates accept for the adapter that expects it. */
  lemma CorrelatedBundlePasses(w: World, m: Manifest, keyId: string, context: Context, native: NativeResult, uuids: seq<string>, network: seq<NativeEvent>,
                               candidates: seq<Candidate>, accesses: seq<Access>, correlated: seq<NativeEvent>, at: seq<nat>,
                               artifact: map<string, Json>, show: real -> string)
    requires |native.events| <= |uuids| && Describes(w, m, keyId, context, native, uuids)
    requires native.events == network + correlated && forall n :: n in network ==> n.dataType.None? && n.accessCall.None?
    requires Correlates(candidates, accesses, correlated, at, artifact, show)
    requires context.platform.Android? && context.eligible
    ensures Identity(m.unsigned) && AdapterIdentity(m, Expected(context.run, context.sample, Android, keyId))
  {
    hide Chained, Identity, AdapterIdentity, Explains, Evidenced;
    forall n | n in native.events ensures Supported(context, n) {
      if n !in network {
        var i :| 0 <= i < |correlated| && correlated[i] == n;
        SupportedAssociation(candidates, accesses[at[i]], n, artifact, show, context);
      }
    }
    BuiltIdentity(w, m, keyId, context, native, uuids);
    GatesAgree(m, Expected(context.run, context.sample, Android, keyId));
  }

  lemma SupportedAssociation(candidates: seq<Candidate>, access: Access, emitted: NativeEvent, artifact: map<string, Json>, show: real -> string, context: Context)
    requires Explains(candidates, access, emitted, artifact, show)
    ensures Supported(context, emitted)
  {
    hide Chosen, Tolerance, Delta, Min, Spaced;
    var k: nat :| ExplainedBy(candidates, access, emitted, artifact, show, k);
    var host := HostAccess(access, artifact, Delta(candidates[k], access.time.value));
    assert HostRef(host) && emitted.refs[|emitted.refs| - 1] == host;
  }
}
