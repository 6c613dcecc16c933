/** The way of an observation from the analyzer's events to the report: the coalescing pass, normalisation,
    the adapter, and the pass of the report. Normalisation writes neither a count nor a list of observed
    addresses, so what the first pass counted is not what the report counts. */
module EvidencePath {
  import opened Tables
  import opened Coalescing
  import opened Conservation
  import opened Verdicts
  import C2Bundle

  // ---------- the way ----------

  /** The members of a coalesced event that normalisation reads; a kind or a tier that is absent is "". */
  function Emitted(row: RowData): C2Bundle.NativeEvent {
    C2Bundle.NativeEvent(
      Some(row.id), row.timestamp, row.domain, row.ip, row.port, row.members.dataType, row.members.accessCall, Some(row.kind),
      row.members.technique, row.members.reputation, row.text, if row.confidence == "" then None else Some(Some(row.confidence)),
      if row.caveats == [] then None else Some(row.caveats[0]), row.members.score, row.refs, map[])
  }

  /** What the adapter persists of a normalised event: the event is the finding's details, and its contract
      has no member for a count, for observed addresses or for a protocol. */
  function Persisted(e: C2Bundle.Event, id: string, stage: string): C2Finding {
    C2Finding(id, stage, e.platform.Android?, e.kind, if e.tier.Some? then e.tier.value else "None", e.plain, e.caveat,
              Some(e.timestamp), e.domain, e.ip, e.port, None, None, {}, e.refs, {}, map[])
  }

  /** Where events are normalised and persisted, and the ids they get on the way. */
  datatype Way = Way(sources: Sources, context: C2Bundle.Context, stage: string, uuids: nat -> string, ids: nat -> string)

  /** The finding the i-th native event becomes. */
  function Carry(way: Way, native: C2Bundle.NativeEvent, i: nat): C2Finding {
    Persisted(C2Bundle.Normal(way.context, native, way.uuids(i), i == 0), way.ids(i), way.stage)
  }

  function Carried(way: Way, natives: seq<C2Bundle.NativeEvent>): seq<C2Finding>
    decreases |natives|
  {
    if natives == [] then [] else
      var n := |natives| - 1;
      Carried(way, natives[..n]) + [Carry(way, natives[n], n)]
  }

  function AllEmitted(rows: seq<RowData>): seq<C2Bundle.NativeEvent>
    decreases |rows|
  {
    if rows == [] then [] else AllEmitted(rows[..|rows| - 1]) + [Emitted(rows[|rows| - 1])]
  }

  /** The coalesced findings of the report on these native events. */
  function ReportOf(way: Way, windows: seq<PlatformFinding>, android: seq<PlatformFinding>, natives: seq<C2Bundle.NativeEvent>): seq<RowData> {
    Coalesced(ReportPass, Projected(way.sources, windows, android, Carried(way, natives)))
  }

  /** The number of observations the report counts, of events that the first pass has coalesced. */
  function Reported(way: Way, windows: seq<PlatformFinding>, android: seq<PlatformFinding>, rows: seq<RowData>): int {
    Total(ReportPass, ReportOf(way, windows, android, AllEmitted(Coalesced(RuntimePass, rows))))
  }

  // ---------- which events the report counts ----------

  /** The kind and the caveat an event gets when it is normalised. */
  function KindOf(context: C2Bundle.Context, native: C2Bundle.NativeEvent): string {
    C2Bundle.TextOr(native.findingKind, C2Bundle.FindingKind(native, !C2Bundle.Withheld(context) && C2Bundle.Truthy(native.dataType)))
  }

  function CaveatOf(context: C2Bundle.Context, native: C2Bundle.NativeEvent): Option<string> {
    if C2Bundle.Truthy(native.caveat) then native.caveat
    else if C2Bundle.Withheld(context) then Some(C2Bundle.NETWORK_ONLY) else None
  }

  /** The report counts a network observation, and any other event but a static indicator for which no
      process of the sample is known. */
  predicate Counts(context: C2Bundle.Context, native: C2Bundle.NativeEvent) {
    var kind, caveat := KindOf(context, native), CaveatOf(context, native);
    || kind == "network_observation"
    || (kind != "static_ioc"
        && (caveat == Some(NOT_SAMPLE) || caveat == Some(UNATTRIBUTED) || (kind == "dns" && !Lineage(native.refs))))
  }

  lemma LineageKept(refs: seq<Ref>)
    ensures Lineage(C2Bundle.AsEntries(refs)) == Lineage(refs)
  {
    var all := C2Bundle.AsEntries(refs);
    if Lineage(refs) {
      var r :| r in refs && r.Entry? && "sample_lineage" in r.fields && r.fields["sample_lineage"] == Bool(true);
      var i :| 0 <= i < |refs| && refs[i] == r;
      assert all[i] == r && all[i] in all;
    }
    if Lineage(all) {
      var r :| r in all && r.Entry? && "sample_lineage" in r.fields && r.fields["sample_lineage"] == Bool(true);
      var i :| 0 <= i < |all| && all[i] == r;
      assert refs[i] == r;
    }
  }

  lemma CarriedMembers(way: Way, native: C2Bundle.NativeEvent, i: nat)
    ensures var item := Carry(way, native, i);
      && item.kind == KindOf(way.context, native) && item.caveat == CaveatOf(way.context, native)
      && item.refs == C2Bundle.AsEntries(native.refs) && item.count == None
  {
    hide C2Bundle.FindingKind, C2Bundle.Spaced;
  }

  lemma FlaggedExactly(item: C2Finding, context: C2Bundle.Context, native: C2Bundle.NativeEvent)
    requires item.kind == KindOf(context, native) && item.caveat == CaveatOf(context, native)
    requires Lineage(item.refs) == Lineage(native.refs)
    ensures Counts(context, native) <==> item.kind == "network_observation" || LacksSampleProcess(item)
    ensures item.kind == "static_ioc" ==> !Counts(context, native)
  {
    hide KindOf, CaveatOf, Lineage;
  }

  lemma RowKind(item: C2Finding, artifacts: set<string>)
    ensures Neutral(ReportPass, C2Row(item, artifacts)) <==> item.kind == "network_observation" || LacksSampleProcess(item)
    ensures item.count == None ==> CountOf(C2Row(item, artifacts)) == 1
  {
    hide LacksSampleProcess;
  }

  /** A finding is neutral for the report exactly when its event counts; one that is left out does not. */
  lemma NeutralExactly(way: Way, native: C2Bundle.NativeEvent, i: nat, artifacts: set<string>)
    ensures Neutral(ReportPass, C2Row(Carry(way, native, i), artifacts)) <==> Counts(way.context, native)
    ensures Skipped(way.sources, Carry(way, native, i)) ==> !Counts(way.context, native)
    ensures CountOf(C2Row(Carry(way, native, i), artifacts)) == 1
  {
    hide Neutral, C2Row, CountOf, Carry, Counts, KindOf, CaveatOf, Lineage, LacksSampleProcess;
    var item := Carry(way, native, i);
    CarriedMembers(way, native, i);
    LineageKept(native.refs);
    FlaggedExactly(item, way.context, native);
    RowKind(item, artifacts);
  }

  function CountingEvents(context: C2Bundle.Context, natives: seq<C2Bundle.NativeEvent>): nat
    decreases |natives|
  {
    if natives == [] then 0 else
      CountingEvents(context, natives[..|natives| - 1]) + if Counts(context, natives[|natives| - 1]) then 1 else 0
  }

  lemma CarriedNext(sources: Sources, before: seq<C2Finding>, item: C2Finding, counts: bool)
    requires Counted(ReportPass, C2Rows(sources, before))
    requires var row := C2Row(item, ArtifactsOf(sources, item.stage));
      (Neutral(ReportPass, row) <==> counts) && (Skipped(sources, item) ==> !counts) && CountOf(row) == 1
    ensures var rows := C2Rows(sources, before + [item]);
      Counted(ReportPass, rows) && Total(ReportPass, rows) == Total(ReportPass, C2Rows(sources, before)) + if counts then 1 else 0
  {
    hide Neutral, CountOf, C2Row, Skipped, Total;
    assert (before + [item])[..|before|] == before;
    TotalAppended(ReportPass, C2Rows(sources, before), C2Row(item, ArtifactsOf(sources, item.stage)));
    assert C2Rows(sources, before) + [] == C2Rows(sources, before);
  }

  lemma {:induction false} CarriedTotal(way: Way, natives: seq<C2Bundle.NativeEvent>)
    ensures Total(ReportPass, C2Rows(way.sources, Carried(way, natives))) == CountingEvents(way.context, natives)
    ensures Counted(ReportPass, C2Rows(way.sources, Carried(way, natives)))
    decreases |natives|
  {
    hide Counts, Neutral, CountOf, C2Row, Carry, Skipped, Counted;
    if natives == [] {
      NoneCounted();
    } else {
      var n := |natives| - 1;
      CarriedTotal(way, natives[..n]);
      NeutralExactly(way, natives[n], n, ArtifactsOf(way.sources, way.stage));
      CarriedStage(way, natives[n], n);
      CarriedNext(way.sources, Carried(way, natives[..n]), Carry(way, natives[n], n), Counts(way.context, natives[n]));
    }
  }

  lemma CarriedStage(way: Way, native: C2Bundle.NativeEvent, i: nat)
    ensures Carry(way, native, i).stage == way.stage
  {}

  lemma NoneCounted()
    ensures Counted(ReportPass, [])
  {}

  lemma {:induction false} NoTotal(pass: Pass, rows: seq<RowData>, more: seq<RowData>)
    requires forall i :: 0 <= i < |rows| ==> !Neutral(pass, rows[i])
    ensures Total(pass, rows + more) == Total(pass, more) && (Counted(pass, more) ==> Counted(pass, rows + more))
    decreases |more|
  {
    hide Neutral, CountOf;
    if more == [] {
      assert rows + more == rows;
      NothingCounted(pass, rows);
    } else {
      var n := |more| - 1;
      NoTotal(pass, rows, more[..n]);
      assert rows + more == (rows + more[..n]) + [more[n]];
      TotalAppended(pass, rows + more[..n], more[n]);
    }
  }

  lemma {:induction false} NothingCounted(pass: Pass, rows: seq<RowData>)
    requires forall i :: 0 <= i < |rows| ==> !Neutral(pass, rows[i])
    ensures Total(pass, rows) == 0
    decreases |rows|
  {
    hide Neutral, CountOf;
    if rows != [] { NothingCounted(pass, rows[..|rows| - 1]); }
  }

  /** The report counts events: whatever an event stood for, it counts once if it counts. */
  lemma ReportCountsEvents(way: Way, windows: seq<PlatformFinding>, android: seq<PlatformFinding>, natives: seq<C2Bundle.NativeEvent>)
    ensures Total(ReportPass, ReportOf(way, windows, android, natives)) == CountingEvents(way.context, natives)
  {
    hide Coalesced, C2Rows, Neutral, CountOf, Total, Counted;
    var base, rows := Base(way.sources, windows, android), C2Rows(way.sources, Carried(way, natives));
    forall i | 0 <= i < |base| ensures !Neutral(ReportPass, base[i]) { PlatformRowsAreNotNeutral(way.sources, windows, android, i); }
    CarriedTotal(way, natives);
    NoTotal(ReportPass, base, rows);
    TotalKept(ReportPass, base + rows);
  }

  lemma PlatformRowsAreNotNeutral(sources: Sources, windows: seq<PlatformFinding>, android: seq<PlatformFinding>, i: nat)
    requires i < |windows| + |android|
    ensures !Neutral(ReportPass, Base(sources, windows, android)[i])
  {}

  // ---------- from the input rows to the report ----------

  /** The rows that are no neutral observations for the first pass and yet count in the report. */
  function CountingOthers(context: C2Bundle.Context, rows: seq<RowData>): nat
    decreases |rows|
  {
    if rows == [] then 0 else
      var n := |rows| - 1;
      CountingOthers(context, rows[..n]) + if !Neutral(RuntimePass, rows[n]) && Counts(context, Emitted(rows[n])) then 1 else 0
  }

  lemma NeutralCounts(context: C2Bundle.Context, row: RowData)
    requires Neutral(RuntimePass, row)
    ensures Counts(context, Emitted(row))
  {}

  /** An observation that is neutral for the first pass is neutral for the report. */
  lemma NeutralStays(way: Way, row: RowData, i: nat, artifacts: set<string>)
    requires Neutral(RuntimePass, row)
    ensures Neutral(ReportPass, C2Row(Carry(way, Emitted(row), i), artifacts))
  {
    hide Neutral, C2Row, Carry, Emitted, Counts;
    NeutralCounts(way.context, row);
    NeutralExactly(way, Emitted(row), i, artifacts);
  }

  /** The events of rows that count: one for each neutral row, and the others. */
  lemma {:induction false} EmittedCount(context: C2Bundle.Context, rows: seq<RowData>)
    ensures CountingEvents(context, AllEmitted(rows)) == |Keys(RuntimePass, rows)| + CountingOthers(context, rows)
    decreases |rows|
  {
    hide Counts, Neutral, KeyOf, Emitted;
    if rows != [] {
      var n := |rows| - 1;
      EmittedCount(context, rows[..n]);
      var before := AllEmitted(rows[..n]);
      assert AllEmitted(rows) == before + [Emitted(rows[n])] && (before + [Emitted(rows[n])])[..|before|] == before;
      if Neutral(RuntimePass, rows[n]) { NeutralCounts(context, rows[n]); }
    }
  }

  lemma {:induction false} CountingOthersOf(context: C2Bundle.Context, rows: seq<RowData>)
    ensures CountingOthers(context, rows) == CountingOthers(context, Others(RuntimePass, rows))
    decreases |rows|
  {
    hide Counts, Neutral, Emitted;
    if rows != [] {
      var n := |rows| - 1;
      CountingOthersOf(context, rows[..n]);
      var before := Others(RuntimePass, rows[..n]);
      if Neutral(RuntimePass, rows[n]) {
        assert Others(RuntimePass, rows) == before + [] == before;
      } else {
        assert Others(RuntimePass, rows) == before + [rows[n]] && (before + [rows[n]])[..|before|] == before;
      }
    }
  }

  /** No two neutral rows share a key. */
  ghost predicate NoDuplicates(rows: seq<RowData>) {
    forall i, j :: 0 <= i < j < |rows| && Neutral(RuntimePass, rows[i]) && Neutral(RuntimePass, rows[j]) ==>
      KeyOf(RuntimePass, rows[i]) != KeyOf(RuntimePass, rows[j])
  }

  /** Every neutral row stands for one observation. */
  ghost predicate Single(rows: seq<RowData>) {
    forall i :: 0 <= i < |rows| && Neutral(RuntimePass, rows[i]) ==> CountOf(rows[i]) == 1
  }

  lemma NoDuplicatesNext(rows: seq<RowData>, n: nat)
    requires |rows| == n + 1
    ensures NoDuplicates(rows) <==> NoDuplicates(rows[..n]) && (Neutral(RuntimePass, rows[n]) ==> !Known(RuntimePass, rows[..n], KeyOf(RuntimePass, rows[n])))
  {
    hide Neutral, KeyOf;
    assert forall i :: 0 <= i < n ==> rows[..n][i] == rows[i];
  }

  lemma NoDuplicatesAtAll(rows: seq<RowData>)
    ensures rows == [] ==> NoDuplicates(rows)
  {}

  lemma {:induction false} DistinctKeys(rows: seq<RowData>)
    ensures |FirstSeen(Keys(RuntimePass, rows))| <= |Keys(RuntimePass, rows)|
    ensures |FirstSeen(Keys(RuntimePass, rows))| == |Keys(RuntimePass, rows)| <==> NoDuplicates(rows)
    decreases |rows|
  {
    hide Neutral, KeyOf, FirstSeen, Known, NoDuplicates;
    if rows == [] {
      NothingSeen();
      NoDuplicatesAtAll(rows);
    } else {
      var n := |rows| - 1;
      var before, k := Keys(RuntimePass, rows[..n]), KeyOf(RuntimePass, rows[n]);
      DistinctKeys(rows[..n]);
      NoDuplicatesNext(rows, n);
      KnownIsKey(RuntimePass, rows[..n], k);
      SeenNext(before, k);
      FirstSeenOnce(before);
      assert before + [] == before;
    }
  }

  lemma {:induction false} SingleRows(rows: seq<RowData>)
    requires Counted(RuntimePass, rows)
    ensures |Keys(RuntimePass, rows)| <= Total(RuntimePass, rows)
    ensures |Keys(RuntimePass, rows)| == Total(RuntimePass, rows) <==> Single(rows)
    decreases |rows|
  {
    hide Neutral, CountOf, KeyOf;
    if rows != [] {
      var n := |rows| - 1;
      SingleRows(rows[..n]);
      assert forall i :: 0 <= i < n ==> rows[..n][i] == rows[i];
    }
  }

  /** From the analyzer's rows to the report: it counts one for each key among the neutral rows, and one for
      each other row that counts. */
  lemma ReportedExactly(way: Way, windows: seq<PlatformFinding>, android: seq<PlatformFinding>, rows: seq<RowData>)
    ensures Reported(way, windows, android, rows) == |FirstSeen(Keys(RuntimePass, rows))| + CountingOthers(way.context, rows)
  {
    hide Coalesced, Total, FirstSeen, Keys, CountingOthers, CountingEvents, ReportOf, AllEmitted, Others;
    var kept := Coalesced(RuntimePass, rows);
    ReportCountsEvents(way, windows, android, AllEmitted(kept));
    EmittedCount(way.context, kept);
    OneRowForEachKey(RuntimePass, rows);
    CountingOthersOf(way.context, kept);
    CountingOthersOf(way.context, rows);
    OthersKept(RuntimePass, rows);
  }

  /** The report counts the neutral observations and the other rows that count, and not more; it counts all
      of them if and only if every neutral row stands for one observation and no two share a key. In
      particular, where no other row counts, that is when the number of observations survives; and in
      general it survives when as many other rows count as observations were merged away. */
  lemma CountsSurviveExactly(way: Way, windows: seq<PlatformFinding>, android: seq<PlatformFinding>, rows: seq<RowData>)
    requires Counted(RuntimePass, rows)
    ensures var reported, observed, others := Reported(way, windows, android, rows), Total(RuntimePass, rows), CountingOthers(way.context, rows);
      && reported <= observed + others
      && (reported == observed + others <==> Single(rows) && NoDuplicates(rows))
      && (others == 0 ==> (reported == observed <==> Single(rows) && NoDuplicates(rows)))
      && (reported == observed <==> others == observed - |FirstSeen(Keys(RuntimePass, rows))|)
  {
    hide Total, FirstSeen, Keys, CountingOthers, Reported, Single, NoDuplicates;
    ReportedExactly(way, windows, android, rows);
    DistinctKeys(rows);
    SingleRows(rows);
  }

  /** Two observations of one packet: the report counts one. */
  lemma CountLost(way: Way, windows: seq<PlatformFinding>, android: seq<PlatformFinding>)
    ensures Total(RuntimePass, [LOOKUP, LOOKUP]) == 2 && Reported(way, windows, android, [LOOKUP, LOOKUP]) == 1
  {
    hide Reported;
    TwoLookups(way.context);
    ReportedExactly(way, windows, android, [LOOKUP, LOOKUP]);
  }

  lemma TwiceTheRow(context: C2Bundle.Context, a: RowData)
    requires Neutral(RuntimePass, a) && CountOf(a) == 1
    ensures Total(RuntimePass, [a, a]) == 2 && CountingOthers(context, [a, a]) == 0
    ensures Keys(RuntimePass, [a, a]) == [KeyOf(RuntimePass, a), KeyOf(RuntimePass, a)]
    ensures FirstSeen(Keys(RuntimePass, [a, a])) == [KeyOf(RuntimePass, a)]
  {
    hide Counts, KeyOf, Neutral, CountOf, Emitted;
    var k := KeyOf(RuntimePass, a);
    assert [a, a][..1] == [a] && [a][..0] == [];
    assert Keys(RuntimePass, [a]) == [k] && Total(RuntimePass, [a]) == 1 && CountingOthers(context, [a]) == 0;
    assert [k, k][..1] == [k] && [k][..0] == [];
    assert FirstSeen([k]) == [k];
  }

  lemma TwoLookups(context: C2Bundle.Context)
    ensures Total(RuntimePass, [LOOKUP, LOOKUP]) == 2 && CountingOthers(context, [LOOKUP, LOOKUP]) == 0
    ensures Keys(RuntimePass, [LOOKUP, LOOKUP]) == [KeyOf(RuntimePass, LOOKUP), KeyOf(RuntimePass, LOOKUP)]
    ensures FirstSeen(Keys(RuntimePass, [LOOKUP, LOOKUP])) == [KeyOf(RuntimePass, LOOKUP)]
  {
    hide Total, CountingOthers, Keys, FirstSeen, KeyOf;
    TwiceTheRow(context, LOOKUP);
  }

  const DNS_LOOKUP := LOOKUP.(kind := "dns")

  /** The same with a DNS event of no known process: the report counts two, the merged observation once and
      the event as another. */
  lemma CountMadeUp(way: Way, windows: seq<PlatformFinding>, android: seq<PlatformFinding>)
    ensures Total(RuntimePass, [LOOKUP, LOOKUP, DNS_LOOKUP]) == 2 && Reported(way, windows, android, [LOOKUP, LOOKUP, DNS_LOOKUP]) == 2
    ensures CountingOthers(way.context, [LOOKUP, LOOKUP, DNS_LOOKUP]) == 1
  {
    hide Reported;
    var rows := [LOOKUP, LOOKUP, DNS_LOOKUP];
    assert rows[..2] == [LOOKUP, LOOKUP];
    TwoLookups(way.context);
    assert Counts(way.context, Emitted(DNS_LOOKUP));
    assert Keys(RuntimePass, [LOOKUP, LOOKUP]) + [] == Keys(RuntimePass, [LOOKUP, LOOKUP]);
    ReportedExactly(way, windows, android, rows);
  }
}
