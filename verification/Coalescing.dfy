/** Merging duplicate neutral network observations: the pass over the analyzer's events and the pass over
    the findings of a report differ in their keys and in what a merge keeps, and work alike. */
module Coalescing {
  import opened Tables
  import C2Bundle

  type Ref = C2Bundle.Ref

  datatype Pass = RuntimePass | ReportPass

  /** Members of an event that neither pass reads. */
  datatype Members = Members(
    technique: Option<string>, reputation: Option<real>, dataType: Option<string>, accessCall: Option<string>, score: Option<real>)

  const NO_MEMBERS := Members(None, None, None, None, None)

  /** A row of either pass. `observed` is `observed_destination_ips`; `ids` is `source_finding_ids`; `caveats`
      is the list of a finding, or the one caveat of an event. */
  datatype RowData = RowData(
    source: string, kind: string, detailed: bool, id: string, confidence: string, details: map<string, Json>,
    stage: string, timestamp: Option<string>, domain: Option<string>, ip: Option<string>, port: Option<int>,
    protocol: Option<string>, caveats: seq<string>, text: Option<string>,
    count: Option<int>, observed: set<string>, refs: seq<Ref>, ids: set<string>, artifacts: set<string>, members: Members)

  datatype Key = Key(
    stage: string, timestamp: Option<string>, destination: Option<string>, port: Option<int>, protocol: Option<string>,
    caveats: seq<string>, text: Option<string>)

  predicate Neutral(pass: Pass, row: RowData) {
    row.kind == "network_observation" && (pass.ReportPass? ==> row.source == "c2" && row.detailed)
  }

  function KeyOf(pass: Pass, row: RowData): Key {
    Key(if pass.ReportPass? then row.stage else "", row.timestamp, if C2Bundle.Truthy(row.domain) then row.domain else row.ip,
        row.port, row.protocol, row.caveats, row.text)
  }

  /** `int(count or 1)`. */
  function CountOf(row: RowData): int {
    if row.count.Some? && row.count.value != 0 then row.count.value else 1
  }

  /** `_unique`: empty strings are dropped. */
  function Unique(s: set<string>): set<string> { s - {""} }

  function Addresses(row: RowData): set<string> {
    Unique(row.observed + if row.ip.Some? then {row.ip.value} else {})
  }

  /** What the first row of a key becomes. */
  function First(pass: Pass, row: RowData): RowData {
    row.(count := Some(CountOf(row)), ids := if pass.ReportPass? then Unique(row.ids + {row.id}) else row.ids)
  }

  /** The objects of `more` that are not there yet are appended. */
  function MergeRefs(refs: seq<Ref>, more: seq<Ref>): seq<Ref>
    decreases |more|
  {
    if more == [] then refs
    else MergeRefs(if more[0].Entry? && more[0] !in refs then refs + [more[0]] else refs, more[1..])
  }

  /** What the retained row of a key becomes when a later row of the key is merged into it. */
  function Merge(pass: Pass, row: RowData, later: RowData): RowData {
    var addresses := Addresses(row) + Unique(if later.ip.Some? then {later.ip.value} else {});
    row.(count := Some(CountOf(row) + CountOf(later)),
         observed := if 1 < |addresses| then addresses else row.observed,
         refs := MergeRefs(row.refs, later.refs),
         ids := if pass.ReportPass? then Unique(row.ids + later.ids + {later.id}) else row.ids,
         artifacts := if pass.ReportPass? then Unique(row.artifacts + later.artifacts) else row.artifacts)
  }

  /** The row that is retained for a key, if there is one. */
  function Find(pass: Pass, rows: seq<RowData>, k: Key): (r: Option<nat>)
    ensures r.Some? ==> r.value < |rows| && Neutral(pass, rows[r.value]) && KeyOf(pass, rows[r.value]) == k
    ensures r.None? ==> forall i :: 0 <= i < |rows| && Neutral(pass, rows[i]) ==> KeyOf(pass, rows[i]) != k
    decreases |rows|
  {
    if rows == [] then None
    else
      var n := |rows| - 1;
      if Neutral(pass, rows[n]) && KeyOf(pass, rows[n]) == k then Some(n) else Find(pass, rows[..n], k)
  }

  function Add(pass: Pass, rows: seq<RowData>, row: RowData): seq<RowData> {
    if !Neutral(pass, row) then rows + [row]
    else match Find(pass, rows, KeyOf(pass, row))
      case None => rows + [First(pass, row)]
      case Some(i) => rows[i := Merge(pass, rows[i], row)]
  }

  /** The pass, as a function of the rows it is given. */
  function Coalesced(pass: Pass, rows: seq<RowData>): seq<RowData>
    decreases |rows|
  {
    if rows == [] then [] else Add(pass, Coalesced(pass, rows[..|rows| - 1]), rows[|rows| - 1])
  }

  // ---------- a key keeps its row ----------

  lemma FirstKeeps(pass: Pass, row: RowData)
    ensures Neutral(pass, First(pass, row)) == Neutral(pass, row) && KeyOf(pass, First(pass, row)) == KeyOf(pass, row)
  {}

  lemma MergeKeeps(pass: Pass, row: RowData, later: RowData)
    ensures Neutral(pass, Merge(pass, row, later)) == Neutral(pass, row) && KeyOf(pass, Merge(pass, row, later)) == KeyOf(pass, row)
  {}

  lemma FindAppended(pass: Pass, rows: seq<RowData>, row: RowData, k: Key)
    ensures Find(pass, rows + [row], k) ==
              if Neutral(pass, row) && KeyOf(pass, row) == k then Some(|rows|) else Find(pass, rows, k)
  {
    assert (rows + [row])[..|rows|] == rows;
  }

  lemma {:induction false} FindSame(pass: Pass, a: seq<RowData>, b: seq<RowData>, k: Key)
    requires |a| == |b|
    requires forall i :: 0 <= i < |a| ==> Neutral(pass, a[i]) == Neutral(pass, b[i]) && KeyOf(pass, a[i]) == KeyOf(pass, b[i])
    ensures Find(pass, a, k) == Find(pass, b, k)
    decreases |a|
  {
    if a != [] { FindSame(pass, a[..|a| - 1], b[..|b| - 1], k); }
  }

  /** Where the row of a key is after one more row. */
  lemma FindAdded(pass: Pass, rows: seq<RowData>, row: RowData, k: Key)
    ensures Find(pass, Add(pass, rows, row), k) ==
              if Neutral(pass, row) && KeyOf(pass, row) == k && Find(pass, rows, k).None? then Some(|rows|) else Find(pass, rows, k)
  {
    hide Neutral, KeyOf, First, Merge;
    FirstKeeps(pass, row);
    FindAppended(pass, rows, row, k);
    FindAppended(pass, rows, First(pass, row), k);
    var at := Find(pass, rows, KeyOf(pass, row));
    if at.Some? {
      MergeKeeps(pass, rows[at.value], row);
      FindSame(pass, rows[at.value := Merge(pass, rows[at.value], row)], rows, k);
    }
  }

  // ---------- the pass as it runs, on rows that are changed in place ----------

  class Row {
    var data: RowData

    constructor (data: RowData)
      ensures this.data == data
    {
      this.data := data;
    }
  }

  ghost predicate Apart(rows: seq<Row>) { forall i, j :: 0 <= i < j < |rows| ==> rows[i] != rows[j] }

  ghost function DataOf(rows: seq<Row>): (r: seq<RowData>)
    reads rows
    ensures |r| == |rows| && forall i :: 0 <= i < |r| ==> r[i] == rows[i].data
  {
    seq(|rows|, i requires 0 <= i < |rows| reads rows => rows[i].data)
  }

  method MergeRefsInto(row: Row, more: seq<Ref>)
    modifies row
    ensures row.data == old(row.data).(refs := MergeRefs(old(row.data.refs), more))
  {
    var i := 0;
    while i < |more|
      invariant 0 <= i <= |more|
      invariant MergeRefs(row.data.refs, more[i..]) == MergeRefs(old(row.data.refs), more)
      invariant row.data == old(row.data).(refs := row.data.refs)
    {
      assert more[i..][0] == more[i] && more[i..][1..] == more[i + 1..];
      if more[i].Entry? && more[i] !in row.data.refs {
        row.data := row.data.(refs := row.data.refs + [more[i]]);
      }
      i := i + 1;
    }
  }

  /** The retained row of each key, as the dictionary holds it. */
  ghost predicate Points(pass: Pass, observations: map<Key, Row>, retained: seq<Row>)
    reads retained
  {
    forall k ::
      && (k in observations <==> Find(pass, DataOf(retained), k).Some?)
      && (k in observations ==> observations[k] == retained[Find(pass, DataOf(retained), k).value])
  }

  method MergeInto(pass: Pass, row: Row, later: RowData)
    modifies row
    ensures row.data == Merge(pass, old(row.data), later)
  {
    var before := row.data;
    row.data := row.data.(count := Some(CountOf(before) + CountOf(later)));
    var addresses := Addresses(before) + Unique(if later.ip.Some? then {later.ip.value} else {});
    if 1 < |addresses| { row.data := row.data.(observed := addresses); }
    if pass.ReportPass? { row.data := row.data.(ids := Unique(before.ids + later.ids + {later.id})); }
    MergeRefsInto(row, later.refs);
    if pass.ReportPass? { row.data := row.data.(artifacts := Unique(before.artifacts + later.artifacts)); }
  }

  /** How the dictionary follows: the places of the other keys do not move. */
  lemma PointsNext(pass: Pass, was: seq<RowData>, data: RowData, observations: map<Key, Row>, retained: seq<Row>, known: map<Key, Row>, kept: seq<Row>)
    requires |was| == |retained| && retained <= kept && |kept| <= |retained| + 1 && DataOf(kept) == Add(pass, was, data)
    requires forall k ::
      && (k in observations <==> Find(pass, was, k).Some?)
      && (k in observations ==> observations[k] == retained[Find(pass, was, k).value])
    requires var k := KeyOf(pass, data);
      known == if Neutral(pass, data) && k !in observations && |kept| == |was| + 1 then observations[k := kept[|was|]] else observations
    ensures Points(pass, known, kept)
  {
    hide Neutral, KeyOf, First, Merge, Find;
    forall k ensures
        && (k in known <==> Find(pass, DataOf(kept), k).Some?)
        && (k in known ==> known[k] == kept[Find(pass, DataOf(kept), k).value])
    {
      FindAdded(pass, was, data, k);
    }
  }

  /** One row is appended, or merged into the row of its key. */
  method Take(pass: Pass, row: Row, retained: seq<Row>, observations: map<Key, Row>) returns (kept: seq<Row>, known: map<Key, Row>)
    requires Apart(retained) && row !in retained && Points(pass, observations, retained)
    modifies row, retained
    ensures DataOf(kept) == Add(pass, old(DataOf(retained)), old(row.data))
    ensures kept == retained || kept == retained + [row]
    ensures Points(pass, known, kept)
  {
    hide Neutral, KeyOf, First, Merge, Find;
    ghost var was, data := DataOf(retained), row.data;
    kept, known := retained, observations;
    if !Neutral(pass, row.data) {
      kept := retained + [row];
    } else {
      var key := KeyOf(pass, row.data);
      if key !in observations {
        row.data := First(pass, row.data);
        known, kept := observations[key := row], retained + [row];
      } else {
        ghost var at := Find(pass, was, key).value;
        MergeInto(pass, observations[key], row.data);
        assert DataOf(kept) == was[at := Merge(pass, was[at], data)];
      }
    }
    assert DataOf(kept) == Add(pass, was, data);
    PointsNext(pass, was, data, observations, retained, known, kept);
  }

  method Coalesce(pass: Pass, rows: seq<Row>) returns (retained: seq<Row>)
    requires Apart(rows)
    modifies rows
    ensures DataOf(retained) == Coalesced(pass, old(DataOf(rows)))
    ensures Apart(retained) && forall row :: row in retained ==> row in rows
  {
    hide Add, Points;
    ghost var before := DataOf(rows);
    retained := [];
    var observations: map<Key, Row> := map[];
    PointsNowhere(pass);
    for i := 0 to |rows|
      invariant Apart(retained) && forall k :: 0 <= k < |retained| ==> retained[k] in rows[..i]
      invariant DataOf(retained) == Coalesced(pass, before[..i])
      invariant forall j :: i <= j < |rows| ==> rows[j].data == before[j]
      invariant Points(pass, observations, retained)
    {
      assert before[..i + 1][..i] == before[..i];
      assert rows[..i + 1] == rows[..i] + [rows[i]];
      assert rows[i] !in rows[..i];
      retained, observations := Take(pass, rows[i], retained, observations);
    }
    assert before[..|rows|] == before;
  }

  lemma PointsNowhere(pass: Pass)
    ensures Points(pass, map[], [])
  {}
}
