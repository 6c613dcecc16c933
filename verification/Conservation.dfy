/** What coalescing keeps: the number of observations, every other row, one row for each key in the order the
    keys were first seen, the references and the identities of each group; and a second pass does nothing. */
module Conservation {
  import opened Tables
  import opened Coalescing

  /** Observation counts are absent, zero (which counts as one) or positive. */
  predicate Counted(pass: Pass, rows: seq<RowData>) {
    forall i :: 0 <= i < |rows| && Neutral(pass, rows[i]) ==> 1 <= CountOf(rows[i])
  }

  // ---------- the number of observations ----------

  function Total(pass: Pass, rows: seq<RowData>): int
    decreases |rows|
  {
    if rows == [] then 0 else
      Total(pass, rows[..|rows| - 1]) + if Neutral(pass, rows[|rows| - 1]) then CountOf(rows[|rows| - 1]) else 0
  }

  lemma TotalAppended(pass: Pass, rows: seq<RowData>, row: RowData)
    ensures Total(pass, rows + [row]) == Total(pass, rows) + if Neutral(pass, row) then CountOf(row) else 0
  {
    assert (rows + [row])[..|rows|] == rows;
  }

  lemma {:induction false} TotalUpdated(pass: Pass, rows: seq<RowData>, i: nat, row: RowData)
    requires i < |rows| && Neutral(pass, rows[i]) && Neutral(pass, row)
    ensures Total(pass, rows[i := row]) == Total(pass, rows) - CountOf(rows[i]) + CountOf(row)
    decreases |rows|
  {
    hide Neutral, CountOf;
    var n := |rows| - 1;
    if i < n {
      TotalUpdated(pass, rows[..n], i, row);
      assert rows[i := row][..n] == rows[..n][i := row];
    } else {
      assert rows[i := row][..n] == rows[..n];
    }
  }

  lemma MergedCount(pass: Pass, row: RowData, later: RowData)
    requires 1 <= CountOf(row) && 1 <= CountOf(later)
    ensures CountOf(Merge(pass, row, later)) == CountOf(row) + CountOf(later)
  {}

  lemma FirstCount(pass: Pass, row: RowData)
    ensures CountOf(First(pass, row)) == CountOf(row)
  {}

  lemma TotalAdded(pass: Pass, rows: seq<RowData>, row: RowData)
    requires Counted(pass, rows) && (Neutral(pass, row) ==> 1 <= CountOf(row))
    ensures Total(pass, Add(pass, rows, row)) == Total(pass, rows) + if Neutral(pass, row) then CountOf(row) else 0
    ensures Counted(pass, Add(pass, rows, row))
  {
    hide Neutral, KeyOf, First, Merge, CountOf, Total, Find;
    FirstKeeps(pass, row);
    FirstCount(pass, row);
    TotalAppended(pass, rows, row);
    TotalAppended(pass, rows, First(pass, row));
    var at := Find(pass, rows, KeyOf(pass, row));
    if at.Some? && Neutral(pass, row) {
      MergeKeeps(pass, rows[at.value], row);
      MergedCount(pass, rows[at.value], row);
      TotalUpdated(pass, rows, at.value, Merge(pass, rows[at.value], row));
    }
  }

  /** No observation is lost and none is counted twice. */
  lemma {:induction false} TotalKept(pass: Pass, rows: seq<RowData>)
    requires Counted(pass, rows)
    ensures Total(pass, Coalesced(pass, rows)) == Total(pass, rows) && Counted(pass, Coalesced(pass, rows))
    decreases |rows|
  {
    hide Neutral, Add, CountOf;
    if rows != [] {
      var n := |rows| - 1;
      TotalKept(pass, rows[..n]);
      TotalAdded(pass, Coalesced(pass, rows[..n]), rows[n]);
    }
  }

  // ---------- the other rows ----------

  function Others(pass: Pass, rows: seq<RowData>): seq<RowData>
    decreases |rows|
  {
    if rows == [] then [] else
      Others(pass, rows[..|rows| - 1]) + if Neutral(pass, rows[|rows| - 1]) then [] else [rows[|rows| - 1]]
  }

  lemma OthersAppended(pass: Pass, rows: seq<RowData>, row: RowData)
    ensures Others(pass, rows + [row]) == Others(pass, rows) + if Neutral(pass, row) then [] else [row]
  {
    assert (rows + [row])[..|rows|] == rows;
  }

  lemma {:induction false} OthersUpdated(pass: Pass, rows: seq<RowData>, i: nat, row: RowData)
    requires i < |rows| && Neutral(pass, rows[i]) && Neutral(pass, row)
    ensures Others(pass, rows[i := row]) == Others(pass, rows)
    decreases |rows|
  {
    hide Neutral;
    var n := |rows| - 1;
    if i < n {
      OthersUpdated(pass, rows[..n], i, row);
      assert rows[i := row][..n] == rows[..n][i := row];
    } else {
      assert rows[i := row][..n] == rows[..n];
    }
  }

  /** The rows that are no neutral observations stay as they are, in their order. */
  lemma {:induction false} OthersKept(pass: Pass, rows: seq<RowData>)
    ensures Others(pass, Coalesced(pass, rows)) == Others(pass, rows)
    decreases |rows|
  {
    hide Neutral, KeyOf, First, Merge, Find;
    if rows != [] {
      var n := |rows| - 1;
      var kept, row := Coalesced(pass, rows[..n]), rows[n];
      OthersKept(pass, rows[..n]);
      FirstKeeps(pass, row);
      OthersAppended(pass, kept, row);
      OthersAppended(pass, kept, First(pass, row));
      var at := Find(pass, kept, KeyOf(pass, row));
      if at.Some? {
        MergeKeeps(pass, kept[at.value], row);
        OthersUpdated(pass, kept, at.value, Merge(pass, kept[at.value], row));
      }
    }
  }

  // ---------- the keys ----------

  function Keys(pass: Pass, rows: seq<RowData>): seq<Key>
    decreases |rows|
  {
    if rows == [] then [] else
      Keys(pass, rows[..|rows| - 1]) + if Neutral(pass, rows[|rows| - 1]) then [KeyOf(pass, rows[|rows| - 1])] else []
  }

  /** Each key once, where it was first seen. */
  function FirstSeen(keys: seq<Key>): seq<Key>
    decreases |keys|
  {
    if keys == [] then [] else
      var before := FirstSeen(keys[..|keys| - 1]);
      if keys[|keys| - 1] in before then before else before + [keys[|keys| - 1]]
  }

  lemma {:induction false} FirstSeenOnce(keys: seq<Key>)
    ensures forall i, j :: 0 <= i < j < |FirstSeen(keys)| ==> FirstSeen(keys)[i] != FirstSeen(keys)[j]
    ensures forall k :: k in FirstSeen(keys) <==> k in keys
    decreases |keys|
  {
    if keys != [] {
      var n := |keys| - 1;
      FirstSeenOnce(keys[..n]);
      assert keys == keys[..n] + [keys[n]];
    }
  }

  lemma SeenNext(keys: seq<Key>, k: Key)
    ensures FirstSeen(keys + [k]) == if k in FirstSeen(keys) then FirstSeen(keys) else FirstSeen(keys) + [k]
  {
    assert (keys + [k])[..|keys|] == keys;
  }

  lemma KeysAppended(pass: Pass, rows: seq<RowData>, row: RowData)
    ensures Keys(pass, rows + [row]) == Keys(pass, rows) + if Neutral(pass, row) then [KeyOf(pass, row)] else []
  {
    assert (rows + [row])[..|rows|] == rows;
  }

  lemma {:induction false} KeysSame(pass: Pass, a: seq<RowData>, b: seq<RowData>)
    requires |a| == |b|
    requires forall i :: 0 <= i < |a| ==> Neutral(pass, a[i]) == Neutral(pass, b[i]) && KeyOf(pass, a[i]) == KeyOf(pass, b[i])
    ensures Keys(pass, a) == Keys(pass, b)
    decreases |a|
  {
    hide Neutral, KeyOf;
    if a != [] { KeysSame(pass, a[..|a| - 1], b[..|b| - 1]); }
  }

  lemma {:induction false} FoundIsSeen(pass: Pass, rows: seq<RowData>, k: Key)
    ensures Find(pass, rows, k).Some? <==> k in Keys(pass, rows)
    decreases |rows|
  {
    hide Neutral, KeyOf;
    if rows != [] { FoundIsSeen(pass, rows[..|rows| - 1], k); }
  }

  lemma KeysAdded(pass: Pass, kept: seq<RowData>, row: RowData)
    ensures var k := KeyOf(pass, row);
      Keys(pass, Add(pass, kept, row)) == if Neutral(pass, row) && k !in Keys(pass, kept) then Keys(pass, kept) + [k] else Keys(pass, kept)
  {
    hide Neutral, KeyOf, First, Merge, Find, Keys;
    FirstKeeps(pass, row);
    FoundIsSeen(pass, kept, KeyOf(pass, row));
    KeysAppended(pass, kept, row);
    KeysAppended(pass, kept, First(pass, row));
    assert Keys(pass, kept) + [] == Keys(pass, kept);
    var at := Find(pass, kept, KeyOf(pass, row));
    if at.Some? {
      MergeKeeps(pass, kept[at.value], row);
      KeysSame(pass, kept[at.value := Merge(pass, kept[at.value], row)], kept);
    }
  }

  /** One neutral row is retained for each key, in the order the keys were first seen. */
  lemma {:induction false} OneRowForEachKey(pass: Pass, rows: seq<RowData>)
    ensures Keys(pass, Coalesced(pass, rows)) == FirstSeen(Keys(pass, rows))
    decreases |rows|
  {
    hide Neutral, KeyOf, Add, FirstSeen;
    if rows == [] {
      NothingSeen();
    } else {
      var n := |rows| - 1;
      var before, k := Keys(pass, rows[..n]), KeyOf(pass, rows[n]);
      OneRowForEachKey(pass, rows[..n]);
      KeysAdded(pass, Coalesced(pass, rows[..n]), rows[n]);
      SeenNext(before, k);
      assert before + [] == before;
    }
  }

  lemma NothingSeen()
    ensures FirstSeen([]) == []
  {}

  // ---------- what a group holds ----------

  predicate InGroup(pass: Pass, row: RowData, k: Key) { Neutral(pass, row) && KeyOf(pass, row) == k }

  function Objects(refs: seq<Ref>): set<Ref> { set r | r in refs && r.Entry? }

  function GroupRefs(pass: Pass, rows: seq<RowData>, k: Key): set<Ref>
    decreases |rows|
  {
    if rows == [] then {} else
      GroupRefs(pass, rows[..|rows| - 1], k) + if InGroup(pass, rows[|rows| - 1], k) then Objects(rows[|rows| - 1].refs) else {}
  }

  function GroupIds(pass: Pass, rows: seq<RowData>, k: Key): set<string>
    decreases |rows|
  {
    if rows == [] then {} else
      GroupIds(pass, rows[..|rows| - 1], k)
      + if InGroup(pass, rows[|rows| - 1], k) then rows[|rows| - 1].ids + {rows[|rows| - 1].id} else {}
  }

  function GroupArtifacts(pass: Pass, rows: seq<RowData>, k: Key): set<string>
    decreases |rows|
  {
    if rows == [] then {} else
      GroupArtifacts(pass, rows[..|rows| - 1], k) + if InGroup(pass, rows[|rows| - 1], k) then rows[|rows| - 1].artifacts else {}
  }

  function GroupCount(pass: Pass, rows: seq<RowData>, k: Key): int
    decreases |rows|
  {
    if rows == [] then 0 else
      GroupCount(pass, rows[..|rows| - 1], k) + if InGroup(pass, rows[|rows| - 1], k) then CountOf(rows[|rows| - 1]) else 0
  }

  /** The retained row of a key holds exactly what its group holds: its references, the number of its
      observations, and in a report its identities and its artifacts. */
  ghost predicate HoldsGroup(pass: Pass, rows: seq<RowData>, row: RowData) {
    && (Counted(pass, rows) ==> 1 <= CountOf(row) == GroupCount(pass, rows, KeyOf(pass, row)))
    && (pass.ReportPass? ==> Unique(row.artifacts) == Unique(GroupArtifacts(pass, rows, KeyOf(pass, row))))
    && Objects(row.refs) == GroupRefs(pass, rows, KeyOf(pass, row))
    && (pass.ReportPass? ==> row.ids == Unique(GroupIds(pass, rows, KeyOf(pass, row))) && row.id in GroupIds(pass, rows, KeyOf(pass, row)))
  }

  lemma {:induction false} MergedRefs(refs: seq<Ref>, more: seq<Ref>)
    ensures Objects(MergeRefs(refs, more)) == Objects(refs) + Objects(more)
    decreases |more|
  {
    if more != [] {
      MergedRefs(if more[0].Entry? && more[0] !in refs then refs + [more[0]] else refs, more[1..]);
      assert more == [more[0]] + more[1..];
    }
  }

  lemma {:induction false} EmptyGroup(pass: Pass, rows: seq<RowData>, k: Key)
    requires k !in Keys(pass, rows)
    ensures GroupRefs(pass, rows, k) == {} && GroupIds(pass, rows, k) == {}
    ensures GroupArtifacts(pass, rows, k) == {} && GroupCount(pass, rows, k) == 0
    decreases |rows|
  {
    hide Neutral, KeyOf, Objects, CountOf;
    if rows != [] { EmptyGroup(pass, rows[..|rows| - 1], k); }
  }

  lemma GroupGrows(pass: Pass, rows: seq<RowData>, row: RowData, k: Key)
    ensures GroupRefs(pass, rows + [row], k) == GroupRefs(pass, rows, k) + if InGroup(pass, row, k) then Objects(row.refs) else {}
    ensures GroupIds(pass, rows + [row], k) == GroupIds(pass, rows, k) + if InGroup(pass, row, k) then row.ids + {row.id} else {}
    ensures GroupArtifacts(pass, rows + [row], k) == GroupArtifacts(pass, rows, k) + if InGroup(pass, row, k) then row.artifacts else {}
    ensures GroupCount(pass, rows + [row], k) == GroupCount(pass, rows, k) + if InGroup(pass, row, k) then CountOf(row) else 0
    ensures Counted(pass, rows + [row]) <==> Counted(pass, rows) && (Neutral(pass, row) ==> 1 <= CountOf(row))
  {
    hide CountOf, Neutral, KeyOf, Objects;
    var all := rows + [row];
    assert all[..|rows|] == rows;
    if Counted(pass, all) {
      forall i | 0 <= i < |rows| && Neutral(pass, rows[i]) ensures 1 <= CountOf(rows[i]) { assert all[i] == rows[i]; }
      assert all[|rows|] == row;
    }
  }

  /** A row of another key is not affected by what comes next. */
  lemma HoldsElsewhere(pass: Pass, rows: seq<RowData>, next: RowData, row: RowData)
    requires HoldsGroup(pass, rows, row) && !InGroup(pass, next, KeyOf(pass, row))
    ensures HoldsGroup(pass, rows + [next], row)
  {
    hide Neutral, KeyOf, Objects, Counted, CountOf;
    GroupGrows(pass, rows, next, KeyOf(pass, row));
  }

  lemma HoldsFirst(pass: Pass, rows: seq<RowData>, next: RowData)
    requires Neutral(pass, next) && KeyOf(pass, next) !in Keys(pass, rows)
    ensures HoldsGroup(pass, rows + [next], First(pass, next))
  {
    hide Neutral, Objects, Counted, CountOf, GroupRefs, GroupIds, GroupArtifacts, GroupCount;
    FirstKeeps(pass, next);
    FirstCount(pass, next);
    EmptyGroup(pass, rows, KeyOf(pass, next));
    GroupGrows(pass, rows, next, KeyOf(pass, next));
  }

  lemma UniqueSum(a: set<string>, b: set<string>, c: set<string>)
    ensures Unique(a) == Unique(b) ==> Unique(Unique(a + c)) == Unique(b + c)
  {
    if Unique(a) == Unique(b) {
      forall x ensures x in Unique(Unique(a + c)) <==> x in Unique(b + c) { assert x in Unique(a) <==> x in Unique(b); }
    }
  }

  lemma HoldsMerged(pass: Pass, rows: seq<RowData>, next: RowData, row: RowData)
    requires HoldsGroup(pass, rows, row) && InGroup(pass, next, KeyOf(pass, row))
    ensures HoldsGroup(pass, rows + [next], Merge(pass, row, next))
  {
    hide Neutral, KeyOf, Objects, MergeRefs, Counted, CountOf, GroupRefs, GroupIds, GroupArtifacts, GroupCount;
    MergeKeeps(pass, row, next);
    GroupGrows(pass, rows, next, KeyOf(pass, row));
    if 1 <= CountOf(row) && 1 <= CountOf(next) { MergedCount(pass, row, next); }
    MergedRefs(row.refs, next.refs);
    UniqueSum(row.artifacts, GroupArtifacts(pass, rows, KeyOf(pass, row)), next.artifacts);
  }

  /** Every retained neutral row holds exactly its group. */
  lemma {:induction false} GroupsHeld(pass: Pass, rows: seq<RowData>)
    ensures forall row :: row in Coalesced(pass, rows) && Neutral(pass, row) ==> HoldsGroup(pass, rows, row)
    decreases |rows|
  {
    hide Neutral, KeyOf, First, Merge, Find, HoldsGroup;
    if rows != [] {
      var n := |rows| - 1;
      var kept, next := Coalesced(pass, rows[..n]), rows[n];
      GroupsHeld(pass, rows[..n]);
      assert rows == rows[..n] + [next];
      forall row | row in Coalesced(pass, rows) && Neutral(pass, row) ensures HoldsGroup(pass, rows, row) {
        HeldAdded(pass, rows[..n], kept, next, row);
      }
    }
  }

  lemma HeldAdded(pass: Pass, before: seq<RowData>, kept: seq<RowData>, next: RowData, row: RowData)
    requires kept == Coalesced(pass, before) && row in Add(pass, kept, next) && Neutral(pass, row)
    requires forall r :: r in kept && Neutral(pass, r) ==> HoldsGroup(pass, before, r)
    ensures HoldsGroup(pass, before + [next], row)
  {
    hide Neutral, KeyOf, First, Merge, Find, HoldsGroup, Coalesced;
    var k := KeyOf(pass, next);
    var at := Find(pass, kept, k);
    FirstKeeps(pass, next);
    if !Neutral(pass, next) {
      HoldsElsewhere(pass, before, next, row);
    } else if at.None? {
      OneRowForEachKey(pass, before);
      FirstSeenOnce(Keys(pass, before));
      FoundIsSeen(pass, kept, k);
      if row in kept {
        HoldsElsewhere(pass, before, next, row);
      } else {
        HoldsFirst(pass, before, next);
      }
    } else {
      var i :| 0 <= i < |kept| && Add(pass, kept, next)[i] == row;
      if i == at.value {
        HoldsMerged(pass, before, next, kept[i]);
      } else {
        SameKeySamePlace(pass, before, i, at.value);
        HoldsElsewhere(pass, before, next, row);
      }
    }
  }

  /** Two retained rows of one key are one row. */
  lemma SameKeySamePlace(pass: Pass, rows: seq<RowData>, i: nat, j: nat)
    requires i < |Coalesced(pass, rows)| && j < |Coalesced(pass, rows)| && i != j
    requires Neutral(pass, Coalesced(pass, rows)[i]) && Neutral(pass, Coalesced(pass, rows)[j])
    ensures KeyOf(pass, Coalesced(pass, rows)[i]) != KeyOf(pass, Coalesced(pass, rows)[j])
  {
    hide Neutral, KeyOf, Coalesced;
    OneRowForEachKey(pass, rows);
    FirstSeenOnce(Keys(pass, rows));
    if i < j { KeyPlaces(pass, Coalesced(pass, rows), i, j); } else { KeyPlaces(pass, Coalesced(pass, rows), j, i); }
  }

  ghost predicate Known(pass: Pass, rows: seq<RowData>, k: Key) {
    exists i :: 0 <= i < |rows| && Neutral(pass, rows[i]) && KeyOf(pass, rows[i]) == k
  }

  lemma {:induction false} KnownIsKey(pass: Pass, rows: seq<RowData>, k: Key)
    ensures Known(pass, rows, k) <==> k in Keys(pass, rows)
    decreases |rows|
  {
    hide Neutral, KeyOf;
    if rows != [] {
      var n := |rows| - 1;
      KnownIsKey(pass, rows[..n], k);
      assert forall i :: 0 <= i < n ==> rows[..n][i] == rows[i];
      if Known(pass, rows[..n], k) {
        var i :| 0 <= i < n && Neutral(pass, rows[..n][i]) && KeyOf(pass, rows[..n][i]) == k;
        assert Neutral(pass, rows[i]) && KeyOf(pass, rows[i]) == k;
      }
    }
  }

  /** Two network observations of one thing: at one time, to one host, on one port and protocol, with the same
      caveats and the same words; in a report also of one stage. */
  predicate SameThing(pass: Pass, a: RowData, b: RowData) {
    && a.kind == "network_observation" && b.kind == "network_observation"
    && (pass.ReportPass? ==> a.source == "c2" && b.source == "c2" && a.detailed && b.detailed && a.stage == b.stage)
    && a.timestamp == b.timestamp && a.port == b.port && a.protocol == b.protocol && a.caveats == b.caveats && a.text == b.text
    && (if a.domain.Some? && a.domain.value != "" then a.domain else a.ip) == (if b.domain.Some? && b.domain.value != "" then b.domain else b.ip)
  }

  lemma SameThingSameKey(pass: Pass, a: RowData, b: RowData)
    ensures SameThing(pass, a, b) <==> Neutral(pass, a) && Neutral(pass, b) && KeyOf(pass, a) == KeyOf(pass, b)
  {}

  /** Each thing observed has exactly one row in the end, and no row is of a thing that was not observed. */
  lemma OneRowForEachThing(pass: Pass, rows: seq<RowData>)
    ensures var kept := Coalesced(pass, rows);
      && (forall i :: 0 <= i < |rows| && SameThing(pass, rows[i], rows[i]) ==> exists j :: 0 <= j < |kept| && SameThing(pass, rows[i], kept[j]))
      && (forall j :: 0 <= j < |kept| && SameThing(pass, kept[j], kept[j]) ==> exists i :: 0 <= i < |rows| && SameThing(pass, rows[i], kept[j]))
      && (forall i, j :: 0 <= i < j < |kept| ==> !SameThing(pass, kept[i], kept[j]))
  {
    hide Neutral, KeyOf, Coalesced, SameThing, Keys, FirstSeen;
    var kept := Coalesced(pass, rows);
    OneRowForEachKey(pass, rows);
    FirstSeenOnce(Keys(pass, rows));
    forall i | 0 <= i < |rows| && SameThing(pass, rows[i], rows[i]) ensures exists j :: 0 <= j < |kept| && SameThing(pass, rows[i], kept[j]) {
      ThingKept(pass, rows, kept, i);
    }
    forall j | 0 <= j < |kept| && SameThing(pass, kept[j], kept[j]) ensures exists i :: 0 <= i < |rows| && SameThing(pass, rows[i], kept[j]) {
      ThingKept(pass, kept, rows, j);
      var i :| 0 <= i < |rows| && SameThing(pass, kept[j], rows[i]);
      SameThingSameKey(pass, kept[j], rows[i]);
      SameThingSameKey(pass, rows[i], kept[j]);
    }
    forall i, j | 0 <= i < j < |kept| ensures !SameThing(pass, kept[i], kept[j]) {
      SameThingSameKey(pass, kept[i], kept[j]);
      if SameThing(pass, kept[i], kept[j]) { SameKeySamePlace(pass, rows, i, j); }
    }
  }

  lemma ThingKept(pass: Pass, a: seq<RowData>, b: seq<RowData>, i: nat)
    requires i < |a| && SameThing(pass, a[i], a[i]) && forall k :: k in Keys(pass, a) ==> k in Keys(pass, b)
    ensures exists j :: 0 <= j < |b| && SameThing(pass, a[i], b[j])
  {
    hide Neutral, KeyOf, SameThing, Keys;
    SameThingSameKey(pass, a[i], a[i]);
    KnownIsKey(pass, a, KeyOf(pass, a[i]));
    KnownIsKey(pass, b, KeyOf(pass, a[i]));
    var j :| 0 <= j < |b| && Neutral(pass, b[j]) && KeyOf(pass, b[j]) == KeyOf(pass, a[i]);
    SameThingSameKey(pass, a[i], b[j]);
  }

  /** Different rows give different places in the list of keys. */
  lemma {:induction false} KeyPlaces(pass: Pass, rows: seq<RowData>, i: nat, j: nat)
    requires i < j < |rows| && Neutral(pass, rows[i]) && Neutral(pass, rows[j])
    ensures exists a: nat, b: nat :: a < b < |Keys(pass, rows)| && Keys(pass, rows)[a] == KeyOf(pass, rows[i]) && Keys(pass, rows)[b] == KeyOf(pass, rows[j])
    decreases |rows|
  {
    hide Neutral, KeyOf;
    var n := |rows| - 1;
    if j < n {
      KeyPlaces(pass, rows[..n], i, j);
      var a: nat, b: nat :| a < b < |Keys(pass, rows[..n])| && Keys(pass, rows[..n])[a] == KeyOf(pass, rows[i]) && Keys(pass, rows[..n])[b] == KeyOf(pass, rows[j]);
      assert Keys(pass, rows)[a] == KeyOf(pass, rows[i]) && Keys(pass, rows)[b] == KeyOf(pass, rows[j]);
    } else {
      RowHasPlace(pass, rows[..n], i);
      var a: nat :| a < |Keys(pass, rows[..n])| && Keys(pass, rows[..n])[a] == KeyOf(pass, rows[i]);
      assert Keys(pass, rows)[a] == KeyOf(pass, rows[i]) && Keys(pass, rows)[|Keys(pass, rows)| - 1] == KeyOf(pass, rows[j]);
    }
  }

  lemma {:induction false} RowHasPlace(pass: Pass, rows: seq<RowData>, i: nat)
    requires i < |rows| && Neutral(pass, rows[i])
    ensures exists a: nat :: a < |Keys(pass, rows)| && Keys(pass, rows)[a] == KeyOf(pass, rows[i])
    decreases |rows|
  {
    hide Neutral, KeyOf;
    var n := |rows| - 1;
    if i < n {
      RowHasPlace(pass, rows[..n], i);
      var a: nat :| a < |Keys(pass, rows[..n])| && Keys(pass, rows[..n])[a] == KeyOf(pass, rows[i]);
      assert Keys(pass, rows)[a] == KeyOf(pass, rows[i]);
    } else {
      assert Keys(pass, rows)[|Keys(pass, rows)| - 1] == KeyOf(pass, rows[i]);
    }
  }

  // ---------- addresses ----------

  function Ip(row: RowData): set<string> { Unique(if row.ip.Some? then {row.ip.value} else {}) }

  function GroupIps(pass: Pass, rows: seq<RowData>, k: Key): set<string>
    decreases |rows|
  {
    if rows == [] then {} else
      GroupIps(pass, rows[..|rows| - 1], k) + if InGroup(pass, rows[|rows| - 1], k) then Ip(rows[|rows| - 1]) else {}
  }

  /** All addresses the rows of a group name, as their own or as observed. */
  function GroupAddresses(pass: Pass, rows: seq<RowData>, k: Key): set<string>
    decreases |rows|
  {
    if rows == [] then {} else
      GroupAddresses(pass, rows[..|rows| - 1], k) + if InGroup(pass, rows[|rows| - 1], k) then Addresses(rows[|rows| - 1]) else {}
  }

  /** The first row of a group. */
  function FirstOf(pass: Pass, rows: seq<RowData>, k: Key): Option<RowData>
    decreases |rows|
  {
    if rows == [] then None else
      var n := |rows| - 1;
      var before := FirstOf(pass, rows[..n], k);
      if before.None? && InGroup(pass, rows[n], k) then Some(rows[n]) else before
  }

  /** A retained row names what the first row of its group names and each later row's own address; it names
      nothing if the first row names nothing. */
  ghost predicate HoldsAddresses(pass: Pass, rows: seq<RowData>, row: RowData) {
    var k := KeyOf(pass, row);
    var first := FirstOf(pass, rows, k);
    && first.Some?
    && Addresses(row) == if Addresses(first.value) == {} then {} else Addresses(first.value) + GroupIps(pass, rows, k)
  }

  lemma {:induction false} EmptyIps(pass: Pass, rows: seq<RowData>, k: Key)
    requires k !in Keys(pass, rows)
    ensures GroupIps(pass, rows, k) == {} && FirstOf(pass, rows, k) == None
    decreases |rows|
  {
    hide Neutral, KeyOf, Ip;
    if rows != [] { EmptyIps(pass, rows[..|rows| - 1], k); }
  }

  lemma IpsGrow(pass: Pass, rows: seq<RowData>, row: RowData, k: Key)
    ensures GroupIps(pass, rows + [row], k) == GroupIps(pass, rows, k) + if InGroup(pass, row, k) then Ip(row) else {}
    ensures FirstOf(pass, rows + [row], k) ==
              if FirstOf(pass, rows, k).None? && InGroup(pass, row, k) then Some(row) else FirstOf(pass, rows, k)
  {
    hide InGroup, Ip;
    assert (rows + [row])[..|rows|] == rows;
  }

  lemma AddressesFirst(pass: Pass, rows: seq<RowData>, next: RowData)
    requires Neutral(pass, next) && KeyOf(pass, next) !in Keys(pass, rows)
    ensures HoldsAddresses(pass, rows + [next], First(pass, next))
  {
    hide Neutral, GroupIps, FirstOf, CountOf;
    KnownIp(next);
    SameObserved(First(pass, next), next);
    FirstKeeps(pass, next);
    EmptyIps(pass, rows, KeyOf(pass, next));
    IpsGrow(pass, rows, next, KeyOf(pass, next));
  }

  lemma OneIp(row: RowData)
    ensures |Ip(row)| <= 1
  {
    if row.ip.Some? { SubsetSize(Ip(row), {row.ip.value}); }
  }

  lemma AllKnown(known: set<string>, more: set<string>)
    requires known != {} && |known + more| <= 1
    ensures known + more == known
  {
    var x :| x in known;
    SubsetSize({x}, known);
    SameSize(known, known + more);
  }

  lemma ObservedAddresses(row: RowData, observed: set<string>)
    requires Addresses(row) <= observed && "" !in observed
    ensures Addresses(row.(observed := observed)) == observed
  {}

  /** A merge adds the later row's address to those known, unless none is known. */
  lemma MergedAddresses(pass: Pass, row: RowData, later: RowData)
    ensures Addresses(Merge(pass, row, later)) == if Addresses(row) == {} then {} else Addresses(row) + Ip(later)
    ensures Addresses(row) == {} ==> Merge(pass, row, later).observed == row.observed
  {
    hide MergeRefs, CountOf, Addresses;
    var known, more := Addresses(row), Ip(later);
    OneIp(later);
    KnownAreNamed(row);
    SameObserved(row.(observed := Merge(pass, row, later).observed), Merge(pass, row, later));
    SameObserved(row, row.(observed := row.observed));
    if known == {} {
      assert known + more == more;
    } else if |known + more| <= 1 {
      AllKnown(known, more);
    } else {
      ObservedAddresses(row, known + more);
    }
  }

  lemma KnownAreNamed(row: RowData)
    ensures "" !in Addresses(row)
  {}

  lemma SameObserved(a: RowData, b: RowData)
    requires a.observed == b.observed && a.ip == b.ip
    ensures Addresses(a) == Addresses(b)
  {}

  lemma AddressesMerged(pass: Pass, rows: seq<RowData>, next: RowData, row: RowData)
    requires HoldsAddresses(pass, rows, row) && InGroup(pass, next, KeyOf(pass, row))
    ensures HoldsAddresses(pass, rows + [next], Merge(pass, row, next))
  {
    hide Neutral, KeyOf, MergeRefs, CountOf, Unique, GroupIps, FirstOf, Addresses, Ip, Merge;
    IpsGrow(pass, rows, next, KeyOf(pass, row));
    MergedAddresses(pass, row, next);
    MergeKeeps(pass, row, next);
    KnownIp(row);
  }

  lemma KnownIp(row: RowData)
    ensures Ip(row) <= Addresses(row)
  {}

  lemma SameSize(a: set<string>, b: set<string>)
    requires a <= b && |b| <= |a|
    ensures a == b
  {
    if x :| x in b && x !in a { SubsetSize(a, b - {x}); }
  }

  lemma AddressesElsewhere(pass: Pass, rows: seq<RowData>, next: RowData, row: RowData)
    requires HoldsAddresses(pass, rows, row) && !InGroup(pass, next, KeyOf(pass, row))
    ensures HoldsAddresses(pass, rows + [next], row)
  {
    hide Neutral, KeyOf, Ip, Addresses, GroupIps, FirstOf;
    IpsGrow(pass, rows, next, KeyOf(pass, row));
  }

  lemma AddressesAdded(pass: Pass, before: seq<RowData>, kept: seq<RowData>, next: RowData, row: RowData)
    requires kept == Coalesced(pass, before) && row in Add(pass, kept, next) && Neutral(pass, row)
    requires forall r :: r in kept && Neutral(pass, r) ==> HoldsAddresses(pass, before, r)
    ensures HoldsAddresses(pass, before + [next], row)
  {
    hide Neutral, KeyOf, First, Merge, Find, HoldsAddresses, Coalesced;
    var k := KeyOf(pass, next);
    var at := Find(pass, kept, k);
    FirstKeeps(pass, next);
    if !Neutral(pass, next) {
      AddressesElsewhere(pass, before, next, row);
    } else if at.None? {
      OneRowForEachKey(pass, before);
      FirstSeenOnce(Keys(pass, before));
      FoundIsSeen(pass, kept, k);
      if row in kept {
        AddressesElsewhere(pass, before, next, row);
      } else {
        AddressesFirst(pass, before, next);
      }
    } else {
      var i :| 0 <= i < |kept| && Add(pass, kept, next)[i] == row;
      if i == at.value {
        AddressesMerged(pass, before, next, kept[i]);
      } else {
        SameKeySamePlace(pass, before, i, at.value);
        AddressesElsewhere(pass, before, next, row);
      }
    }
  }

  lemma {:induction false} AddressesHeld(pass: Pass, rows: seq<RowData>)
    ensures forall row :: row in Coalesced(pass, rows) && Neutral(pass, row) ==> HoldsAddresses(pass, rows, row)
    decreases |rows|
  {
    hide Neutral, KeyOf, First, Merge, Find, HoldsAddresses;
    if rows != [] {
      var n := |rows| - 1;
      var kept, next := Coalesced(pass, rows[..n]), rows[n];
      AddressesHeld(pass, rows[..n]);
      assert rows == rows[..n] + [next];
      forall row | row in Coalesced(pass, rows) && Neutral(pass, row) ensures HoldsAddresses(pass, rows, row) {
        AddressesAdded(pass, rows[..n], kept, next, row);
      }
    }
  }

  /** When a group's addresses all survive: none of its rows names any, or its first row names one and what its
      rows list as observed is named by the first row or is the own address of some row. */
  ghost predicate NamesSurvive(pass: Pass, rows: seq<RowData>, k: Key, first: RowData) {
    || (forall i :: 0 <= i < |rows| && InGroup(pass, rows[i], k) ==> Addresses(rows[i]) == {})
    || (&& Addresses(first) != {}
        && forall i :: 0 <= i < |rows| && InGroup(pass, rows[i], k) ==>
             Unique(rows[i].observed) <= Addresses(first) + GroupIps(pass, rows, k))
  }

  /** Membership in a group's addresses, row by row. */
  lemma {:induction false} GroupAddressesAre(pass: Pass, rows: seq<RowData>, k: Key, x: string)
    ensures x in GroupAddresses(pass, rows, k) <==> exists i :: 0 <= i < |rows| && InGroup(pass, rows[i], k) && x in Addresses(rows[i])
    ensures x in GroupIps(pass, rows, k) <==> exists i :: 0 <= i < |rows| && InGroup(pass, rows[i], k) && x in Ip(rows[i])
    decreases |rows|
  {
    hide InGroup, Addresses, Ip;
    if rows != [] {
      var n := |rows| - 1;
      GroupAddressesAre(pass, rows[..n], k, x);
      assert forall i :: 0 <= i < n ==> rows[..n][i] == rows[i];
    }
  }

  lemma AddressesSplit(row: RowData)
    ensures Addresses(row) == Unique(row.observed) + Ip(row)
  {}

  lemma {:induction false} FirstIsMember(pass: Pass, rows: seq<RowData>, k: Key)
    requires FirstOf(pass, rows, k).Some?
    ensures exists i :: 0 <= i < |rows| && InGroup(pass, rows[i], k) && rows[i] == FirstOf(pass, rows, k).value
    decreases |rows|
  {
    hide InGroup;
    var n := |rows| - 1;
    if FirstOf(pass, rows[..n], k).Some? {
      FirstIsMember(pass, rows[..n], k);
      var i :| 0 <= i < n && InGroup(pass, rows[..n][i], k) && rows[..n][i] == FirstOf(pass, rows[..n], k).value;
      assert InGroup(pass, rows[i], k) && rows[i] == FirstOf(pass, rows, k).value;
    } else {
      assert InGroup(pass, rows[n], k);
    }
  }

  /** No address of a group is lost if and only if its names survive. */
  lemma AddressesKeptExactly(pass: Pass, rows: seq<RowData>, row: RowData)
    requires row in Coalesced(pass, rows) && Neutral(pass, row)
    ensures var k := KeyOf(pass, row);
      var first := FirstOf(pass, rows, k);
      first.Some? && (Addresses(row) == GroupAddresses(pass, rows, k) <==> NamesSurvive(pass, rows, k, first.value))
  {
    hide Neutral, KeyOf, Coalesced, NamesSurvive, Addresses, Ip;
    AddressesHeld(pass, rows);
    SurvivalIsEquality(pass, rows, KeyOf(pass, row));
  }

  lemma SurvivalIsEquality(pass: Pass, rows: seq<RowData>, k: Key)
    requires FirstOf(pass, rows, k).Some?
    ensures var first := FirstOf(pass, rows, k).value;
      (if Addresses(first) == {} then {} else Addresses(first) + GroupIps(pass, rows, k)) == GroupAddresses(pass, rows, k)
      <==> NamesSurvive(pass, rows, k, first)
  {
    hide InGroup, Addresses, Ip, GroupIps, GroupAddresses, FirstOf;
    var first := FirstOf(pass, rows, k).value;
    FirstIsMember(pass, rows, k);
    forall x
      ensures x in GroupAddresses(pass, rows, k) <==> exists i :: 0 <= i < |rows| && InGroup(pass, rows[i], k) && x in Addresses(rows[i])
      ensures x in GroupIps(pass, rows, k) <==> exists i :: 0 <= i < |rows| && InGroup(pass, rows[i], k) && x in Ip(rows[i])
    {
      GroupAddressesAre(pass, rows, k, x);
    }
    forall i | 0 <= i < |rows| ensures Addresses(rows[i]) == Unique(rows[i].observed) + Ip(rows[i]) { AddressesSplit(rows[i]); }
  }

  const LOOKUP := RowData("c2", "network_observation", true, "f", "weak", map[], "s", None, Some("host.example"), None,
                          Some(443), Some("tcp"), [], None, None, {}, [], {}, {}, NO_MEMBERS)

  lemma TwoRows(pass: Pass, a: RowData, b: RowData)
    requires Neutral(pass, a) && Neutral(pass, b) && KeyOf(pass, a) == KeyOf(pass, b)
    ensures Coalesced(pass, [a, b]) == [Merge(pass, First(pass, a), b)]
    ensures GroupAddresses(pass, [a, b], KeyOf(pass, b)) == Addresses(a) + Addresses(b)
  {
    hide Neutral, KeyOf, First, Merge, Addresses;
    assert [a, b][..1] == [a] && [a][..0] == [];
    FirstKeeps(pass, a);
    assert Find(pass, [], KeyOf(pass, a)).None?;
    assert Coalesced(pass, [a]) == Add(pass, [], a) == [First(pass, a)];
    FindAppended(pass, [], First(pass, a), KeyOf(pass, b));
    assert Coalesced(pass, [a, b]) == Add(pass, [First(pass, a)], b);
    assert GroupAddresses(pass, [a], KeyOf(pass, b)) == Addresses(a);
  }

  /** Two observations of one host, the first without an address: the address of the second is lost. */
  lemma AddressLost()
    ensures var rows := [LOOKUP, LOOKUP.(ip := Some("10.0.0.1"))];
      exists row :: Coalesced(RuntimePass, rows) == [row] && Addresses(row) == {}
        && GroupAddresses(RuntimePass, rows, KeyOf(RuntimePass, rows[1])) == {"10.0.0.1"}
  {
    hide Coalesced, GroupAddresses, Merge;
    var second := LOOKUP.(ip := Some("10.0.0.1"));
    TwoRows(RuntimePass, LOOKUP, second);
    SameObserved(First(RuntimePass, LOOKUP), LOOKUP);
    MergedAddresses(RuntimePass, First(RuntimePass, LOOKUP), second);
  }

  /** The second lists an address that no row has as its own: it is lost, although the first has an address. */
  lemma ListedAddressLost()
    ensures var rows := [LOOKUP.(ip := Some("10.0.0.1")), LOOKUP.(ip := Some("10.0.0.2"), observed := {"10.0.0.2", "10.0.0.3"})];
      exists row :: Coalesced(RuntimePass, rows) == [row] && Addresses(row) == {"10.0.0.1", "10.0.0.2"}
        && GroupAddresses(RuntimePass, rows, KeyOf(RuntimePass, rows[1])) == {"10.0.0.1", "10.0.0.2", "10.0.0.3"}
  {
    hide Coalesced, GroupAddresses, Merge;
    var first, second := LOOKUP.(ip := Some("10.0.0.1")), LOOKUP.(ip := Some("10.0.0.2"), observed := {"10.0.0.2", "10.0.0.3"});
    TwoRows(RuntimePass, first, second);
    SameObserved(First(RuntimePass, first), first);
    MergedAddresses(RuntimePass, First(RuntimePass, first), second);
  }

  // ---------- identities ----------

  /** Distinct, non-empty finding ids that no earlier pass has merged. */
  ghost predicate FreshIds(rows: seq<RowData>) {
    && (forall i :: 0 <= i < |rows| ==> rows[i].ids == {} && rows[i].id != "")
    && (forall i, j :: 0 <= i < j < |rows| ==> rows[i].id != rows[j].id)
  }

  lemma {:induction false} IdsOfGroup(pass: Pass, rows: seq<RowData>, k: Key, id: string)
    requires forall i :: 0 <= i < |rows| ==> rows[i].ids == {}
    ensures id in GroupIds(pass, rows, k) <==> exists i :: 0 <= i < |rows| && rows[i].id == id && InGroup(pass, rows[i], k)
    decreases |rows|
  {
    hide InGroup;
    if rows != [] {
      var n := |rows| - 1;
      IdsOfGroup(pass, rows[..n], k, id);
      if i :| 0 <= i < n && rows[..n][i].id == id && InGroup(pass, rows[..n][i], k) {
        assert rows[i].id == id && InGroup(pass, rows[i], k);
      }
      if i :| 0 <= i < |rows| && rows[i].id == id && InGroup(pass, rows[i], k) && i < n {
        assert rows[..n][i].id == id && InGroup(pass, rows[..n][i], k);
      }
    }
  }

  /** In a report, the id of every neutral finding is held by exactly one retained row, that of its key. */
  lemma EachIdOnce(rows: seq<RowData>, i: nat, row: RowData)
    requires FreshIds(rows) && i < |rows| && Neutral(ReportPass, rows[i])
    requires row in Coalesced(ReportPass, rows) && Neutral(ReportPass, row)
    ensures rows[i].id in row.ids <==> KeyOf(ReportPass, row) == KeyOf(ReportPass, rows[i])
  {
    hide Neutral, KeyOf, Coalesced, GroupRefs, GroupIds;
    GroupsHeld(ReportPass, rows);
    IdsOfGroup(ReportPass, rows, KeyOf(ReportPass, row), rows[i].id);
  }

  /** And there is such a row. */
  lemma EachIdHeld(rows: seq<RowData>, i: nat)
    requires FreshIds(rows) && i < |rows| && Neutral(ReportPass, rows[i])
    ensures exists j: nat :: j < |Coalesced(ReportPass, rows)| && Neutral(ReportPass, Coalesced(ReportPass, rows)[j])
              && rows[i].id in Coalesced(ReportPass, rows)[j].ids
  {
    hide Neutral, KeyOf, Coalesced;
    var all := Coalesced(ReportPass, rows);
    RowHasPlace(ReportPass, rows, i);
    OneRowForEachKey(ReportPass, rows);
    FirstSeenOnce(Keys(ReportPass, rows));
    FoundIsSeen(ReportPass, all, KeyOf(ReportPass, rows[i]));
    var at := Find(ReportPass, all, KeyOf(ReportPass, rows[i]));
    EachIdOnce(rows, i, all[at.value]);
  }

  // ---------- a second pass ----------

  /** A row that the first pass over its key would not change. */
  predicate Settled(pass: Pass, row: RowData) { Neutral(pass, row) ==> First(pass, row) == row }

  lemma FirstSettled(pass: Pass, row: RowData)
    ensures Settled(pass, First(pass, row))
  {}

  lemma MergeSettled(pass: Pass, row: RowData, later: RowData)
    requires Settled(pass, row) && Neutral(pass, row) && 1 <= CountOf(row) && 1 <= CountOf(later)
    ensures Settled(pass, Merge(pass, row, later))
  {}

  lemma {:induction false} AllSettled(pass: Pass, rows: seq<RowData>)
    requires Counted(pass, rows)
    ensures forall i :: 0 <= i < |Coalesced(pass, rows)| ==> Settled(pass, Coalesced(pass, rows)[i])
    decreases |rows|
  {
    hide Neutral, KeyOf, First, Merge, Find, Settled, CountOf;
    if rows != [] {
      var n := |rows| - 1;
      var kept, next := Coalesced(pass, rows[..n]), rows[n];
      AllSettled(pass, rows[..n]);
      TotalKept(pass, rows[..n]);
      FirstSettled(pass, next);
      NotNeutralSettled(pass, next);
      var at := Find(pass, kept, KeyOf(pass, next));
      if at.Some? && Neutral(pass, next) { MergeSettled(pass, kept[at.value], next); }
    }
  }

  lemma NotNeutralSettled(pass: Pass, row: RowData)
    ensures !Neutral(pass, row) ==> Settled(pass, row)
  {}

  lemma {:induction false} SettledStays(pass: Pass, rows: seq<RowData>)
    requires forall i :: 0 <= i < |rows| ==> Settled(pass, rows[i])
    requires forall i, j :: 0 <= i < j < |rows| && Neutral(pass, rows[i]) && Neutral(pass, rows[j]) ==> KeyOf(pass, rows[i]) != KeyOf(pass, rows[j])
    ensures Coalesced(pass, rows) == rows
    decreases |rows|
  {
    hide Neutral, KeyOf, First, Merge, Find;
    if rows != [] {
      var n := |rows| - 1;
      SettledStays(pass, rows[..n]);
      assert rows == rows[..n] + [rows[n]];
    }
  }

  /** A second pass changes nothing. */
  lemma SecondPassIdle(pass: Pass, rows: seq<RowData>)
    requires Counted(pass, rows)
    ensures Coalesced(pass, Coalesced(pass, rows)) == Coalesced(pass, rows)
  {
    hide Neutral, KeyOf, Coalesced, Settled;
    AllSettled(pass, rows);
    var all := Coalesced(pass, rows);
    forall i, j | 0 <= i < j < |all| && Neutral(pass, all[i]) && Neutral(pass, all[j]) ensures KeyOf(pass, all[i]) != KeyOf(pass, all[j]) {
      SameKeySamePlace(pass, rows, i, j);
    }
    SettledStays(pass, all);
  }
}
