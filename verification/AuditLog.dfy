/** The audit log: its writer, its verifier, and what the verifier can see. */
module AuditLog {
  import opened Tables
  import opened HashChain

  /** What the first row follows. */
  function ZeroHash(): (r: string)
    ensures |r| == 64 && forall i :: 0 <= i < 64 ==> r[i] == '0'
  {
    seq(64, _ => '0')
  }

  datatype Fields = Fields(
    actorType: string, actorId: Option<string>, action: string, targetType: string, targetId: Option<string>,
    payload: map<string, string>, createdAt: string)

  datatype AuditEvent = AuditEvent(sequence: nat, fields: Fields, previousHash: string, eventHash: string)

  /** The hash the row at position i should follow. */
  function Before(log: seq<AuditEvent>, i: nat): string
    requires i <= |log|
  {
    if i == 0 then ZeroHash() else log[i - 1].eventHash
  }

  predicate GoodAfter(h: Hashing<Fields>, previous: string, row: AuditEvent) {
    row.previousHash == previous && row.eventHash == h.Link(previous, row.fields)
  }

  predicate GoodAt(h: Hashing<Fields>, log: seq<AuditEvent>, i: int) {
    0 <= i < |log| ==> GoodAfter(h, Before(log, i), log[i])
  }

  ghost predicate Verified(h: Hashing<Fields>, log: seq<AuditEvent>) {
    forall i :: GoodAt(h, log, i)
  }

  /** Position k is where verification stops: everything before it is in order, and it is not. */
  ghost predicate StopsAt(h: Hashing<Fields>, log: seq<AuditEvent>, k: nat) {
    k < |log| && !GoodAt(h, log, k) && forall i :: i < k ==> GoodAt(h, log, i)
  }

  /** Whether a row is in order depends on it and on the row before it. */
  lemma SameUpTo(h: Hashing<Fields>, a: seq<AuditEvent>, b: seq<AuditEvent>, n: nat)
    requires n <= |a| && n <= |b| && a[..n] == b[..n]
    ensures forall i :: i < n ==> GoodAt(h, a, i) == GoodAt(h, b, i)
    ensures Before(a, n) == Before(b, n)
  {
    forall i | i < n ensures GoodAt(h, a, i) == GoodAt(h, b, i) {
      if 0 <= i {
        assert a[..n][i] == b[..n][i];
        assert 0 < i ==> a[..n][i - 1] == b[..n][i - 1];
      }
    }
    assert 0 < n ==> a[..n][n - 1] == b[..n][n - 1];
  }

  lemma AppendVerified(h: Hashing<Fields>, log: seq<AuditEvent>, row: AuditEvent)
    requires GoodAfter(h, Before(log, |log|), row)
    ensures Verified(h, log) ==> Verified(h, log + [row])
  {
    SameUpTo(h, log, log + [row], |log|);
  }

  /** What is appended; the payload may be left out. */
  datatype Entry = Entry(fields: Fields, payload: Option<map<string, string>>)

  /** What is stored of an entry: `payload or {}`. */
  function Stored(entry: Entry): Fields {
    entry.fields.(payload := if entry.payload.Some? then entry.payload.value else map[])
  }

  class Log {
    const h: Hashing<Fields>
    var events: seq<AuditEvent>

    /** Rows are read in the order of their sequence numbers. */
    ghost predicate Valid()
      reads this
    {
      forall i, j :: 0 <= i < j < |events| ==> events[i].sequence < events[j].sequence
    }

    constructor (h: Hashing<Fields>)
      ensures this.h == h && events == [] && Valid()
    {
      this.h, events := h, [];
    }

    /** `append_audit`; the sequence number is the database's next one. */
    method Append(entry: Entry, sequence: nat) returns (event: AuditEvent)
      requires Valid() && forall i :: 0 <= i < |events| ==> events[i].sequence < sequence
      modifies this`events
      ensures Valid() && events == old(events) + [event]
      ensures event.sequence == sequence && event.fields == Stored(entry)
      ensures GoodAfter(h, Before(old(events), |old(events)|), event)
      ensures old(Verified(h, events)) ==> Verified(h, events)
    {
      hide Verified;
      var previousHash := if events == [] then ZeroHash() else events[|events| - 1].eventHash;
      event := AuditEvent(sequence, Stored(entry), previousHash, h.Link(previousHash, Stored(entry)));
      AppendVerified(h, events, event);
      events := events + [event];
    }

    /** `verify_audit_chain`: the number of the first row that is not in order, if there is one. */
    method Verify() returns (valid: bool, at: Option<nat>)
      ensures valid <==> Verified(h, events)
      ensures valid <==> at.None?
      ensures !valid ==> exists k: nat :: StopsAt(h, events, k) && at == Some(events[k].sequence)
    {
      var previousHash := ZeroHash();
      var i := 0;
      while i < |events|
        invariant 0 <= i <= |events| && previousHash == Before(events, i)
        invariant forall j :: j < i ==> GoodAt(h, events, j)
      {
        var event := events[i];
        if event.previousHash != previousHash || event.eventHash != h.Link(previousHash, event.fields) {
          assert StopsAt(h, events, i);
          return false, Some(event.sequence);
        }
        previousHash := event.eventHash;
        i := i + 1;
      }
      return true, None;
    }
  }

  /** Whatever is appended, the log verifies and holds exactly the entries, in order. */
  method Write(h: Hashing<Fields>, entries: seq<Entry>) returns (log: Log)
    ensures fresh(log) && log.h == h && log.Valid() && Verified(h, log.events) && |log.events| == |entries|
    ensures forall i :: 0 <= i < |entries| ==> log.events[i].fields == Stored(entries[i])
    ensures Hashes(log.events) == Links(h, ZeroHash(), Contents(log.events))
  {
    hide Verified, Links;
    log := new Log(h);
    assert Verified(h, []) by { NothingVerified(h); }
    for i := 0 to |entries|
      invariant fresh(log) && log.h == h && log.Valid() && Verified(h, log.events) && |log.events| == i
      invariant forall j :: 0 <= j < i ==> log.events[j].fields == Stored(entries[j]) && log.events[j].sequence == j
    {
      var event := log.Append(entries[i], i);
    }
    VerifiedIsChain(h, log.events);
  }

  lemma NothingVerified(h: Hashing<Fields>)
    ensures Verified(h, [])
  {}

  // ---------- verified logs are chains ----------

  function Contents(log: seq<AuditEvent>): (r: seq<Fields>)
    ensures |r| == |log| && forall i :: 0 <= i < |r| ==> r[i] == log[i].fields
  {
    seq(|log|, i requires 0 <= i < |log| => log[i].fields)
  }

  function Hashes(log: seq<AuditEvent>): (r: seq<string>)
    ensures |r| == |log| && forall i :: 0 <= i < |r| ==> r[i] == log[i].eventHash
  {
    seq(|log|, i requires 0 <= i < |log| => log[i].eventHash)
  }

  lemma {:induction false} VerifiedIsChain(h: Hashing<Fields>, log: seq<AuditEvent>)
    requires Verified(h, log)
    ensures Hashes(log) == Links(h, ZeroHash(), Contents(log))
    decreases |log|
  {
    if log != [] {
      var n := |log| - 1;
      SameUpTo(h, log, log[..n], n);
      VerifiedIsChain(h, log[..n]);
      assert Contents(log)[..n] == Contents(log[..n]);
      assert GoodAt(h, log, n);
    }
  }

  ghost function Hashed(h: Hashing<Fields>, log: seq<AuditEvent>): set<string> {
    Inputs(h, ZeroHash(), Contents(log))
  }

  /** No two of the strings have one digest, and none has the digest that starts a log. */
  ghost predicate Distinguishes(h: Hashing<Fields>, inputs: set<string>) {
    Regular(h) && CollisionFree(h, inputs) && RootFree(h, ZeroHash(), inputs)
  }

  ghost predicate SameRows(a: seq<AuditEvent>, b: seq<AuditEvent>) {
    |a| == |b| && forall i :: 0 <= i < |a| ==>
      a[i].fields == b[i].fields && a[i].previousHash == b[i].previousHash && a[i].eventHash == b[i].eventHash
  }

  /** Two verifying logs with the same final hash hold the same rows. */
  lemma SameFinalHash(h: Hashing<Fields>, a: seq<AuditEvent>, b: seq<AuditEvent>)
    requires Verified(h, a) && Verified(h, b) && Distinguishes(h, Hashed(h, a) + Hashed(h, b))
    requires Before(a, |a|) == Before(b, |b|)
    ensures SameRows(a, b)
  {
    hide Links, Inputs, Regular, CollisionFree, RootFree;
    VerifiedIsChain(h, a);
    VerifiedIsChain(h, b);
    SameTipSameChain(h, ZeroHash(), Contents(a), Contents(b));
    assert Hashes(a) == Hashes(b);
    forall i | 0 <= i < |a|
      ensures a[i].fields == b[i].fields && a[i].previousHash == b[i].previousHash && a[i].eventHash == b[i].eventHash
    {
      assert Contents(a)[i] == Contents(b)[i] && Hashes(a)[i] == Hashes(b)[i];
      assert GoodAt(h, a, i) && GoodAt(h, b, i);
      assert 0 < i ==> Hashes(a)[i - 1] == Hashes(b)[i - 1];
    }
  }

  // ---------- what the verifier sees ----------

  /** One row of a valid log is changed: it is reported itself, unless its hash was made to fit; then the
      row after it is reported, and only a change of the last row with a fitting hash goes unseen. */
  lemma ChangedRow(h: Hashing<Fields>, log: seq<AuditEvent>, k: nat, row: AuditEvent)
    requires Verified(h, log) && k < |log| && row != log[k] && row.sequence == log[k].sequence && Regular(h)
    requires CollisionFree(h, {h.Input(Before(log, k), log[k].fields), h.Input(Before(log, k), row.fields)})
    ensures var changed := log[k := row];
      if !GoodAfter(h, Before(log, k), row) then StopsAt(h, changed, k)
      else if k + 1 < |log| then StopsAt(h, changed, k + 1)
      else Verified(h, changed)
  {
    var changed := log[k := row];
    SameUpTo(h, log, changed, k);
    assert GoodAt(h, log, k);
    if GoodAfter(h, Before(log, k), row) && k + 1 < |log| {
      assert row.fields != log[k].fields;
      InputsDiffer(h, Before(log, k), row.fields, log[k].fields);
      assert row.eventHash != log[k].eventHash;
      assert GoodAt(h, log, k + 1);
    }
  }

  /** Rows i..j are cut out of a valid log: the row that then comes at i is reported. */
  lemma DeletedRows(h: Hashing<Fields>, log: seq<AuditEvent>, i: nat, j: nat)
    requires Verified(h, log) && i < j < |log| && Distinguishes(h, Hashed(h, log))
    ensures StopsAt(h, log[..i] + log[j..], i)
  {
    hide Links, Inputs, Regular, CollisionFree, RootFree;
    var left := log[..i] + log[j..];
    SameUpTo(h, log, left, i);
    assert left[i] == log[j] && GoodAt(h, log, j);
    VerifiedPrefix(h, log, i);
    VerifiedPrefix(h, log, j);
    TipsDiffer(h, ZeroHash(), Contents(log), i, j);
  }

  /** Rows cut off the end leave a log that verifies. */
  lemma VerifiedPrefix(h: Hashing<Fields>, log: seq<AuditEvent>, n: nat)
    requires Verified(h, log) && n <= |log|
    ensures Verified(h, log[..n])
    ensures Before(log, n) == Tip(ZeroHash(), Links(h, ZeroHash(), Contents(log)[..n]))
  {
    hide Links;
    SameUpTo(h, log, log[..n], n);
    VerifiedIsChain(h, log[..n]);
    assert Contents(log)[..n] == Contents(log[..n]);
  }

  /** Any other history that ends in the same hash is reported somewhere. */
  lemma ForgedHistory(h: Hashing<Fields>, log: seq<AuditEvent>, forged: seq<AuditEvent>)
    requires Verified(h, log) && Distinguishes(h, Hashed(h, log) + Hashed(h, forged))
    requires Before(forged, |forged|) == Before(log, |log|) && !SameRows(log, forged)
    ensures exists k: nat :: StopsAt(h, forged, k)
  {
    hide Links, Inputs, Regular, CollisionFree, RootFree, GoodAfter;
    if Verified(h, forged) {
      SameFinalHash(h, log, forged);
    } else {
      var k :| !GoodAt(h, forged, k);
      FirstStop(h, forged, k);
    }
  }

  lemma {:induction false} FirstStop(h: Hashing<Fields>, log: seq<AuditEvent>, k: nat)
    requires k < |log| && !GoodAt(h, log, k)
    ensures exists m: nat :: StopsAt(h, log, m)
    decreases k
  {
    if i: nat :| i < k && !GoodAt(h, log, i) {
      FirstStop(h, log, i);
    } else {
      assert StopsAt(h, log, k);
    }
  }
}
