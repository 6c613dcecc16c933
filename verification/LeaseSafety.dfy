/** The invariant that ties stage states, unreleased leases and open attempts together, and what the
    tables never forget. Each row update keeps both; no handler re-reads a stage state before writing. */
module LeaseSafety {
  import opened Tables
  import opened Handlers

  // ---------- the invariant ----------

  ghost predicate Bounded(db: Db) {
    forall a :: a in db.attempts ==> 1 <= db.attempts[a].number <= Count(db, db.attempts[a].stage)
  }

  ghost predicate SameNumber(db: Db, a: AttemptId, b: AttemptId) {
    && a in db.attempts && b in db.attempts
    && db.attempts[a].stage == db.attempts[b].stage && db.attempts[a].number == db.attempts[b].number
  }

  ghost predicate DistinctNumbers(db: Db) { forall a, b :: SameNumber(db, a, b) ==> a == b }

  ghost predicate RoomLeft(db: Db) {
    forall s :: s in db.stages ==>
      && Count(db, s) <= Allowance(db.stages[s].maxAttempts)
      && (Pending(db.stages[s].state) ==> Count(db, s) < Allowance(db.stages[s].maxAttempts))
  }

  ghost predicate SameAttempt(db: Db, l: LeaseId, m: LeaseId) {
    l in db.leases && m in db.leases && db.leases[l].attempt == db.leases[m].attempt
  }

  ghost predicate Paired(db: Db) { forall l, m :: SameAttempt(db, l, m) ==> l == m }

  ghost predicate Newest(db: Db, a: AttemptId) {
    a in db.attempts && db.attempts[a].number == Count(db, db.attempts[a].stage)
  }

  ghost predicate Holds(db: Db, l: LeaseId, s: StageId) { Live(db, l) && db.leases[l].stage == s }

  ghost predicate LeasesOpen(db: Db)
    requires Refs(db)
  {
    forall l :: Live(db, l) ==> Open(db.attempts[db.leases[l].attempt].state)
  }

  ghost predicate OpenNewest(db: Db)
    requires Refs(db)
  {
    forall a :: a in db.attempts && Open(db.attempts[a].state) ==>
      Newest(db, a) && Active(db.stages[db.attempts[a].stage].state)
  }

  ghost predicate ActiveHeld(db: Db) {
    forall s :: s in db.stages && Active(db.stages[s].state) ==> exists l :: Holds(db, l, s)
  }

  ghost predicate Closed(x: Attempt, t: int) {
    !Open(x.state) && x.endedAt.Some? && x.startedAt <= x.endedAt.value <= t
  }

  ghost predicate Clocked(db: Db, t: int) {
    forall a :: a in db.attempts ==>
      if Open(db.attempts[a].state) then db.attempts[a].endedAt.None? && db.attempts[a].startedAt <= t
      else Closed(db.attempts[a], t)
  }

  /** Attempt b is the one after attempt a. */
  ghost predicate Next(db: Db, a: AttemptId, b: AttemptId) {
    && a in db.attempts && b in db.attempts && db.attempts[a].stage == db.attempts[b].stage
    && db.attempts[b].number == db.attempts[a].number + 1
  }

  ghost predicate Waited(x: Attempt, from: int) {
    !Open(x.state) && x.endedAt.Some? && x.endedAt.value + Backoff(x.number) <= from
  }

  ghost predicate Spaced(db: Db) {
    forall a, b :: Next(db, a, b) ==> Waited(db.attempts[a], db.attempts[b].startedAt)
  }

  ghost predicate Due(stage: Stage, x: Attempt) {
    !Open(x.state) && x.endedAt.Some? && stage.nextAttemptAt == Some(x.endedAt.value + Backoff(x.number))
  }

  ghost predicate Scheduled(db: Db)
    requires Refs(db)
  {
    forall a :: Newest(db, a) && db.stages[db.attempts[a].stage].state == Queued ==>
      Due(db.stages[db.attempts[a].stage], db.attempts[a])
  }

  ghost predicate Numbered(db: Db) { Bounded(db) && DistinctNumbers(db) && RoomLeft(db) && Paired(db) }

  ghost predicate Guarded(db: Db)
    requires Refs(db)
  {
    LeasesOpen(db) && OpenNewest(db) && ActiveHeld(db)
  }

  ghost predicate Timed(db: Db, t: int)
    requires Refs(db)
  {
    Clocked(db, t) && Spaced(db) && Scheduled(db)
  }

  ghost predicate Safe(db: Db, t: int) { Refs(db) && Numbered(db) && Guarded(db) && Timed(db, t) }

  /** A leased or running stage has exactly one unreleased lease, held by its newest attempt, which is
      open; every other attempt of the stage has ended. A stage in any other state has none. */
  lemma ExactlyOneLease(db: Db, s: StageId)
    requires Refs(db) && Numbered(db) && Guarded(db) && s in db.stages
    ensures Active(db.stages[s].state) <==> exists l :: Holds(db, l, s)
    ensures forall l, m :: Holds(db, l, s) && Holds(db, m, s) ==> l == m
    ensures forall l :: Holds(db, l, s) ==>
              Newest(db, db.leases[l].attempt) && Open(db.attempts[db.leases[l].attempt].state)
    ensures forall l, a :: Holds(db, l, s) && a in db.attempts && db.attempts[a].stage == s && a != db.leases[l].attempt
              ==> !Open(db.attempts[a].state)
  {
    hide RoomLeft, Allowance, Bounded;
    forall l, m | Holds(db, l, s) && Holds(db, m, s) ensures l == m {
      var a, b := db.leases[l].attempt, db.leases[m].attempt;
      assert Newest(db, a) && Newest(db, b) && SameNumber(db, a, b);
      assert SameAttempt(db, l, m);
    }
    forall l, a | Holds(db, l, s) && a in db.attempts && db.attempts[a].stage == s && a != db.leases[l].attempt
      ensures !Open(db.attempts[a].state)
    {
      assert Newest(db, db.leases[l].attempt);
      assert SameNumber(db, a, db.leases[l].attempt) || !Newest(db, a);
    }
  }

  // ---------- what no step ever changes ----------

  ghost predicate RunsKept(db: Db, d: Db) {
    forall r :: r in db.runs ==> r in d.runs && d.runs[r].c2Enabled == db.runs[r].c2Enabled
  }

  ghost predicate StagesKept(db: Db, d: Db) {
    forall s :: s in db.stages ==>
      && s in d.stages
      && d.stages[s].run == db.stages[s].run && d.stages[s].kind == db.stages[s].kind
      && d.stages[s].maxAttempts == db.stages[s].maxAttempts && d.stages[s].timeout == db.stages[s].timeout
      && (Final(db.stages[s].state) ==> d.stages[s] == db.stages[s])
  }

  ghost predicate AttemptsKept(db: Db, d: Db) {
    forall a :: a in db.attempts ==>
      && a in d.attempts
      && d.attempts[a].stage == db.attempts[a].stage && d.attempts[a].number == db.attempts[a].number
      && d.attempts[a].startedAt == db.attempts[a].startedAt
      && (!Open(db.attempts[a].state) ==> d.attempts[a] == db.attempts[a])
  }

  ghost predicate LeasesKept(db: Db, d: Db) {
    forall l :: l in db.leases ==>
      && l in d.leases
      && d.leases[l].stage == db.leases[l].stage && d.leases[l].attempt == db.leases[l].attempt
      && (db.leases[l].releasedAt.Some? ==> d.leases[l] == db.leases[l])
  }

  datatype Phase = IsPending | IsActive | IsFinal

  function PhaseOf(state: StageState): Phase {
    if Pending(state) then IsPending else if Active(state) then IsActive else IsFinal
  }

  /** What a stage still has ahead of it: two moves for every attempt it may yet be granted. */
  function Ahead(db: Db, s: StageId): int
    requires s in db.stages
  {
    var unused := Allowance(db.stages[s].maxAttempts) - Count(db, s);
    match PhaseOf(db.stages[s].state)
    case IsPending => 2 * unused + 1
    case IsActive => 2 * unused + 2
    case IsFinal => 0
  }

  ghost predicate Still(db: Db, d: Db, s: StageId) {
    && s in db.stages && s in d.stages
    && PhaseOf(d.stages[s].state) == PhaseOf(db.stages[s].state) && Count(d, s) == Count(db, s)
  }

  /** Stages only ever have less ahead of them, strictly less when they move at all. */
  ghost predicate Spent(db: Db, d: Db) {
    && (forall s :: s in db.stages ==>
         && s in d.stages && Count(db, s) <= Count(d, s)
         && (Still(db, d, s) || Ahead(d, s) < Ahead(db, s)))
    && (forall s :: s in d.stages && s !in db.stages ==> Ahead(d, s) <= 2 * Allowance(d.stages[s].maxAttempts) + 1)
  }

  /** Rows stay, identities stay, a finished stage, a closed attempt and a released lease stay exactly as
      they are, and no stage gains anything ahead of it. */
  ghost predicate Grows(db: Db, d: Db) {
    RunsKept(db, d) && StagesKept(db, d) && AttemptsKept(db, d) && LeasesKept(db, d) && Spent(db, d)
  }

  lemma GrowsThrough(a: Db, b: Db, c: Db)
    requires Grows(a, b) && Grows(b, c)
    ensures Grows(a, c)
  {
    hide Count, Ahead;
    assert forall s :: s in a.stages && Still(a, b, s) ==> Ahead(a, s) == Ahead(b, s) by { StillAhead(a, b); }
    assert forall s :: s in b.stages && Still(b, c, s) ==> Ahead(b, s) == Ahead(c, s) by { StillAhead(b, c); }
  }

  lemma StillAhead(a: Db, b: Db)
    requires StagesKept(a, b)
    ensures forall s :: s in a.stages && Still(a, b, s) ==> Ahead(a, s) == Ahead(b, s)
  {
    hide Count;
  }

  // ---------- updates that add no attempt ----------

  ghost predicate SameCounts(db: Db, d: Db) { forall s :: Count(d, s) == Count(db, s) }

  lemma SameAttemptsSameCounts(db: Db, d: Db)
    requires db.attempts.Keys == d.attempts.Keys
    requires forall a :: a in db.attempts ==> d.attempts[a].stage == db.attempts[a].stage
    ensures SameCounts(db, d)
  {
    forall s ensures Count(d, s) == Count(db, s) {
      assert AttemptsOf(d, s) == AttemptsOf(db, s);
    }
  }

  /** The same attempts and leases under the same identities. */
  ghost predicate SameRows(db: Db, d: Db) {
    && d.attempts.Keys == db.attempts.Keys && d.leases.Keys == db.leases.Keys
    && (forall a :: a in db.attempts ==>
         && d.attempts[a].stage == db.attempts[a].stage && d.attempts[a].number == db.attempts[a].number
         && d.attempts[a].startedAt == db.attempts[a].startedAt)
    && (forall l :: l in db.leases ==>
         d.leases[l].stage == db.leases[l].stage && d.leases[l].attempt == db.leases[l].attempt)
  }

  /** The stages of d have room for the attempts of db. */
  ghost predicate RoomFor(db: Db, d: Db) {
    forall s :: s in d.stages ==>
      && Count(db, s) <= Allowance(d.stages[s].maxAttempts)
      && (Pending(d.stages[s].state) ==> Count(db, s) < Allowance(d.stages[s].maxAttempts))
  }

  lemma SameRowsNumbered(db: Db, d: Db)
    requires Numbered(db) && SameRows(db, d) && RoomFor(db, d)
    ensures SameCounts(db, d)
    ensures Numbered(d)
    ensures forall x :: Newest(d, x) <==> Newest(db, x)
    ensures forall x, y :: Next(d, x, y) <==> Next(db, x, y)
  {
    SameAttemptsSameCounts(db, d);
    hide Count;
    assert forall a, b :: SameNumber(d, a, b) ==> SameNumber(db, a, b);
    assert forall l, m :: SameAttempt(d, l, m) ==> SameAttempt(db, l, m);
  }

  // ---------- ending a lease ----------

  ghost predicate EndsProperly(db: Db, l: LeaseId, now: int, ended: AttemptState, state: StageState, next: Option<int>)
    requires Refs(db)
  {
    && Live(db, l) && !Open(ended) && !Active(state) && state != Waiting
    && (state == Queued ==>
         && Count(db, db.leases[l].stage) < db.stages[db.leases[l].stage].maxAttempts
         && next == Some(now + Backoff(Count(db, db.leases[l].stage))))
  }

  lemma EndLeaseSameRows(db: Db, l: LeaseId, now: int, ended: AttemptState, state: StageState, next: Option<int>)
    requires Refs(db) && l in db.leases
    ensures SameRows(db, EndLease(db, l, now, ended, state, next))
  {}

  lemma EndLeaseRoom(db: Db, l: LeaseId, now: int, ended: AttemptState, state: StageState, next: Option<int>)
    requires Refs(db) && RoomLeft(db) && EndsProperly(db, l, now, ended, state, next)
    ensures l in db.leases && RoomFor(db, EndLease(db, l, now, ended, state, next))
  {
    hide Count, Backoff;
  }

  lemma EndLeaseNumbered(db: Db, l: LeaseId, now: int, ended: AttemptState, state: StageState, next: Option<int>)
    requires Refs(db) && Numbered(db) && EndsProperly(db, l, now, ended, state, next)
    ensures var d := EndLease(db, l, now, ended, state, next);
      && Numbered(d) && SameCounts(db, d)
      && (forall x :: Newest(d, x) <==> Newest(db, x)) && (forall x, y :: Next(d, x, y) <==> Next(db, x, y))
  {
    hide Count, Bounded, DistinctNumbers, RoomLeft, RoomFor, Paired, SameCounts, Newest, Next, SameRows, EndLease, EndsProperly;
    EndLeaseRoom(db, l, now, ended, state, next);
    EndLeaseSameRows(db, l, now, ended, state, next);
    SameRowsNumbered(db, EndLease(db, l, now, ended, state, next));
  }

  lemma EndLeaseOpen(db: Db, l: LeaseId, now: int, ended: AttemptState, state: StageState, next: Option<int>)
    requires Refs(db) && Live(db, l) && Paired(db) && LeasesOpen(db)
    ensures LeasesOpen(EndLease(db, l, now, ended, state, next))
  {
    var d := EndLease(db, l, now, ended, state, next);
    forall m | Live(d, m) ensures Open(d.attempts[d.leases[m].attempt].state) {
      assert Live(db, m) && !SameAttempt(db, l, m);
    }
  }

  lemma EndLeaseNewest(db: Db, l: LeaseId, now: int, ended: AttemptState, state: StageState, next: Option<int>)
    requires Refs(db) && Live(db, l) && !Open(ended) && DistinctNumbers(db) && LeasesOpen(db) && OpenNewest(db)
    requires var d := EndLease(db, l, now, ended, state, next);
      forall x :: Newest(d, x) <==> Newest(db, x)
    ensures OpenNewest(EndLease(db, l, now, ended, state, next))
  {
    var d := EndLease(db, l, now, ended, state, next);
    var s, a := db.leases[l].stage, db.leases[l].attempt;
    forall x | x in d.attempts && Open(d.attempts[x].state)
      ensures Newest(d, x) && Active(d.stages[d.attempts[x].stage].state)
    {
      assert x != a && Newest(db, x) && Newest(db, a);
      assert d.attempts[x].stage == s ==> SameNumber(db, x, a);
    }
  }

  lemma EndLeaseHeld(db: Db, l: LeaseId, now: int, ended: AttemptState, state: StageState, next: Option<int>)
    requires Refs(db) && Live(db, l) && !Active(state) && ActiveHeld(db)
    ensures ActiveHeld(EndLease(db, l, now, ended, state, next))
  {
    var d := EndLease(db, l, now, ended, state, next);
    forall o | o in d.stages && Active(d.stages[o].state) ensures exists m :: Holds(d, m, o) {
      var m :| Holds(db, m, o);
      assert Holds(d, m, o);
    }
  }

  lemma EndLeaseClocked(db: Db, l: LeaseId, now: int, ended: AttemptState, state: StageState, next: Option<int>, t: int)
    requires Refs(db) && LeasesOpen(db) && Clocked(db, t) && Live(db, l) && !Open(ended) && t <= now
    ensures Clocked(EndLease(db, l, now, ended, state, next), now)
  {}

  lemma EndLeaseSpaced(db: Db, l: LeaseId, now: int, ended: AttemptState, state: StageState, next: Option<int>)
    requires Refs(db) && LeasesOpen(db) && Spaced(db) && Live(db, l)
    requires forall x, y :: Next(EndLease(db, l, now, ended, state, next), x, y) <==> Next(db, x, y)
    ensures Spaced(EndLease(db, l, now, ended, state, next))
  {
    var d := EndLease(db, l, now, ended, state, next);
    forall x, y | Next(d, x, y) ensures Waited(d.attempts[x], d.attempts[y].startedAt) {
      assert Next(db, x, y) && x != db.leases[l].attempt;
    }
  }

  lemma EndLeaseScheduled(db: Db, l: LeaseId, now: int, ended: AttemptState, state: StageState, next: Option<int>)
    requires Refs(db) && DistinctNumbers(db) && LeasesOpen(db) && OpenNewest(db) && Scheduled(db)
    requires EndsProperly(db, l, now, ended, state, next)
    requires forall x :: Newest(EndLease(db, l, now, ended, state, next), x) <==> Newest(db, x)
    ensures Scheduled(EndLease(db, l, now, ended, state, next))
  {
    var d := EndLease(db, l, now, ended, state, next);
    var s, a := db.leases[l].stage, db.leases[l].attempt;
    forall x | Newest(d, x) && d.stages[d.attempts[x].stage].state == Queued
      ensures Due(d.stages[d.attempts[x].stage], d.attempts[x])
    {
      assert Newest(db, x) && Newest(db, a);
      if d.attempts[x].stage == s { assert SameNumber(db, x, a); }
    }
  }

  lemma EndLeaseStagesKept(db: Db, l: LeaseId, now: int, ended: AttemptState, state: StageState, next: Option<int>)
    requires Refs(db) && Live(db, l) && !Active(state)
    requires Open(db.attempts[db.leases[l].attempt].state) && Active(db.stages[db.leases[l].stage].state)
    ensures RunsKept(db, EndLease(db, l, now, ended, state, next)) && StagesKept(db, EndLease(db, l, now, ended, state, next))
  {
    hide Count;
  }

  lemma EndLeaseRowsKept(db: Db, l: LeaseId, now: int, ended: AttemptState, state: StageState, next: Option<int>)
    requires Refs(db) && Live(db, l) && !Active(state)
    requires Open(db.attempts[db.leases[l].attempt].state) && Active(db.stages[db.leases[l].stage].state)
    ensures AttemptsKept(db, EndLease(db, l, now, ended, state, next)) && LeasesKept(db, EndLease(db, l, now, ended, state, next))
  {
    hide Count;
  }

  lemma EndLeaseSpent(db: Db, l: LeaseId, now: int, ended: AttemptState, state: StageState, next: Option<int>)
    requires Refs(db) && Live(db, l) && !Active(state)
    requires Open(db.attempts[db.leases[l].attempt].state) && Active(db.stages[db.leases[l].stage].state)
    requires RoomLeft(db) && SameCounts(db, EndLease(db, l, now, ended, state, next))
    ensures Spent(db, EndLease(db, l, now, ended, state, next))
  {
    hide Count;
  }

  lemma EndLeaseGrows(db: Db, l: LeaseId, now: int, ended: AttemptState, state: StageState, next: Option<int>)
    requires Refs(db) && Live(db, l) && !Active(state)
    requires Open(db.attempts[db.leases[l].attempt].state) && Active(db.stages[db.leases[l].stage].state)
    requires RoomLeft(db) && SameCounts(db, EndLease(db, l, now, ended, state, next))
    ensures Grows(db, EndLease(db, l, now, ended, state, next))
  {
    hide RunsKept, StagesKept, AttemptsKept, LeasesKept, Spent, SameCounts, RoomLeft;
    EndLeaseStagesKept(db, l, now, ended, state, next);
    EndLeaseRowsKept(db, l, now, ended, state, next);
    EndLeaseSpent(db, l, now, ended, state, next);
  }

  lemma LiveLease(db: Db, l: LeaseId)
    requires Refs(db) && Guarded(db) && Live(db, l)
    ensures Open(db.attempts[db.leases[l].attempt].state) && Active(db.stages[db.leases[l].stage].state)
    ensures Newest(db, db.leases[l].attempt)
  {}

  lemma EndLeaseSafe(db: Db, l: LeaseId, now: int, ended: AttemptState, state: StageState, next: Option<int>, t: int)
    requires Safe(db, t) && t <= now && EndsProperly(db, l, now, ended, state, next)
    ensures var d := EndLease(db, l, now, ended, state, next);
      Safe(d, now) && Grows(db, d) && SameCounts(db, d) && !Live(d, l)
  {
    hide Bounded, DistinctNumbers, RoomLeft, Paired, LeasesOpen, OpenNewest, ActiveHeld, Clocked, Spaced, Scheduled;
    hide Grows, SameCounts, Newest, Next;
    EndLeaseNumbered(db, l, now, ended, state, next);
    EndLeaseOpen(db, l, now, ended, state, next);
    EndLeaseNewest(db, l, now, ended, state, next);
    EndLeaseHeld(db, l, now, ended, state, next);
    EndLeaseClocked(db, l, now, ended, state, next, t);
    EndLeaseSpaced(db, l, now, ended, state, next);
    EndLeaseScheduled(db, l, now, ended, state, next);
    LiveLease(db, l);
    EndLeaseGrows(db, l, now, ended, state, next);
  }

  // ---------- granting one ----------

  lemma GrantCounts(cfg: Config, db: Db, g: GrantIds, now: int)
    requires Refs(db) && Grantable(cfg, db, g, now)
    ensures forall s :: Count(Grant(cfg, db, g, now), s) == Count(db, s) + if s == g.stage then 1 else 0
  {
    var d := Grant(cfg, db, g, now);
    forall s ensures Count(d, s) == Count(db, s) + if s == g.stage then 1 else 0 {
      if s == g.stage {
        assert AttemptsOf(d, s) == AttemptsOf(db, s) + {g.attempt};
      } else {
        assert AttemptsOf(d, s) == AttemptsOf(db, s);
      }
    }
  }

  lemma GrantBounds(cfg: Config, db: Db, g: GrantIds, now: int)
    requires Refs(db) && Bounded(db) && RoomLeft(db) && Grantable(cfg, db, g, now)
    ensures Bounded(Grant(cfg, db, g, now)) && RoomLeft(Grant(cfg, db, g, now))
  {
    hide Count;
    GrantCounts(cfg, db, g, now);
  }

  lemma GrantPairs(cfg: Config, db: Db, g: GrantIds, now: int)
    requires Refs(db) && Bounded(db) && DistinctNumbers(db) && Paired(db) && Grantable(cfg, db, g, now)
    ensures DistinctNumbers(Grant(cfg, db, g, now)) && Paired(Grant(cfg, db, g, now))
  {
    hide Count;
    var d := Grant(cfg, db, g, now);
    forall a, b | SameNumber(d, a, b) ensures a == b {
      assert a != g.attempt && b != g.attempt ==> SameNumber(db, a, b);
    }
    forall l, m | SameAttempt(d, l, m) ensures l == m {
      assert l != g.lease && m != g.lease ==> SameAttempt(db, l, m);
    }
  }

  lemma GrantNumbered(cfg: Config, db: Db, g: GrantIds, now: int)
    requires Refs(db) && Numbered(db) && Grantable(cfg, db, g, now)
    ensures Numbered(Grant(cfg, db, g, now))
  {
    hide Bounded, DistinctNumbers, RoomLeft, Paired, Grant, Grantable;
    GrantBounds(cfg, db, g, now);
    GrantPairs(cfg, db, g, now);
  }

  lemma GrantGuarded(cfg: Config, db: Db, g: GrantIds, now: int)
    requires Refs(db) && Guarded(db) && Grantable(cfg, db, g, now)
    ensures Guarded(Grant(cfg, db, g, now))
  {
    var d := Grant(cfg, db, g, now);
    GrantCounts(cfg, db, g, now);
    hide Count;
    forall o | o in d.stages && Active(d.stages[o].state) ensures exists m :: Holds(d, m, o) {
      if o == g.stage { assert Holds(d, g.lease, o); } else { var m :| Holds(db, m, o); assert Holds(d, m, o); }
    }
    assert ActiveHeld(d);
    hide ActiveHeld;
    forall x | x in d.attempts && Open(d.attempts[x].state)
      ensures Newest(d, x) && Active(d.stages[d.attempts[x].stage].state)
    {
      assert x != g.attempt ==> Newest(db, x);
    }
  }

  lemma GrantSpaced(cfg: Config, db: Db, g: GrantIds, now: int)
    requires Refs(db) && Bounded(db) && OpenNewest(db) && Spaced(db) && Scheduled(db) && Grantable(cfg, db, g, now)
    ensures Spaced(Grant(cfg, db, g, now))
  {
    var d := Grant(cfg, db, g, now);
    hide Count;
    forall x, y | Next(d, x, y) ensures Waited(d.attempts[x], d.attempts[y].startedAt) {
      assert x != g.attempt;
      if y == g.attempt { assert Newest(db, x); } else { assert Next(db, x, y); }
    }
  }

  lemma GrantScheduled(cfg: Config, db: Db, g: GrantIds, now: int)
    requires Refs(db) && Scheduled(db) && Grantable(cfg, db, g, now)
    ensures Scheduled(Grant(cfg, db, g, now))
  {
    var d := Grant(cfg, db, g, now);
    GrantCounts(cfg, db, g, now);
    hide Count;
    forall x | Newest(d, x) && d.stages[d.attempts[x].stage].state == Queued
      ensures Due(d.stages[d.attempts[x].stage], d.attempts[x])
    {
      assert Newest(db, x);
    }
  }

  lemma GrantClocked(cfg: Config, db: Db, g: GrantIds, now: int, t: int)
    requires Refs(db) && Clocked(db, t) && t <= now && Grantable(cfg, db, g, now)
    ensures Clocked(Grant(cfg, db, g, now), now)
  {
    hide Count;
  }

  lemma GrantStagesKept(cfg: Config, db: Db, g: GrantIds, now: int)
    requires Refs(db) && Grantable(cfg, db, g, now)
    ensures RunsKept(db, Grant(cfg, db, g, now)) && StagesKept(db, Grant(cfg, db, g, now))
  {
    hide Count;
  }

  lemma GrantRowsKept(cfg: Config, db: Db, g: GrantIds, now: int)
    requires Refs(db) && Grantable(cfg, db, g, now)
    ensures AttemptsKept(db, Grant(cfg, db, g, now)) && LeasesKept(db, Grant(cfg, db, g, now))
  {
    hide Count;
  }

  lemma GrantSpent(cfg: Config, db: Db, g: GrantIds, now: int)
    requires Refs(db) && Grantable(cfg, db, g, now)
    ensures Spent(db, Grant(cfg, db, g, now))
  {
    hide Count;
    GrantCounts(cfg, db, g, now);
  }

  lemma GrantGrows(cfg: Config, db: Db, g: GrantIds, now: int)
    requires Refs(db) && Grantable(cfg, db, g, now)
    ensures Grows(db, Grant(cfg, db, g, now))
  {
    hide RunsKept, StagesKept, AttemptsKept, LeasesKept, Spent, SameCounts, RoomLeft;
    GrantStagesKept(cfg, db, g, now);
    GrantRowsKept(cfg, db, g, now);
    GrantSpent(cfg, db, g, now);
  }

  lemma GrantSafe(cfg: Config, db: Db, g: GrantIds, now: int, t: int)
    requires Safe(db, t) && t <= now && Grantable(cfg, db, g, now)
    ensures Safe(Grant(cfg, db, g, now), now) && Grows(db, Grant(cfg, db, g, now))
  {
    hide Bounded, DistinctNumbers, RoomLeft, Paired, LeasesOpen, OpenNewest, ActiveHeld, Clocked, Spaced, Scheduled;
    hide Grows, Count;
    GrantNumbered(cfg, db, g, now);
    GrantGuarded(cfg, db, g, now);
    GrantClocked(cfg, db, g, now, t);
    GrantSpaced(cfg, db, g, now);
    GrantScheduled(cfg, db, g, now);
    GrantGrows(cfg, db, g, now);
  }

  // ---------- touching one ----------

  lemma TouchHeld(cfg: Config, db: Db, l: LeaseId, now: int, start: bool)
    requires Refs(db) && ActiveHeld(db) && Live(db, l) && Active(db.stages[db.leases[l].stage].state)
    ensures ActiveHeld(Touch(cfg, db, l, now, start))
  {
    hide Count;
    var d := Touch(cfg, db, l, now, start);
    forall o | o in d.stages && Active(d.stages[o].state) ensures exists m :: Holds(d, m, o) {
      var m :| Holds(db, m, o);
      assert Holds(d, m, o);
    }
  }

  lemma TouchGuarded(cfg: Config, db: Db, l: LeaseId, now: int, start: bool)
    requires Refs(db) && Guarded(db) && Live(db, l)
    requires var d := Touch(cfg, db, l, now, start); forall x :: Newest(d, x) <==> Newest(db, x)
    ensures Guarded(Touch(cfg, db, l, now, start))
  {
    hide Newest, ActiveHeld;
    TouchHeld(cfg, db, l, now, start);
  }

  lemma TouchClocked(cfg: Config, db: Db, l: LeaseId, now: int, start: bool, t: int)
    requires Refs(db) && LeasesOpen(db) && Clocked(db, t) && t <= now && Live(db, l)
    ensures Clocked(Touch(cfg, db, l, now, start), now)
  {}

  lemma TouchSpaced(cfg: Config, db: Db, l: LeaseId, now: int, start: bool)
    requires Refs(db) && LeasesOpen(db) && Spaced(db) && Live(db, l)
    requires forall x, y :: Next(Touch(cfg, db, l, now, start), x, y) <==> Next(db, x, y)
    ensures Spaced(Touch(cfg, db, l, now, start))
  {
    hide Count;
  }

  lemma TouchScheduled(cfg: Config, db: Db, l: LeaseId, now: int, start: bool)
    requires Refs(db) && LeasesOpen(db) && Scheduled(db) && Live(db, l)
    requires forall x :: Newest(Touch(cfg, db, l, now, start), x) <==> Newest(db, x)
    ensures Scheduled(Touch(cfg, db, l, now, start))
  {
    hide Count;
  }

  lemma TouchStagesKept(cfg: Config, db: Db, l: LeaseId, now: int, start: bool)
    requires Refs(db) && Live(db, l)
    requires Open(db.attempts[db.leases[l].attempt].state) && Active(db.stages[db.leases[l].stage].state)
    ensures RunsKept(db, Touch(cfg, db, l, now, start)) && StagesKept(db, Touch(cfg, db, l, now, start))
  {
    hide Count;
  }

  lemma TouchAttemptsKept(cfg: Config, db: Db, l: LeaseId, now: int, start: bool)
    requires Refs(db) && Live(db, l)
    requires Open(db.attempts[db.leases[l].attempt].state) && Active(db.stages[db.leases[l].stage].state)
    ensures AttemptsKept(db, Touch(cfg, db, l, now, start))
  {
    hide Count;
  }

  lemma TouchLeasesKept(cfg: Config, db: Db, l: LeaseId, now: int, start: bool)
    requires Refs(db) && Live(db, l)
    ensures LeasesKept(db, Touch(cfg, db, l, now, start))
  {
    hide Count;
  }

  lemma TouchSpent(cfg: Config, db: Db, l: LeaseId, now: int, start: bool)
    requires Refs(db) && Live(db, l)
    requires Open(db.attempts[db.leases[l].attempt].state) && Active(db.stages[db.leases[l].stage].state)
    requires SameCounts(db, Touch(cfg, db, l, now, start))
    ensures Spent(db, Touch(cfg, db, l, now, start))
  {
    hide Count;
  }

  lemma TouchGrows(cfg: Config, db: Db, l: LeaseId, now: int, start: bool)
    requires Refs(db) && Live(db, l)
    requires Open(db.attempts[db.leases[l].attempt].state) && Active(db.stages[db.leases[l].stage].state)
    requires SameCounts(db, Touch(cfg, db, l, now, start))
    ensures Grows(db, Touch(cfg, db, l, now, start))
  {
    hide RunsKept, StagesKept, AttemptsKept, LeasesKept, Spent, SameCounts, RoomLeft;
    TouchStagesKept(cfg, db, l, now, start);
    TouchAttemptsKept(cfg, db, l, now, start);
    TouchLeasesKept(cfg, db, l, now, start);
    TouchSpent(cfg, db, l, now, start);
  }

  lemma TouchSameRows(cfg: Config, db: Db, l: LeaseId, now: int, start: bool)
    requires Refs(db) && l in db.leases
    ensures SameRows(db, Touch(cfg, db, l, now, start))
  {}

  lemma TouchRoom(cfg: Config, db: Db, l: LeaseId, now: int, start: bool)
    requires Refs(db) && RoomLeft(db) && l in db.leases
    ensures RoomFor(db, Touch(cfg, db, l, now, start))
  {
    hide Count, Allowance;
  }

  lemma TouchNumbered(cfg: Config, db: Db, l: LeaseId, now: int, start: bool)
    requires Refs(db) && Numbered(db) && Live(db, l) && LeasesOpen(db) && OpenNewest(db)
    ensures var d := Touch(cfg, db, l, now, start);
      && Numbered(d) && SameCounts(db, d)
      && (forall x :: Newest(d, x) <==> Newest(db, x)) && (forall x, y :: Next(d, x, y) <==> Next(db, x, y))
  {
    hide Count, Bounded, DistinctNumbers, RoomLeft, RoomFor, Paired, SameCounts, Next, Newest, SameRows, Touch;
    TouchRoom(cfg, db, l, now, start);
    TouchSameRows(cfg, db, l, now, start);
    SameRowsNumbered(db, Touch(cfg, db, l, now, start));
  }

  lemma TouchSafe(cfg: Config, db: Db, l: LeaseId, now: int, start: bool, t: int)
    requires Safe(db, t) && t <= now && Live(db, l)
    ensures var d := Touch(cfg, db, l, now, start);
      Safe(d, now) && Grows(db, d) && SameCounts(db, d)
  {
    hide Bounded, DistinctNumbers, RoomLeft, Paired, LeasesOpen, OpenNewest, ActiveHeld, Clocked, Spaced, Scheduled;
    hide Grows, SameCounts, Newest, Next;
    TouchNumbered(cfg, db, l, now, start);
    TouchGuarded(cfg, db, l, now, start);
    TouchClocked(cfg, db, l, now, start, t);
    TouchSpaced(cfg, db, l, now, start);
    TouchScheduled(cfg, db, l, now, start);
    LiveLease(db, l);
    TouchGrows(cfg, db, l, now, start);
  }

  // ---------- run rows, pending stages and new stages ----------

  /** Attempts and leases untouched; stages only leave the pending states for a final one, or are new. */
  ghost predicate StagesOnly(db: Db, d: Db) {
    && Refs(d) && d.attempts == db.attempts && d.leases == db.leases
    && RunsKept(db, d)
    && (forall s :: s in db.stages ==>
         && s in d.stages
         && (d.stages[s] == db.stages[s]
             || (Pending(db.stages[s].state) && Final(d.stages[s].state)
                 && d.stages[s] == db.stages[s].(state := d.stages[s].state))))
    && (forall s :: s in d.stages && s !in db.stages ==> d.stages[s].state == Queued)
  }

  lemma StagesOnlyGuarded(db: Db, d: Db)
    requires Refs(db) && Guarded(db) && StagesOnly(db, d) && forall x :: Newest(d, x) <==> Newest(db, x)
    ensures Guarded(d)
  {
    hide Count;
    forall o | o in d.stages && Active(d.stages[o].state) ensures exists m :: Holds(d, m, o) {
      var m :| Holds(db, m, o);
      assert Holds(d, m, o);
    }
  }

  lemma StagesOnlyNumbered(db: Db, d: Db)
    requires Refs(db) && Numbered(db) && StagesOnly(db, d)
    ensures Numbered(d) && SameCounts(db, d)
    ensures forall x :: Newest(d, x) <==> Newest(db, x)
    ensures forall x, y :: Next(d, x, y) <==> Next(db, x, y)
  {
    forall s | s in d.stages && s !in db.stages ensures Count(db, s) == 0 {
      assert AttemptsOf(db, s) == {};
    }
    hide Count, Bounded, DistinctNumbers, Paired, SameCounts, Newest, Next;
    SameRowsNumbered(db, d);
  }

  lemma StagesOnlyTimed(db: Db, d: Db, now: int, t: int)
    requires Refs(db) && Timed(db, t) && t <= now && StagesOnly(db, d)
    requires (forall x :: Newest(d, x) <==> Newest(db, x)) && (forall x, y :: Next(d, x, y) <==> Next(db, x, y))
    ensures Timed(d, now)
  {
    hide Count;
  }

  lemma StagesOnlySafe(db: Db, d: Db, now: int, t: int)
    requires Safe(db, t) && t <= now && StagesOnly(db, d)
    ensures Safe(d, now) && Grows(db, d) && SameCounts(db, d)
  {
    hide Bounded, DistinctNumbers, RoomLeft, Paired, Guarded, Timed, Grows, SameCounts, Newest, Next, StagesOnly;
    StagesOnlyNumbered(db, d);
    StagesOnlyGuarded(db, d);
    StagesOnlyTimed(db, d, now, t);
    StagesOnlyRefs(db, d);
    StagesOnlyGrows(db, d);
  }

  lemma StagesOnlyGrows(db: Db, d: Db)
    requires Refs(db) && RoomLeft(db) && StagesOnly(db, d) && SameCounts(db, d)
    ensures Grows(db, d)
  {
    hide Count;
    forall s | s in db.stages ensures Still(db, d, s) || Ahead(d, s) < Ahead(db, s) {}
  }

  lemma StagesOnlyRefs(db: Db, d: Db)
    requires StagesOnly(db, d)
    ensures Refs(d)
  {}
}
