/** What one sweep of the scheduler achieves, when the query returns every unreleased lease (there are at
    most 1000 and none is locked). */
module Sweeping {
  import opened Tables
  import opened Handlers
  import opened LeaseSafety
  import opened Workflow
  import opened Protocol
  import opened Locality

  /** The lease with its attempt and its stage. */
  ghost predicate Untouched(db: Db, d: Db, l: LeaseId)
    requires Refs(db) && Refs(d)
  {
    && l in db.leases && l in d.leases && d.leases[l] == db.leases[l]
    && d.attempts[d.leases[l].attempt] == db.attempts[db.leases[l].attempt]
    && d.stages[d.leases[l].stage] == db.stages[db.leases[l].stage]
  }

  lemma EndLeaseUntouched(db: Db, l: LeaseId, now: int, ended: AttemptState, state: StageState, next: Option<int>, m: LeaseId)
    requires Refs(db) && l in db.leases && m in db.leases && m != l
    requires db.leases[m].stage != db.leases[l].stage && db.leases[m].attempt != db.leases[l].attempt
    ensures Untouched(db, EndLease(db, l, now, ended, state, next), m)
  {}

  lemma FinishCancellationUntouched(db: Db, r: RunId, s: StageId, m: LeaseId)
    requires Refs(db) && r in db.runs && m in db.leases && Active(db.stages[db.leases[m].stage].state)
    ensures Untouched(db, FinishCancellation(db, r, s), m)
  {
    hide OtherActive;
  }

  /** Two live leases have different stages and different attempts. */
  lemma LiveLeasesApart(db: Db, l: LeaseId, m: LeaseId)
    requires Refs(db) && Numbered(db) && Guarded(db) && Live(db, l) && Live(db, m) && m != l
    ensures db.leases[m].stage != db.leases[l].stage && db.leases[m].attempt != db.leases[l].attempt
    ensures Active(db.stages[db.leases[m].stage].state)
  {
    hide RoomLeft, Bounded, Count;
    LiveLease(db, m);
    ExactlyOneLease(db, db.leases[l].stage);
    assert Holds(db, l, db.leases[l].stage);
    assert !SameAttempt(db, l, m);
  }

  lemma FinishAfterEnd(db: Db, l: LeaseId, now: int, m: LeaseId)
    requires Refs(db) && l in db.leases && m in db.leases && m != l && Active(db.stages[db.leases[m].stage].state)
    requires db.leases[m].stage != db.leases[l].stage && db.leases[m].attempt != db.leases[l].attempt
    ensures var d := EndLease(db, l, now, AttemptCancelled, Cancelled, Unscheduled(db, l));
      RunOf(db, l) in d.runs && Untouched(db, FinishCancellation(d, RunOf(db, l), db.leases[l].stage), m)
  {
    hide FinishCancellation;
    var d := EndLease(db, l, now, AttemptCancelled, Cancelled, Unscheduled(db, l));
    FinishCancellationUntouched(d, RunOf(db, l), db.leases[l].stage, m);
  }

  lemma FailAfterEnd(db: Db, l: LeaseId, now: int, m: LeaseId, result: Option<RunResult>)
    requires Refs(db) && l in db.leases && m in db.leases && m != l
    requires db.leases[m].stage != db.leases[l].stage && db.leases[m].attempt != db.leases[l].attempt
    ensures var d := EndLease(db, l, now, AttemptExpired, Failed, Unscheduled(db, l));
      RunOf(db, l) in d.runs && Untouched(db, SetRun(d, RunOf(db, l), RunTerminal, result), m)
  {}

  lemma ExpireAttemptUntouched(db: Db, l: LeaseId, now: int, m: LeaseId)
    requires Refs(db) && Numbered(db) && Guarded(db) && Live(db, l) && Live(db, m) && m != l
    ensures Untouched(db, ExpireAttempt(db, l, now), m)
  {
    hide Numbered, Guarded, FinishCancellation, Count, Untouched, EndLease, SetRun;
    LiveLeasesApart(db, l, m);
    var stage := db.stages[db.leases[l].stage];
    FinishAfterEnd(db, l, now, m);
    EndLeaseUntouched(db, l, now, AttemptExpired, Queued, Some(now + Backoff(Count(db, db.leases[l].stage))), m);
    FailAfterEnd(db, l, now, m, Some(FailureResult(stage.kind)));
  }

  lemma ExpireAttemptLeases(db: Db, l: LeaseId, now: int)
    requires Refs(db) && l in db.leases
    ensures var d := ExpireAttempt(db, l, now); !Live(d, l) && d.leases.Keys == db.leases.Keys
  {
    hide OtherActive, Count;
  }

  /** A live lease is left alone, with its attempt and stage; and no lease appears or comes back. */
  lemma {:induction false} SweepUntouched(db: Db, order: seq<LeaseId>, now: int, t: int, m: LeaseId)
    requires Sound(db, t) && t <= now
    ensures var d := Sweep(db, order, now);
      && (Live(db, m) && !Overdue(db, m, now) ==> Untouched(db, d, m))
      && (Live(d, m) ==> Live(db, m))
    decreases |order|
  {
    hide UniqueKinds, Ordered, Unstarted, CancelledFinal, Grows, Timed, ExpireAttempt, Bounded, DistinctNumbers, RoomLeft, Paired;
    hide LeasesOpen, OpenNewest, ActiveHeld;
    if order != [] {
      var l := order[0];
      var d := SweepOne(db, l, now);
      SweepSound(db, [l], now, t);
      assert Sweep(db, [l], now) == d;
      if Live(db, l) && Overdue(db, l, now) {
        ExpireAttemptLeases(db, l, now);
        if m != l && Live(db, m) { ExpireAttemptUntouched(db, l, now, m); }
        if Live(d, m) && !Live(db, m) { ReleasedStays(db, d, m); }
      }
      SweepUntouched(d, order[1..], now, now, m);
    }
  }

  lemma ReleasedStays(db: Db, d: Db, m: LeaseId)
    requires Grows(db, d) && m in db.leases && !Live(db, m)
    ensures !Live(d, m)
  {
    hide Spent;
  }

  lemma {:induction false} SweepTreats(db: Db, order: seq<LeaseId>, now: int, t: int, l: LeaseId)
    requires Sound(db, t) && t <= now && l in order
    ensures var d := Sweep(db, order, now); !Live(d, l) || !Overdue(d, l, now)
    decreases |order|
  {
    hide Numbered, Guarded, Timed, Flow, Grows, ExpireAttempt;
    var d := SweepOne(db, order[0], now);
    SweepSound(db, [order[0]], now, t);
    assert Sweep(db, [order[0]], now) == d;
    if order[0] == l {
      if Live(db, l) && Overdue(db, l, now) { ExpireAttemptLeases(db, l, now); }
      SweepUntouched(d, order[1..], now, now, l);
    } else {
      SweepTreats(d, order[1..], now, now, l);
    }
  }

  /** Nothing overdue is left, and nothing that was in time was disturbed. */
  lemma SweepComplete(db: Db, order: seq<LeaseId>, now: int, t: int)
    requires Sound(db, t) && t <= now && forall l :: Live(db, l) ==> l in order
    ensures var d := Sweep(db, order, now);
      && (forall l :: Live(d, l) ==> !Overdue(d, l, now))
      && (forall l :: Live(db, l) && !Overdue(db, l, now) ==> Live(d, l) && Untouched(db, d, l))
  {
    hide Numbered, Guarded, Timed, Flow, Overdue;
    var d := Sweep(db, order, now);
    forall l | Live(d, l) ensures !Overdue(d, l, now) {
      SweepUntouched(db, order, now, t, l);
      SweepTreats(db, order, now, t, l);
    }
    forall l | Live(db, l) && !Overdue(db, l, now) ensures Live(d, l) && Untouched(db, d, l) {
      SweepUntouched(db, order, now, t, l);
    }
  }

  // ---------- cancelling runs ----------

  ghost predicate LeaseOf(db: Db, l: LeaseId, r: RunId)
    requires Refs(db)
  {
    Live(db, l) && RunOf(db, l) == r
  }

  /** The run is cancelling, has a leased stage, and all its leases are overdue and among those listed. */
  ghost predicate Doomed(db: Db, r: RunId, order: seq<LeaseId>, now: int)
    requires Refs(db)
  {
    && r in db.runs && db.runs[r].status == RunCancelling
    && (exists l :: LeaseOf(db, l, r))
    && (forall l :: LeaseOf(db, l, r) ==> l in order && Overdue(db, l, now))
  }

  /** One lease of the run is swept while another of its stages is active. */
  lemma DoomedStepMore(db: Db, r: RunId, order: seq<LeaseId>, now: int, t: int)
    requires Sound(db, t) && t <= now && order != [] && Doomed(db, r, order, now) && LeaseOf(db, order[0], r)
    requires OtherActive(EndLease(db, order[0], now, AttemptCancelled, Cancelled, Unscheduled(db, order[0])), r, db.leases[order[0]].stage)
    ensures Doomed(SweepOne(db, order[0], now), r, order[1..], now)
  {
    hide Numbered, LeasesOpen, OpenNewest, Timed, Flow, Grows, SameCounts, Overdue, Count;
    var l := order[0];
    var s := db.leases[l].stage;
    var ended := EndLease(db, l, now, AttemptCancelled, Cancelled, Unscheduled(db, l));
    assert SweepOne(db, l, now) == ended;
    EndLeaseHeldOnly(db, l, now, t);
    var o :| o in ended.stages && o != s && ended.stages[o].run == r && Active(ended.stages[o].state);
    var m :| Holds(ended, m, o);
    assert LeaseOf(ended, m, r);
    forall x | LeaseOf(ended, x, r) ensures x in order[1..] && Overdue(ended, x, now) {
      assert LeaseOf(db, x, r) && x != l;
      OverdueSame(db, l, now, x);
    }
  }

  lemma EndLeaseHeldOnly(db: Db, l: LeaseId, now: int, t: int)
    requires Sound(db, t) && t <= now && Live(db, l)
    ensures ActiveHeld(EndLease(db, l, now, AttemptCancelled, Cancelled, Unscheduled(db, l)))
  {
    hide Numbered, LeasesOpen, OpenNewest, ActiveHeld, Timed, Flow, Grows;
    EndLeaseHeld(db, l, now, AttemptCancelled, Cancelled, Unscheduled(db, l));
  }

  /** One lease of the run is swept: it was the last, and the run is over, or the others remain. */
  lemma DoomedStep(db: Db, r: RunId, order: seq<LeaseId>, now: int, t: int)
    requires Sound(db, t) && t <= now && order != [] && Doomed(db, r, order, now) && LeaseOf(db, order[0], r)
    ensures var d := SweepOne(db, order[0], now); Over(d, r) || Doomed(d, r, order[1..], now)
  {
    hide Numbered, Guarded, Timed, Flow, Grows, Overdue, OtherActive, Count;
    var l := order[0];
    var s := db.leases[l].stage;
    var ended := EndLease(db, l, now, AttemptCancelled, Cancelled, Unscheduled(db, l));
    if OtherActive(ended, r, s) {
      DoomedStepMore(db, r, order, now, t);
    } else {
      LastIsOver(ended, r, s);
    }
  }

  lemma LastIsOver(db: Db, r: RunId, s: StageId)
    requires Refs(db) && r in db.runs && s in db.stages && Final(db.stages[s].state) && !OtherActive(db, r, s)
    ensures Over(FinishCancellation(db, r, s), r)
  {}

  lemma OverdueSame(db: Db, l: LeaseId, now: int, x: LeaseId)
    requires Refs(db) && l in db.leases && x in db.leases && x != l
    ensures var d := EndLease(db, l, now, AttemptCancelled, Cancelled, Unscheduled(db, l));
      x in d.leases && (Overdue(d, x, now) <==> Overdue(db, x, now))
  {}

  /** One lease of another run is swept. */
  lemma DoomedElsewhere(db: Db, r: RunId, order: seq<LeaseId>, now: int, t: int)
    requires Sound(db, t) && t <= now && order != [] && Doomed(db, r, order, now) && !LeaseOf(db, order[0], r)
    ensures Doomed(SweepOne(db, order[0], now), r, order[1..], now)
  {
    hide Bounded, DistinctNumbers, RoomLeft, Paired, Timed, Flow, Grows, ExpireAttempt, LeasesOpen, OpenNewest, ActiveHeld;
    var l := order[0];
    var d := SweepOne(db, l, now);
    SweepSound(db, [l], now, t);
    assert Sweep(db, [l], now) == d;
    if Live(db, l) && Overdue(db, l, now) {
      ExpireAttemptLocal(db, l, now, r);
      ExpireAttemptLeases(db, l, now);
      forall x | LeaseOf(db, x, r) ensures LeaseOf(d, x, r) && Overdue(d, x, now) {
        ExpireAttemptUntouched(db, l, now, x);
      }
      forall x | LeaseOf(d, x, r) ensures LeaseOf(db, x, r) {
        if !Live(db, x) { ReleasedStays(db, d, x); }
        if RunOf(db, x) != r { ExpireAttemptUntouched(db, l, now, x); }
      }
    }
  }

  /** A cancelling run all of whose active leases are overdue is over after one sweep. */
  lemma {:induction false} SweepFinishesCancellation(db: Db, r: RunId, order: seq<LeaseId>, now: int, t: int)
    requires Sound(db, t) && t <= now && Doomed(db, r, order, now)
    ensures Over(Sweep(db, order, now), r)
    decreases |order|
  {
    hide Numbered, Guarded, Timed, Flow, Grows, ExpireAttempt, Overdue, Over, SweepOne;
    if order != [] {
      var d := SweepOne(db, order[0], now);
      SweepSound(db, [order[0]], now, t);
      assert Sweep(db, [order[0]], now) == d;
      if LeaseOf(db, order[0], r) { DoomedStep(db, r, order, now, t); } else { DoomedElsewhere(db, r, order, now, t); }
      if Over(d, r) {
        SweepOver(d, order[1..], now, now, r);
        FrozenOver(d, Sweep(d, order[1..], now), r);
      } else {
        SweepFinishesCancellation(d, r, order[1..], now, now);
      }
    }
  }
}
