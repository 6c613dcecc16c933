/** From a user's cancellation to its end: the run is cancelling with a lease outstanding, or over; every
    heartbeat is told to stop; and once no lease is left, whether acknowledged or expired, the run is over. */
module Cancelling {
  import opened Tables
  import opened Handlers
  import opened LeaseSafety
  import opened Workflow
  import opened Protocol
  import opened Locality
  import opened Sweeping
  import opened Requests

  /** The run is cancelling, and executors still hold leases of it. */
  ghost predicate Winding(db: Db, r: RunId)
    requires Refs(db)
  {
    r in db.runs && db.runs[r].status == RunCancelling && exists l :: LeaseOf(db, l, r)
  }

  ghost predicate WindingOrOver(db: Db, r: RunId)
    requires Refs(db)
  {
    Winding(db, r) || Over(db, r)
  }

  /** A cancellation takes effect at once: a run that has not ended is cancelling, with a lease outstanding, if one
      of its stages is active, and over otherwise; an ended run and every other row stay as they are. */
  lemma CancellationTakesEffect(cfg: Config, db: Db, r: RunId, now: int, t: int)
    requires Invariant(db, t) && t <= now && r in db.runs
    ensures var d := Step(cfg, db, CancelRun(r), now);
      && (db.runs[r].status == RunTerminal ==> d == db)
      && (db.runs[r].status != RunTerminal ==>
            if exists s :: s in db.stages && db.stages[s].run == r && db.stages[s].state in {Leased, Running}
            then Winding(d, r) && d == db.(runs := d.runs) && d.runs - {r} == db.runs - {r}
            else Over(d, r))
  {
    hide Numbered, LeasesOpen, OpenNewest, Timed, UniqueKinds, Ordered, Unstarted, Recorded;
    var d := Step(cfg, db, CancelRun(r), now);
    if db.runs[r].status != RunTerminal {
      if s :| s in db.stages && db.stages[s].run == r && db.stages[s].state in {Leased, Running} {
        assert Active(db.stages[s].state);
        var l :| Holds(db, l, s);
        assert LeaseOf(d, l, r);
      } else {
        assert !SomeActive(db, r);
      }
    }
  }

  /** Steps that only wind runs down or concern none that is cancelling: sweeps, heartbeats, acknowledgements,
      cancellations and new runs. No claim, no completion, no failure, no worker. */
  predicate WindsDown(act: Action) {
    || act.SweepLeases? || act.CancelRun? || act.SubmitRun? || act.ConfirmRun?
    || (act.MutateStage? && !act.request.message.call.CompleteCall? && !act.request.message.call.FailCall?)
  }

  // ---------- one lease of the run ends ----------

  lemma LeaseEnds(db: Db, l: LeaseId, now: int, t: int, r: RunId)
    requires Sound(db, t) && t <= now && LeaseOf(db, l, r) && Winding(db, r)
    ensures var ended := EndLease(db, l, now, AttemptCancelled, Cancelled, Unscheduled(db, l));
      WindingOrOver(FinishCancellation(ended, r, db.leases[l].stage), r)
  {
    hide Numbered, LeasesOpen, OpenNewest, Timed, Flow, Grows, Count, OtherActive, ActiveHeld;
    var s := db.leases[l].stage;
    var ended := EndLease(db, l, now, AttemptCancelled, Cancelled, Unscheduled(db, l));
    if OtherActive(ended, r, s) {
      EndLeaseHeldOnly(db, l, now, t);
      StillHeld(ended, r, s);
    } else {
      LastIsOver(ended, r, s);
    }
  }

  lemma StillHeld(db: Db, r: RunId, s: StageId)
    requires Refs(db) && ActiveHeld(db) && OtherActive(db, r, s)
    ensures exists l :: LeaseOf(db, l, r)
  {
    var o :| o in db.stages && o != s && db.stages[o].run == r && Active(db.stages[o].state);
    var l :| Holds(db, l, o);
    assert LeaseOf(db, l, r);
  }

  /** An unreleased lease of another run ends: this run's leases stay. */
  lemma ElsewhereWinds(db: Db, d: Db, r: RunId)
    requires Refs(db) && Refs(d) && Winding(db, r) && Frozen(db, d, r)
    requires exists l :: LeaseOf(db, l, r) && l in d.leases && d.leases[l].releasedAt.None? && d.leases[l].stage == db.leases[l].stage
    ensures Winding(d, r)
  {
    var l :| LeaseOf(db, l, r) && l in d.leases && d.leases[l].releasedAt.None? && d.leases[l].stage == db.leases[l].stage;
    assert LeaseOf(d, l, r);
  }

  lemma ExpiryWinds(db: Db, l: LeaseId, now: int, t: int, r: RunId)
    requires Sound(db, t) && t <= now && Live(db, l) && WindingOrOver(db, r)
    ensures WindingOrOver(ExpireAttempt(db, l, now), r)
  {
    hide Numbered, Timed, Flow, Grows, Count, FinishCancellation, Frozen, Guarded, Over;
    if RunOf(db, l) == r {
      if Over(db, r) { OverHasNoLease(db, t, l, r); }
      LeaseEnds(db, l, now, t, r);
    } else {
      ExpireAttemptLocal(db, l, now, r);
      if Over(db, r) {
        FrozenOver(db, ExpireAttempt(db, l, now), r);
      } else {
        var m :| LeaseOf(db, m, r);
        ExpireAttemptUntouched(db, l, now, m);
        ElsewhereWinds(db, ExpireAttempt(db, l, now), r);
      }
    }
  }

  lemma OverHasNoLease(db: Db, t: int, l: LeaseId, r: RunId)
    requires Sound(db, t) && Over(db, r) && Live(db, l)
    ensures RunOf(db, l) != r
  {
    hide Numbered, Timed, Flow;
    LiveLease(db, l);
  }

  lemma {:induction false} SweepWinds(db: Db, order: seq<LeaseId>, now: int, t: int, r: RunId)
    requires Sound(db, t) && t <= now && WindingOrOver(db, r)
    ensures WindingOrOver(Sweep(db, order, now), r)
    decreases |order|
  {
    hide Numbered, Timed, Flow, Guarded, Grows, ExpireAttempt, WindingOrOver, Overdue;
    if order != [] {
      SoundLater(db, now, t);
      if Live(db, order[0]) && Overdue(db, order[0], now) {
        ExpiryWinds(db, order[0], now, t, r);
        ExpireAttemptSound(db, order[0], now, t);
      }
      SweepWinds(SweepOne(db, order[0], now), order[1..], now, now, r);
    }
  }

  lemma AcknowledgementWinds(db: Db, l: LeaseId, now: int, t: int, r: RunId)
    requires Sound(db, t) && t <= now && Live(db, l) && WindingOrOver(db, r)
    ensures WindingOrOver(Acknowledge(db, l, now).0, r)
  {
    hide Numbered, Timed, Flow, Grows, FinishCancellation, Frozen, Guarded, Over;
    var d := Acknowledge(db, l, now).0;
    if RunOf(db, l) == r {
      if Over(db, r) { OverHasNoLease(db, t, l, r); }
      LeaseEnds(db, l, now, t, r);
    } else {
      AcknowledgeLocal(db, l, now, r);
      if Over(db, r) {
        FrozenOver(db, d, r);
      } else {
        var m :| LeaseOf(db, m, r);
        FinishLeases(db, l, now);
        ElsewhereWinds(db, d, r);
      }
    }
  }

  lemma FinishLeases(db: Db, l: LeaseId, now: int)
    requires Refs(db) && l in db.leases
    ensures Acknowledge(db, l, now).0.leases == db.leases[l := db.leases[l].(releasedAt := Some(now))]
  {
    hide OtherActive;
  }

  lemma HeartbeatWinds(cfg: Config, db: Db, l: LeaseId, now: int, t: int, r: RunId)
    requires Sound(db, t) && t <= now && Live(db, l) && WindingOrOver(db, r)
    ensures WindingOrOver(Heartbeat(cfg, db, l, now).0, r)
  {
    hide Numbered, Timed, Flow, Grows, Guarded, Over, ExpireAttempt, Frozen;
    var d := Heartbeat(cfg, db, l, now).0;
    if RunOf(db, l) != r { HeartbeatLocal(cfg, db, l, now, r); }
    if Over(db, r) {
      OverHasNoLease(db, t, l, r);
      FrozenOver(db, d, r);
    } else {
      ExpiryWinds(db, l, now, t, r);
      var m :| LeaseOf(db, m, r);
      assert LeaseOf(Touch(cfg, db, l, now, true), m, r) && LeaseOf(Touch(cfg, db, l, now, false), m, r);
    }
  }

  // ---------- any such step, any such run of the protocol ----------

  lemma RequestWinds(cfg: Config, db: Db, act: Action, now: int, t: int, r: RunId)
    requires Invariant(db, t) && t <= now && WindsDown(act) && act.MutateStage? && Unused(db, act.ids) && WindingOrOver(db, r)
    ensures WindingOrOver(Step(cfg, db, act, now), r)
  {
    hide Numbered, Timed, Flow, Grows, Guarded, Heartbeat, Acknowledge, Mutate, WindingOrOver, Recorded;
    var q := act.request;
    MutateReaches(cfg, db, q, act.signed, act.ids, act.other, now);
    var d := Step(cfg, db, act, now);
    if d != db {
      if q.message.call.HeartbeatCall? { HeartbeatWinds(cfg, db, q.message.lease, now, t, r); }
      if q.message.call.AckCall? { AcknowledgementWinds(db, q.message.lease, now, t, r); }
      RecordsWind(Perform(cfg, db, q, act.ids, act.other, now).0, d.requests, r);
    }
  }

  lemma RecordsWind(db: Db, requests: map<(ExecutorId, nat), Record>, r: RunId)
    requires Refs(db) && WindingOrOver(db, r)
    ensures WindingOrOver(db.(requests := requests), r)
  {
    var d := db.(requests := requests);
    if l :| LeaseOf(db, l, r) { assert LeaseOf(d, l, r); }
  }

  lemma UserWinds(cfg: Config, db: Db, act: Action, now: int, t: int, r: RunId)
    requires Invariant(db, t) && t <= now && (act.CancelRun? || act.SubmitRun? || act.ConfirmRun?) && WindingOrOver(db, r)
    ensures WindingOrOver(Step(cfg, db, act, now), r)
  {
    hide Numbered, Timed, Flow, Grows, Guarded, Recorded, SomeActive;
    var d := Step(cfg, db, act, now);
    if Over(db, r) {
      StepOver(cfg, db, act, now, t, r);
      FrozenOver(db, d, r);
    } else {
      var l :| LeaseOf(db, l, r);
      if act.CancelRun? && act.run in db.runs {
        if act.run == r {
          CancelWinds(db, l, r, t);
        } else {
          assert LeaseOf(d, l, r);
        }
      } else {
        assert LeaseOf(d, l, r);
      }
    }
  }

  lemma CancelWinds(db: Db, l: LeaseId, r: RunId, t: int)
    requires Sound(db, t) && LeaseOf(db, l, r) && r in db.runs && db.runs[r].status == RunCancelling
    ensures Winding(Cancel(db, r), r)
  {
    hide Numbered, Timed, Flow;
    LiveLease(db, l);
    assert SomeActive(db, r);
    assert LeaseOf(Cancel(db, r), l, r);
  }

  lemma StepWinds(cfg: Config, db: Db, act: Action, now: int, t: int, r: RunId)
    requires Invariant(db, t) && t <= now && WindsDown(act) && WindingOrOver(db, r)
    ensures WindingOrOver(Step(cfg, db, act, now), r)
  {
    hide Numbered, Timed, Flow, Grows, Guarded, Recorded, WindingOrOver, Sweep, Cancel, Submit, Confirm, Mutate;
    match act
    case SweepLeases(order) => SweepWinds(db, order, now, t, r);
    case MutateStage(q, signed, ids, other) => if Unused(db, ids) { RequestWinds(cfg, db, act, now, t, r); }
    case _ => UserWinds(cfg, db, act, now, t, r);
  }

  ghost predicate AllWindDown(trace: seq<Event>) { forall e :: e in trace ==> WindsDown(e.act) }

  lemma {:induction false} ExecWinds(cfg: Config, db: Db, trace: seq<Event>, t: int, r: RunId)
    requires Invariant(db, t) && Timely(trace, t) && AllWindDown(trace) && WindingOrOver(db, r)
    ensures WindingOrOver(Exec(cfg, db, trace), r)
    decreases |trace|
  {
    hide Numbered, Timed, Flow, Grows, Guarded, Recorded, WindingOrOver, Step;
    if trace != [] {
      var e := trace[0];
      assert e in trace && forall f :: f in trace[1..] ==> f in trace;
      StepWinds(cfg, db, e.act, e.now, t, r);
      StepSound(cfg, db, e.act, e.now, t);
      ExecWinds(cfg, Step(cfg, db, e.act, e.now), trace[1..], e.now, r);
    }
  }

  /** A cancellation comes to its end: after it, and after any heartbeats, acknowledgements and sweeps, the run is
      over if and only if no lease of it is left, and cancelling otherwise. */
  lemma CancellationCompletes(cfg: Config, db: Db, r: RunId, now: int, trace: seq<Event>, t: int)
    requires Invariant(db, t) && t <= now && r in db.runs && db.runs[r].status != RunTerminal
    requires Timely(trace, now) && AllWindDown(trace)
    ensures var d := Exec(cfg, Step(cfg, db, CancelRun(r), now), trace);
      && r in d.runs
      && (Over(d, r) <==> forall l :: !LeaseOf(d, l, r))
      && (!Over(d, r) ==> d.runs[r].status == RunCancelling)
  {
    hide Numbered, Timed, Flow, Grows, Guarded, Recorded, Step, Over;
    var mid := Step(cfg, db, CancelRun(r), now);
    CancellationTakesEffect(cfg, db, r, now, t);
    StepSound(cfg, db, CancelRun(r), now, t);
    ExecWinds(cfg, mid, trace, now, r);
    RunSound(cfg, mid, trace, now);
    var d := Exec(cfg, mid, trace);
    if Over(d, r) {
      assert r in d.runs by { OverExists(d, r); }
      forall l ensures !LeaseOf(d, l, r) { if LeaseOf(d, l, r) { OverHasNoLease(d, EndOf(trace, now), l, r); } }
    }
  }

  lemma OverExists(db: Db, r: RunId)
    requires Over(db, r)
    ensures r in db.runs
  {}

  /** Directly after a cancellation, every answered heartbeat for the run says to stop. */
  lemma CancelledHeartbeatStops(cfg: Config, db: Db, r: RunId, now: int, t: int, q: Request, ids: Fresh, later: int, e: Db, response: Response)
    requires Invariant(db, t) && t <= now && r in db.runs && db.runs[r].status != RunTerminal
    requires var d := Step(cfg, db, CancelRun(r), now);
      && q.message.call.HeartbeatCall? && q.message.stage in d.stages && d.stages[q.message.stage].run == r
      && Answers(cfg, d, q, ids, later, e, response)
    ensures response == HeartbeatReply(later + cfg.leaseTtl, Some(StopCancelled))
  {
    hide Numbered, Timed, Flow, Guarded, Grows, Recorded, Step, Answers, Mutate, Perform, Over, Prolonged, Retried, Count, FreshNonce;
    var d := Step(cfg, db, CancelRun(r), now);
    StepSound(cfg, db, CancelRun(r), now, t);
    CancellationTakesEffect(cfg, db, r, now, t);
    HeartbeatMeans(cfg, d, q, ids, later, e, response);
    AnswersPerform(cfg, d, q, ids, later, e, response);
    if Over(d, r) { OverHasNoLease(d, now, q.message.lease, r); }
  }

  /** A cancelled run whose leases are all overdue by the next sweep, and known to it, is over after it. */
  lemma CancelThenSweep(cfg: Config, db: Db, r: RunId, now: int, t: int, order: seq<LeaseId>, later: int)
    requires Invariant(db, t) && t <= now <= later && r in db.runs && db.runs[r].status != RunTerminal
    requires forall l :: LeaseOf(db, l, r) ==> l in order && Overdue(db, l, later)
    ensures Over(Step(cfg, Step(cfg, db, CancelRun(r), now), SweepLeases(order), later), r)
  {
    hide Numbered, Timed, Flow, Grows, Guarded, Recorded, Sweep;
    var d := Step(cfg, db, CancelRun(r), now);
    CancellationTakesEffect(cfg, db, r, now, t);
    StepSound(cfg, db, CancelRun(r), now, t);
    if Over(d, r) {
      SweepOver(d, order, later, now, r);
      FrozenOver(d, Sweep(d, order, later), r);
    } else {
      forall l | LeaseOf(d, l, r) ensures l in order && Overdue(d, l, later) { assert LeaseOf(db, l, r); }
      SweepFinishesCancellation(d, r, order, later, now);
    }
  }
}
