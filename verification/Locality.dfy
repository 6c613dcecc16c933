/** Which run a step concerns: everything that belongs to another run stays as it was. */
module Locality {
  import opened Tables
  import opened Handlers
  import opened LeaseSafety
  import opened Workflow
  import opened Protocol

  /** The run row and the stage rows of run r are the same, none added and none lost. */
  ghost predicate Frozen(db: Db, d: Db, r: RunId) {
    && (r in d.runs <==> r in db.runs) && (r in db.runs ==> d.runs[r] == db.runs[r])
    && (forall s :: s in db.stages && db.stages[s].run == r ==> s in d.stages && d.stages[s] == db.stages[s])
    && (forall s :: s in d.stages && d.stages[s].run == r ==> s in db.stages && d.stages[s] == db.stages[s])
  }

  lemma FrozenThrough(a: Db, b: Db, c: Db, r: RunId)
    requires Frozen(a, b, r) && Frozen(b, c, r)
    ensures Frozen(a, c, r)
  {}

  function RunOf(db: Db, l: LeaseId): RunId
    requires Refs(db) && l in db.leases
  {
    db.stages[db.leases[l].stage].run
  }

  lemma EndLeaseLocal(db: Db, l: LeaseId, now: int, ended: AttemptState, state: StageState, next: Option<int>, r: RunId)
    requires Refs(db) && l in db.leases && r != RunOf(db, l)
    ensures Frozen(db, EndLease(db, l, now, ended, state, next), r)
  {}

  lemma SetRunLocal(db: Db, o: RunId, status: RunStatus, result: Option<RunResult>, r: RunId)
    requires Refs(db) && o in db.runs && r != o
    ensures Frozen(db, SetRun(db, o, status, result), r)
  {}

  lemma SetStageLocal(db: Db, s: StageId, state: StageState, r: RunId)
    requires Refs(db) && s in db.stages && r != db.stages[s].run
    ensures Frozen(db, SetStage(db, s, state), r)
  {}

  lemma FinishCancellationLocal(db: Db, o: RunId, s: StageId, r: RunId)
    requires Refs(db) && o in db.runs && r != o
    ensures Frozen(db, FinishCancellation(db, o, s), r)
  {}

  lemma ExpireAttemptLocal(db: Db, l: LeaseId, now: int, r: RunId)
    requires Refs(db) && l in db.leases && r != RunOf(db, l)
    ensures Frozen(db, ExpireAttempt(db, l, now), r)
  {
    hide Frozen, FinishCancellation;
    var s := db.leases[l].stage;
    var stage := db.stages[s];
    if db.runs[stage.run].status == RunCancelling {
      var d := EndLease(db, l, now, AttemptCancelled, Cancelled, Unscheduled(db, l));
      EndLeaseLocal(db, l, now, AttemptCancelled, Cancelled, Unscheduled(db, l), r);
      FinishCancellationLocal(d, stage.run, s, r);
      FrozenThrough(db, d, ExpireAttempt(db, l, now), r);
    } else if Count(db, s) < stage.maxAttempts {
      EndLeaseLocal(db, l, now, AttemptExpired, Queued, Some(now + Backoff(Count(db, s))), r);
    } else {
      FailRunLocal(db, l, now, AttemptExpired, r);
    }
  }

  lemma FailRunLocal(db: Db, l: LeaseId, now: int, ended: AttemptState, r: RunId)
    requires Refs(db) && l in db.leases && r != RunOf(db, l)
    ensures var stage := db.stages[db.leases[l].stage];
      Frozen(db, SetRun(EndLease(db, l, now, ended, Failed, Unscheduled(db, l)),
                        stage.run, RunTerminal, Some(FailureResult(stage.kind))), r)
  {}

  lemma CreateNextLocal(cfg: Config, db: Db, id: StageId, o: RunId, k: StageKind, r: RunId)
    requires Refs(db) && o in db.runs && id !in db.stages && r != o
    ensures Frozen(db, CreateNext(cfg, db, id, o, k), r)
  {}

  lemma AdvanceLocal(cfg: Config, db: Db, s: StageId, ids: Fresh, r: RunId)
    requires Refs(db) && s in db.stages && Unused(db, ids) && r != db.stages[s].run
    ensures Frozen(db, Advance(cfg, db, s, ids), r)
  {
    hide Frozen, CreateNext, HasStage;
    FrozenSelf(db, r);
    var o, k := db.stages[s].run, db.stages[s].kind;
    if k.ReportGeneration? {
      SetRunLocal(db, o, RunTerminal, Some(ResultCompleted), r);
    } else if k.C2Analysis? {
      var d := CreateNext(cfg, db, ids.first, o, PlatformAdaptation);
      CreateNextLocal(cfg, db, ids.first, o, PlatformAdaptation, r);
      CreateNextStages(cfg, db, ids.first, o, PlatformAdaptation);
      CreateNextLocal(cfg, d, ids.second, o, C2Adaptation, r);
      FrozenThrough(db, d, Advance(cfg, db, s, ids), r);
    } else {
      CreateNextLocal(cfg, db, ids.first, o, C2Analysis, r);
      CreateNextLocal(cfg, db, ids.first, o, PlatformAdaptation, r);
      CreateNextLocal(cfg, db, ids.first, o, CaseAggregation, r);
      CreateNextLocal(cfg, db, ids.first, o, ReportGeneration, r);
    }
  }

  lemma CompleteLocal(cfg: Config, db: Db, l: LeaseId, outcome: StageState, ids: Fresh, now: int, r: RunId)
    requires Refs(db) && l in db.leases && Completion(outcome) && Unused(db, ids) && r != RunOf(db, l)
    ensures Frozen(db, Complete(cfg, db, l, outcome, ids, now).0, r)
  {
    hide Frozen, Advance;
    var s := db.leases[l].stage;
    var o := db.stages[s].run;
    var d := EndLease(db, l, now, AttemptCompleted, outcome, Unscheduled(db, l));
    EndLeaseLocal(db, l, now, AttemptCompleted, outcome, Unscheduled(db, l), r);
    SetRunLocal(d, o, RunTerminal, Some(ResultUnsupported), r);
    FrozenThrough(db, d, SetRun(d, o, RunTerminal, Some(ResultUnsupported)), r);
    var e := SetRun(d, o, db.runs[o].status, Some(ResultPartial));
    SetRunLocal(d, o, db.runs[o].status, Some(ResultPartial), r);
    FrozenThrough(db, d, e, r);
    AdvanceLocal(cfg, e, s, ids, r);
    AdvanceLocal(cfg, d, s, ids, r);
    FrozenThrough(db, e, Advance(cfg, e, s, ids), r);
    FrozenThrough(db, d, Advance(cfg, d, s, ids), r);
  }

  lemma AcknowledgeLocal(db: Db, l: LeaseId, now: int, r: RunId)
    requires Refs(db) && l in db.leases && r != RunOf(db, l)
    ensures Frozen(db, Acknowledge(db, l, now).0, r)
  {
    hide Frozen, FinishCancellation;
    var d := EndLease(db, l, now, AttemptCancelled, Cancelled, Unscheduled(db, l));
    EndLeaseLocal(db, l, now, AttemptCancelled, Cancelled, Unscheduled(db, l), r);
    FinishCancellationLocal(d, RunOf(db, l), db.leases[l].stage, r);
    FrozenThrough(db, d, FinishCancellation(d, RunOf(db, l), db.leases[l].stage), r);
  }

  lemma FailLocal(db: Db, l: LeaseId, retryable: bool, now: int, r: RunId)
    requires Refs(db) && l in db.leases && r != RunOf(db, l)
    ensures Frozen(db, Fail(db, l, retryable, now).0, r)
  {
    hide Frozen;
    FailRunLocal(db, l, now, AttemptFailed, r);
    EndLeaseLocal(db, l, now, AttemptFailed, Queued, Some(now + Backoff(Count(db, db.leases[l].stage))), r);
  }

  lemma HeartbeatLocal(cfg: Config, db: Db, l: LeaseId, now: int, r: RunId)
    requires Refs(db) && l in db.leases && r != RunOf(db, l)
    ensures Frozen(db, Heartbeat(cfg, db, l, now).0, r)
  {
    hide ExpireAttempt;
    ExpireAttemptLocal(db, l, now, r);
  }

  lemma PerformLocal(cfg: Config, db: Db, q: Request, ids: Fresh, other: OtherOutcome, now: int, r: RunId)
    requires Refs(db) && q.message.lease in db.leases && Unused(db, ids)
    requires !q.message.call.OtherCall? ==> r != RunOf(db, q.message.lease)
    ensures Frozen(db, Perform(cfg, db, q, ids, other, now).0, r)
  {
    hide Heartbeat, Complete, Fail, Acknowledge;
    var l := q.message.lease;
    if !q.message.call.OtherCall? {
      HeartbeatLocal(cfg, db, l, now, r);
      FailLocal(db, l, true, now, r);
      FailLocal(db, l, false, now, r);
      AcknowledgeLocal(db, l, now, r);
      if q.message.call.CompleteCall? && q.message.call.outcome.Some? && Completion(q.message.call.outcome.value) {
        CompleteLocal(cfg, db, l, q.message.call.outcome.value, ids, now, r);
      }
    }
  }

  lemma AdaptLocal(db: Db, s: StageId, outcome: AdaptOutcome, r: RunId)
    requires Refs(db) && (s in db.stages ==> r != db.stages[s].run)
    ensures Frozen(db, Adapt(db, s, outcome), r)
  {}

  lemma EnsureAllLocal(cfg: Config, db: Db, ready: seq<(RunId, StageId)>, r: RunId)
    requires Refs(db)
    requires r in db.runs ==> db.runs[r].status != RunRunning
    ensures Frozen(db, EnsureAll(cfg, db, ready), r)
    decreases |ready|
  {
    hide HasStage, HasStageIn;
    if ready != [] {
      var d := EnsureAggregation(cfg, db, ready[0].0, ready[0].1);
      EnsureAllLocal(cfg, d, ready[1..], r);
      FrozenThrough(db, d, EnsureAll(cfg, d, ready[1..]), r);
    }
  }

  // ---------- a cancelled run is over ----------

  ghost predicate Over(db: Db, r: RunId) {
    r in db.runs && EndedCancelled(db.runs[r])
    && forall s :: s in db.stages && db.stages[s].run == r ==> Final(db.stages[s].state)
  }

  /** Nothing is left to do in the run, and no aggregation will be created for it: it has ended, or it was
      cancelled and its stages are all final, none of them a failed adaptation. */
  ghost predicate Settled(db: Db, r: RunId) {
    && r in db.runs && db.runs[r].status in {RunCancelling, RunTerminal} && !Orphaned(db, r)
    && forall s :: s in db.stages && db.stages[s].run == r ==> Final(db.stages[s].state)
  }

  lemma OverIsSettled(db: Db, r: RunId)
    requires Over(db, r)
    ensures Settled(db, r)
  {}

  lemma FrozenSelf(db: Db, r: RunId)
    ensures Frozen(db, db, r)
  {}

  lemma FrozenOver(db: Db, d: Db, r: RunId)
    requires Frozen(db, d, r) && Over(db, r)
    ensures Over(d, r)
  {}

  lemma FrozenSettled(db: Db, d: Db, r: RunId)
    requires Frozen(db, d, r) && Settled(db, r)
    ensures Settled(d, r)
  {}

  lemma SweepSettled(db: Db, order: seq<LeaseId>, now: int, t: int, r: RunId)
    requires Sound(db, t) && t <= now && Settled(db, r)
    ensures Frozen(db, Sweep(db, order, now), r)
    decreases |order|
  {
    hide Numbered, Timed, Flow, Frozen, ExpireAttempt, Overdue, SameCounts, Grows;
    FrozenSelf(db, r);
    if order != [] {
      var d := SweepOne(db, order[0], now);
      SoundLater(db, now, t);
      if Live(db, order[0]) && Overdue(db, order[0], now) {
        LiveLease(db, order[0]);
        ExpireAttemptSound(db, order[0], now, t);
        ExpireAttemptLocal(db, order[0], now, r);
        FrozenSettled(db, d, r);
      }
      SweepSettled(d, order[1..], now, now, r);
      FrozenThrough(db, d, Sweep(d, order[1..], now), r);
    }
  }

  lemma MutateSettled(cfg: Config, db: Db, q: Request, signed: bool, ids: Fresh, other: OtherOutcome, now: int, t: int, r: RunId)
    requires Invariant(db, t) && t <= now && Settled(db, r) && Unused(db, ids)
    ensures Frozen(db, Mutate(cfg, db, q, signed, ids, other, now).0, r)
  {
    hide Numbered, Timed, Flow, Perform, Mutate, Frozen, Recorded;
    FrozenSelf(db, r);
    MutateReaches(cfg, db, q, signed, ids, other, now);
    var d := Mutate(cfg, db, q, signed, ids, other, now).0;
    if d != db {
      if Live(db, q.message.lease) { LiveLease(db, q.message.lease); }
      PerformLocal(cfg, db, q, ids, other, now, r);
      var p := Perform(cfg, db, q, ids, other, now);
      RecordLocal(p.0, d.requests, r);
      FrozenThrough(db, p.0, d, r);
    }
  }

  lemma RecordLocal(db: Db, requests: map<(ExecutorId, nat), Record>, r: RunId)
    ensures Frozen(db, db.(requests := requests), r)
  {}

  lemma ReportSettled(cfg: Config, db: Db, ready: seq<(RunId, StageId)>, s: StageId, outcome: ReportOutcome, id: StageId, r: RunId)
    requires Refs(db) && Settled(db, r)
    ensures Frozen(db, Report(cfg, db, ready, s, outcome, id), r)
  {
    hide EnsureAll, FinishReport;
    EnsureAllLocal(cfg, db, ready, r);
    var d := EnsureAll(cfg, db, ready);
    if Reportable(d, s) {
      if s in db.stages { EnsureAllOldStages(cfg, db, ready, s); }
      assert d.stages[s].run != r;
      if outcome.ReportDone? {
        FinishReportLocal(cfg, d, s, outcome.verdict, id, r);
        FrozenThrough(db, d, FinishReport(cfg, d, s, outcome.verdict, id), r);
      }
    }
  }

  lemma FinishReportLocal(cfg: Config, d: Db, s: StageId, verdict: Verdict, id: StageId, r: RunId)
    requires Refs(d) && Reportable(d, s) && d.stages[s].run != r
    ensures Frozen(d, FinishReport(cfg, d, s, verdict, id), r)
  {
    hide Frozen, CreateNext;
    FrozenSelf(d, r);
    var o, done := d.stages[s].run, SetStage(d, s, Completed);
    SetStageLocal(d, s, Completed, r);
    if d.stages[s].kind.ReportGeneration? {
      var result := Some(ReportResult(d.runs[o].result, verdict));
      SetRunLocal(done, o, RunTerminal, result, r);
      FrozenThrough(d, done, SetRun(done, o, RunTerminal, result), r);
    } else if id !in d.stages {
      CreateNextLocal(cfg, done, id, o, ReportGeneration, r);
      FrozenThrough(d, done, CreateNext(cfg, done, id, o, ReportGeneration), r);
    }
  }

  lemma ClaimSettled(cfg: Config, db: Db, order: seq<LeaseId>, pick: Option<GrantIds>, now: int, t: int, r: RunId)
    requires Sound(db, t) && t <= now && Settled(db, r)
    ensures Frozen(db, Claim(cfg, db, order, pick, now), r)
  {
    hide Numbered, Timed, Guarded, Flow, Sweep, Count, Grows;
    SweepSettled(db, order, now, t, r);
    FrozenSettled(db, Sweep(db, order, now), r);
  }

  /** No step of any actor but a cancellation changes a settled run, or any stage of it. */
  lemma StepSettled(cfg: Config, db: Db, act: Action, now: int, t: int, r: RunId)
    requires Invariant(db, t) && t <= now && Settled(db, r) && (act == CancelRun(r) ==> db.runs[r].status == RunTerminal)
    ensures Frozen(db, Step(cfg, db, act, now), r)
  {
    hide Numbered, Timed, Guarded, Flow, Frozen, Settled, Recorded;
    hide Submit, Confirm, Cancel, Sweep, Claim, Mutate, Report, Adapt, AdoptOrphan;
    FrozenSelf(db, r);
    match act
    case SubmitRun(o, c2, awaiting, id) => UserSettled(cfg, db, o, c2, awaiting, id, r);
    case ConfirmRun(o, id) => UserSettled(cfg, db, o, false, false, id, r);
    case CancelRun(o) => if o in db.runs { CancelSettled(db, o, r); }
    case SweepLeases(order) => SweepSettled(db, order, now, t, r);
    case ClaimStage(order, pick) => ClaimSettled(cfg, db, order, pick, now, t, r);
    case MutateStage(q, signed, ids, other) =>
      if Unused(db, ids) { MutateSettled(cfg, db, q, signed, ids, other, now, t, r); }
    case AdaptStage(s, adapted) => AdaptSettled(db, s, adapted, r);
    case AdoptRun(o) => AdoptOrphanSettled(db, o, r);
    case ReportStage(ready, s, reported, id) => ReportSettled(cfg, db, ready, s, reported, id, r);
  }

  lemma UserSettled(cfg: Config, db: Db, o: RunId, c2: bool, awaiting: bool, id: StageId, r: RunId)
    requires Refs(db) && Settled(db, r)
    ensures id !in db.stages && o !in db.runs ==> Frozen(db, Submit(cfg, db, o, c2, awaiting, id), r)
    ensures id !in db.stages && o in db.runs ==> Frozen(db, Confirm(cfg, db, o, id), r)
  {}

  lemma AdoptOrphanSettled(db: Db, o: RunId, r: RunId)
    requires Refs(db) && Settled(db, r)
    ensures Frozen(db, AdoptOrphan(db, o), r)
  {}

  lemma CancelSettled(db: Db, o: RunId, r: RunId)
    requires Refs(db) && Settled(db, r) && o in db.runs && (o == r ==> db.runs[r].status == RunTerminal)
    ensures Frozen(db, Cancel(db, o), r)
  {}

  lemma AdaptSettled(db: Db, s: StageId, outcome: AdaptOutcome, r: RunId)
    requires Refs(db) && Settled(db, r)
    ensures Frozen(db, Adapt(db, s, outcome), r)
  {}

  lemma SweepOver(db: Db, order: seq<LeaseId>, now: int, t: int, r: RunId)
    requires Sound(db, t) && t <= now && Over(db, r)
    ensures Frozen(db, Sweep(db, order, now), r)
  {
    hide Numbered, Timed, Guarded, Flow, Frozen, Over, Settled;
    OverIsSettled(db, r);
    SweepSettled(db, order, now, t, r);
  }

  /** No step of any actor changes a run that has ended as cancelled, or any stage of it. */
  lemma StepOver(cfg: Config, db: Db, act: Action, now: int, t: int, r: RunId)
    requires Invariant(db, t) && t <= now && Over(db, r)
    ensures Frozen(db, Step(cfg, db, act, now), r)
  {
    hide Numbered, Timed, Guarded, Flow, Frozen, Recorded, Step, Settled;
    OverIsSettled(db, r);
    StepSettled(cfg, db, act, now, t, r);
  }

  /** Cancellation is final, over any continuation and any executor scope. */
  lemma {:induction false} CancellationFinal(cfg: Config, db: Db, trace: seq<Event>, t: int, r: RunId)
    requires Invariant(db, t) && Timely(trace, t) && r in db.runs && EndedCancelled(db.runs[r])
    ensures forall s :: s in db.stages && db.stages[s].run == r ==> Final(db.stages[s].state)
    ensures forall l :: Live(db, l) ==> RunOf(db, l) != r
    ensures Frozen(db, Exec(cfg, db, trace), r)
    decreases |trace|
  {
    hide Numbered, Timed, UniqueKinds, Ordered, Unstarted, Recorded, Frozen, Grows, Step;
    assert Over(db, r);
    FrozenSelf(db, r);
    if trace != [] {
      var d := Step(cfg, db, trace[0].act, trace[0].now);
      StepOver(cfg, db, trace[0].act, trace[0].now, t, r);
      StepSound(cfg, db, trace[0].act, trace[0].now, t);
      FrozenOver(db, d, r);
      CancellationFinal(cfg, d, trace[1..], trace[0].now, r);
      FrozenThrough(db, d, Exec(cfg, d, trace[1..]), r);
    }
  }
}
