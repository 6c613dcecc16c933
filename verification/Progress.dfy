/** Every run of an analysis comes to rest: a measure over the stages not yet created, the attempts not
    yet used, the stage states and the end of the run goes down whenever a stage moves or the run ends. */
module Progress {
  import opened Tables
  import opened Handlers
  import opened LeaseSafety
  import opened Workflow
  import opened Protocol
  import opened Histories

  // ---------- stages are created with the configured allowance ----------

  ghost predicate Configured(cfg: Config, db: Db) {
    forall s :: s in db.stages ==> db.stages[s].maxAttempts == cfg.MaxAttempts(db.stages[s].kind)
  }

  lemma CreateNextConfigured(cfg: Config, db: Db, id: StageId, r: RunId, k: StageKind)
    requires Refs(db) && r in db.runs && id !in db.stages && Configured(cfg, db)
    ensures Configured(cfg, CreateNext(cfg, db, id, r, k))
  {}

  lemma AdvanceConfigured(cfg: Config, db: Db, s: StageId, ids: Fresh)
    requires Refs(db) && s in db.stages && Unused(db, ids) && Configured(cfg, db)
    ensures Configured(cfg, Advance(cfg, db, s, ids))
  {
    hide HasStage, CreateNext, Configured;
    var r := db.stages[s].run;
    CreateNextConfigured(cfg, db, ids.first, r, C2Analysis);
    CreateNextConfigured(cfg, db, ids.first, r, PlatformAdaptation);
    CreateNextConfigured(cfg, db, ids.first, r, CaseAggregation);
    CreateNextConfigured(cfg, db, ids.first, r, ReportGeneration);
    CreateNextStages(cfg, db, ids.first, r, PlatformAdaptation);
    CreateNextConfigured(cfg, CreateNext(cfg, db, ids.first, r, PlatformAdaptation), ids.second, r, C2Adaptation);
    SameStagesConfigured(cfg, db, SetRun(db, r, RunTerminal, Some(ResultCompleted)));
  }

  lemma SameStagesConfigured(cfg: Config, db: Db, d: Db)
    requires Configured(cfg, db) && d.stages.Keys == db.stages.Keys
    requires forall s :: s in db.stages ==>
               d.stages[s].kind == db.stages[s].kind && d.stages[s].maxAttempts == db.stages[s].maxAttempts
    ensures Configured(cfg, d)
  {}

  lemma ExpireAttemptConfigured(cfg: Config, db: Db, l: LeaseId, now: int)
    requires Refs(db) && l in db.leases && Configured(cfg, db)
    ensures Configured(cfg, ExpireAttempt(db, l, now))
  {
    hide OtherActive, Count;
  }

  lemma SweepConfigured(cfg: Config, db: Db, order: seq<LeaseId>, now: int)
    requires Refs(db) && Configured(cfg, db)
    ensures Configured(cfg, Sweep(db, order, now))
    decreases |order|
  {
    hide Configured, ExpireAttempt, Overdue;
    if order != [] {
      if Live(db, order[0]) { ExpireAttemptConfigured(cfg, db, order[0], now); }
      SweepConfigured(cfg, SweepOne(db, order[0], now), order[1..], now);
    }
  }

  lemma CompleteConfigured(cfg: Config, db: Db, l: LeaseId, outcome: StageState, ids: Fresh, now: int)
    requires Refs(db) && l in db.leases && Completion(outcome) && Unused(db, ids) && Configured(cfg, db)
    ensures Configured(cfg, Complete(cfg, db, l, outcome, ids, now).0)
  {
    hide Advance;
    var s := db.leases[l].stage;
    var d := EndLease(db, l, now, AttemptCompleted, outcome, Unscheduled(db, l));
    AdvanceConfigured(cfg, d, s, ids);
    AdvanceConfigured(cfg, SetRun(d, db.stages[s].run, db.runs[db.stages[s].run].status, Some(ResultPartial)), s, ids);
  }

  lemma HeartbeatConfigured(cfg: Config, db: Db, l: LeaseId, now: int)
    requires Refs(db) && l in db.leases && Configured(cfg, db)
    ensures Configured(cfg, Heartbeat(cfg, db, l, now).0)
  {
    hide ExpireAttempt;
    ExpireAttemptConfigured(cfg, db, l, now);
  }

  lemma FailConfigured(cfg: Config, db: Db, l: LeaseId, retryable: bool, now: int)
    requires Refs(db) && l in db.leases && Configured(cfg, db)
    ensures Configured(cfg, Fail(db, l, retryable, now).0)
  {
    hide Count;
  }

  lemma AcknowledgeConfigured(cfg: Config, db: Db, l: LeaseId, now: int)
    requires Refs(db) && l in db.leases && Configured(cfg, db)
    ensures Configured(cfg, Acknowledge(db, l, now).0)
  {
    hide OtherActive;
  }

  lemma PerformConfigured(cfg: Config, db: Db, q: Request, ids: Fresh, other: OtherOutcome, now: int)
    requires Refs(db) && q.message.lease in db.leases && Unused(db, ids) && Configured(cfg, db)
    ensures Configured(cfg, Perform(cfg, db, q, ids, other, now).0)
  {
    hide Configured, Heartbeat, Complete, Fail, Acknowledge;
    var l := q.message.lease;
    match q.message.call
    case HeartbeatCall => HeartbeatConfigured(cfg, db, l, now);
    case CompleteCall(outcome) =>
      if outcome.Some? && Completion(outcome.value) { CompleteConfigured(cfg, db, l, outcome.value, ids, now); }
    case FailCall(retryable) => FailConfigured(cfg, db, l, retryable, now);
    case AckCall => AcknowledgeConfigured(cfg, db, l, now);
    case OtherCall(_) =>
  }

  lemma EnsureAllConfigured(cfg: Config, db: Db, ready: seq<(RunId, StageId)>)
    requires Refs(db) && Configured(cfg, db)
    ensures Configured(cfg, EnsureAll(cfg, db, ready))
    decreases |ready|
  {
    hide HasStage, HasStageIn;
    if ready != [] { EnsureAllConfigured(cfg, EnsureAggregation(cfg, db, ready[0].0, ready[0].1), ready[1..]); }
  }

  lemma FinishReportConfigured(cfg: Config, db: Db, s: StageId, verdict: Verdict, id: StageId)
    requires Refs(db) && Reportable(db, s) && Configured(cfg, db)
    ensures Configured(cfg, FinishReport(cfg, db, s, verdict, id))
  {
    hide CreateNext;
    if id !in db.stages { CreateNextConfigured(cfg, SetStage(db, s, Completed), id, db.stages[s].run, ReportGeneration); }
  }

  lemma ReportConfigured(cfg: Config, db: Db, ready: seq<(RunId, StageId)>, s: StageId, outcome: ReportOutcome, id: StageId)
    requires Refs(db) && Configured(cfg, db)
    ensures Configured(cfg, Report(cfg, db, ready, s, outcome, id))
  {
    hide EnsureAll, FinishReport;
    EnsureAllConfigured(cfg, db, ready);
    var d := EnsureAll(cfg, db, ready);
    if Reportable(d, s) && outcome.ReportDone? { FinishReportConfigured(cfg, d, s, outcome.verdict, id); }
  }

  lemma UserConfigured(cfg: Config, db: Db, act: Action, now: int)
    requires Refs(db) && Configured(cfg, db)
    requires act.SubmitRun? || act.ConfirmRun? || act.CancelRun? || act.AdaptStage? || act.AdoptRun?
    ensures Configured(cfg, Step(cfg, db, act, now))
  {
    hide Cancel, Adapt, Orphaned;
    if act.CancelRun? && act.run in db.runs { CancelConfigured(cfg, db, act.run); }
    if act.AdaptStage? { AdaptConfigured(cfg, db, act.stage, act.adapted); }
  }

  lemma CancelConfigured(cfg: Config, db: Db, r: RunId)
    requires Refs(db) && Configured(cfg, db) && r in db.runs
    ensures Configured(cfg, Cancel(db, r))
  {
    hide SomeActive;
  }

  lemma AdaptConfigured(cfg: Config, db: Db, s: StageId, outcome: AdaptOutcome)
    requires Refs(db) && Configured(cfg, db)
    ensures Configured(cfg, Adapt(db, s, outcome))
  {}

  lemma ClaimConfigured(cfg: Config, db: Db, order: seq<LeaseId>, pick: Option<GrantIds>, now: int)
    requires Refs(db) && Configured(cfg, db)
    ensures Configured(cfg, Claim(cfg, db, order, pick, now))
  {
    hide Sweep, Count;
    SweepConfigured(cfg, db, order, now);
  }

  lemma StepConfigured(cfg: Config, db: Db, act: Action, now: int)
    requires Refs(db) && Recorded(db) && Configured(cfg, db)
    ensures Configured(cfg, Step(cfg, db, act, now))
  {
    hide Recorded, Configured, Submit, Confirm, Cancel, Sweep, Claim, Mutate, Adapt, AdoptOrphan, Report, Perform;
    match act
    case SweepLeases(order) => SweepConfigured(cfg, db, order, now);
    case ClaimStage(order, pick) => ClaimConfigured(cfg, db, order, pick, now);
    case MutateStage(q, signed, ids, other) =>
      if Unused(db, ids) {
        MutateReaches(cfg, db, q, signed, ids, other, now);
        if q.message.lease in db.leases {
          PerformConfigured(cfg, db, q, ids, other, now);
          RecordConfigured(cfg, Perform(cfg, db, q, ids, other, now).0, Step(cfg, db, act, now).requests);
        }
      }
    case ReportStage(ready, s, reported, id) => ReportConfigured(cfg, db, ready, s, reported, id);
    case _ => UserConfigured(cfg, db, act, now);
  }

  lemma RecordConfigured(cfg: Config, db: Db, requests: map<(ExecutorId, nat), Record>)
    requires Configured(cfg, db)
    ensures Configured(cfg, db.(requests := requests))
  {}

  // ---------- the measure of one run ----------

  /** The stage of this kind in the run, if it exists. */
  ghost function Slot(db: Db, r: RunId, k: StageKind): Option<StageId> {
    if HasStage(db, r, k) then (var s :| s in db.stages && IsStage(db, s, r, k); Some(s)) else None
  }

  ghost function SlotMeasure(cfg: Config, db: Db, r: RunId, k: StageKind): int {
    match Slot(db, r, k)
    case None => 2 * Allowance(cfg.MaxAttempts(k)) + 2
    case Some(s) => Ahead(db, s)
  }

  /** Attempts of this kind the run can still be granted. */
  ghost function SlotClaims(cfg: Config, db: Db, r: RunId, k: StageKind): int {
    match Slot(db, r, k)
    case None => Allowance(cfg.MaxAttempts(k))
    case Some(s) => Allowance(db.stages[s].maxAttempts) - Count(db, s)
  }

  ghost function Over6(f: StageKind -> int): int {
    f(PlatformAnalysis) + f(C2Analysis) + f(PlatformAdaptation) + f(C2Adaptation) + f(CaseAggregation) + f(ReportGeneration)
  }

  ghost function StageMeasure(cfg: Config, db: Db, r: RunId): int { Over6(k => SlotMeasure(cfg, db, r, k)) }

  /** Twice what the stages have ahead of them, and one for a run that has not ended: a claim that takes a
      run out of its end lowers the first part by more than the second rises. */
  ghost function Measure(cfg: Config, db: Db, r: RunId): int {
    2 * StageMeasure(cfg, db, r) + if Ended(db, r) then 0 else 1
  }

  ghost function ClaimsLeft(cfg: Config, db: Db, r: RunId): int { Over6(k => SlotClaims(cfg, db, r, k)) }

  /** A stage of the run is created, changes between pending, active and final, or is granted an attempt. */
  ghost predicate StageMoves(db: Db, d: Db, r: RunId) {
    exists s :: s in d.stages && d.stages[s].run == r && !Still(db, d, s)
  }

  /** A stage of the run moves, or the run comes to its end. */
  ghost predicate Moves(db: Db, d: Db, r: RunId) { StageMoves(db, d, r) || (!Ended(db, r) && Ended(d, r)) }

  lemma SlotIs(db: Db, r: RunId, s: StageId)
    requires UniqueKinds(db) && s in db.stages && db.stages[s].run == r
    ensures Slot(db, r, db.stages[s].kind) == Some(s)
  {
    var k := db.stages[s].kind;
    assert IsStage(db, s, r, k);
    var o := Slot(db, r, k).value;
    assert SameKind(db, s, o);
  }

  lemma SlotBounds(cfg: Config, db: Db, t: int, r: RunId, k: StageKind)
    requires Safe(db, t)
    ensures 0 <= SlotMeasure(cfg, db, r, k) && 0 <= SlotClaims(cfg, db, r, k)
  {
    hide Guarded, Timed, Bounded, DistinctNumbers, Paired;
  }

  /** One slot over one step. */
  lemma SlotStep(cfg: Config, db: Db, d: Db, r: RunId, k: StageKind)
    requires UniqueKinds(db) && UniqueKinds(d) && Grows(db, d) && Configured(cfg, d)
    ensures SlotMeasure(cfg, d, r, k) <= SlotMeasure(cfg, db, r, k)
    ensures SlotClaims(cfg, d, r, k) <= SlotClaims(cfg, db, r, k)
    ensures forall s :: s in d.stages && IsStage(d, s, r, k) && !Still(db, d, s) ==>
              SlotMeasure(cfg, d, r, k) < SlotMeasure(cfg, db, r, k)
    ensures forall s :: s in d.stages && IsStage(d, s, r, k) && s in db.stages && Count(db, s) < Count(d, s) ==>
              SlotClaims(cfg, d, r, k) < SlotClaims(cfg, db, r, k)
  {
    hide AttemptsKept, LeasesKept, RunsKept, Count;
    if HasStage(db, r, k) {
      var s := Slot(db, r, k).value;
      assert IsStage(d, s, r, k);
      SlotIs(d, r, s);
    } else if HasStage(d, r, k) {
      var s := Slot(d, r, k).value;
      assert !IsStage(db, s, r, k) && IsStage(d, s, r, k);
    }
    forall s | s in d.stages && IsStage(d, s, r, k) ensures Slot(d, r, k) == Some(s) { SlotIs(d, r, s); }
    StillAhead(db, d);
  }

  lemma StageMeasureStep(cfg: Config, db: Db, act: Action, now: int, t: int, r: RunId)
    requires Invariant(db, t) && t <= now && Configured(cfg, db)
    ensures var d := Step(cfg, db, act, now);
      && 0 <= StageMeasure(cfg, d, r) <= StageMeasure(cfg, db, r)
      && (StageMoves(db, d, r) ==> StageMeasure(cfg, d, r) < StageMeasure(cfg, db, r))
      && 0 <= ClaimsLeft(cfg, d, r) <= ClaimsLeft(cfg, db, r)
  {
    hide Numbered, Guarded, Timed, Ordered, Unstarted, CancelledFinal, UniqueKinds, Recorded, Grows, Step, Configured;
    hide SlotMeasure, SlotClaims, Still;
    var d := Step(cfg, db, act, now);
    StepSound(cfg, db, act, now, t);
    StepConfigured(cfg, db, act, now);
    forall k: StageKind
      ensures 0 <= SlotMeasure(cfg, d, r, k) <= SlotMeasure(cfg, db, r, k)
      ensures 0 <= SlotClaims(cfg, d, r, k) <= SlotClaims(cfg, db, r, k)
    {
      SlotStep(cfg, db, d, r, k);
      SlotBounds(cfg, d, now, r, k);
    }
    if StageMoves(db, d, r) {
      var s :| s in d.stages && d.stages[s].run == r && !Still(db, d, s);
      SlotStep(cfg, db, d, r, d.stages[s].kind);
    }
  }

  /** A step that takes a run out of its end claims a stage of it. */
  lemma ReopeningMoves(cfg: Config, db: Db, act: Action, now: int, t: int, r: RunId)
    requires Invariant(db, t) && t <= now && Ended(db, r) && !Ended(Step(cfg, db, act, now), r)
    ensures StageMoves(db, Step(cfg, db, act, now), r)
  {
    hide Numbered, Guarded, Timed, Flow, Recorded, Sweep, Count;
    ReopenedExactly(cfg, db, act, now, t, r);
    SweepEnded(db, act.order, now, r);
    var d, s := Step(cfg, db, act, now), act.pick.value.stage;
    assert s in d.stages && d.stages[s].state == Leased && d.stages[s].run == r by {
      SweepClaims(cfg, db, act.order, now, t, act.pick.value, r);
    }
    assert !Still(db, d, s);
  }

  /** No step raises the measure of any run, and any step that moves the run or ends it lowers it. */
  lemma MeasureStep(cfg: Config, db: Db, act: Action, now: int, t: int, r: RunId)
    requires Invariant(db, t) && t <= now && Configured(cfg, db)
    ensures var d := Step(cfg, db, act, now);
      && 0 <= Measure(cfg, d, r) <= Measure(cfg, db, r)
      && (Moves(db, d, r) ==> Measure(cfg, d, r) < Measure(cfg, db, r))
      && 0 <= ClaimsLeft(cfg, d, r) <= ClaimsLeft(cfg, db, r)
  {
    hide Numbered, Guarded, Timed, Flow, Recorded, Configured, Step, StageMeasure, StageMoves, ClaimsLeft;
    StageMeasureStep(cfg, db, act, now, t, r);
    if Ended(db, r) && !Ended(Step(cfg, db, act, now), r) { ReopeningMoves(cfg, db, act, now, t, r); }
  }

  /** This step grants an attempt of the run to an executor. */
  ghost predicate Grants(cfg: Config, db: Db, e: Event, r: RunId)
    requires Refs(db)
  {
    && e.act.ClaimStage? && e.act.pick.Some?
    && var d := Sweep(db, e.act.order, e.now);
       Grantable(cfg, d, e.act.pick.value, e.now) && d.stages[e.act.pick.value.stage].run == r
  }

  lemma GrantSpendsClaim(cfg: Config, db: Db, e: Event, t: int, r: RunId)
    requires Invariant(db, t) && t <= e.now && Configured(cfg, db) && Grants(cfg, db, e, r)
    ensures ClaimsLeft(cfg, Step(cfg, db, e.act, e.now), r) < ClaimsLeft(cfg, db, r)
  {
    hide Numbered, Guarded, Timed, Ordered, Unstarted, CancelledFinal, UniqueKinds, Recorded, Grows, Configured;
    hide Sweep, Count, SlotMeasure, SlotClaims;
    var mid, d := Sweep(db, e.act.order, e.now), Step(cfg, db, e.act, e.now);
    var g := e.act.pick.value;
    SweepSound(db, e.act.order, e.now, t);
    SweepConfigured(cfg, db, e.act.order, e.now);
    StepSound(cfg, db, e.act, e.now, t);
    StepConfigured(cfg, db, e.act, e.now);
    var granted := Grant(cfg, mid, g, e.now);
    GrantSound(cfg, mid, g, e.now, e.now);
    SetRunSound(granted, r, RunRunning, mid.runs[r].result, e.now, e.now);
    GrowsThrough(mid, granted, d);
    GrantCounts(cfg, mid, g, e.now);
    SetRunCounts(granted, r, RunRunning, mid.runs[r].result, g.stage);
    forall k: StageKind
      ensures SlotClaims(cfg, d, r, k) <= SlotClaims(cfg, mid, r, k) <= SlotClaims(cfg, db, r, k)
    {
      SlotStep(cfg, db, mid, r, k);
      SlotStep(cfg, mid, d, r, k);
    }
    assert IsStage(d, g.stage, r, mid.stages[g.stage].kind);
    SlotStep(cfg, mid, d, r, mid.stages[g.stage].kind);
  }

  lemma SetRunCounts(db: Db, r: RunId, status: RunStatus, result: Option<RunResult>, s: StageId)
    requires Refs(db) && r in db.runs
    ensures Count(SetRun(db, r, status, result), s) == Count(db, s)
  {
    SameAttemptsSameCounts(db, SetRun(db, r, status, result));
  }

  ghost function MovesIn(cfg: Config, db: Db, trace: seq<Event>, r: RunId): nat
    requires Refs(db)
    decreases |trace|
  {
    if trace == [] then 0 else
      var d := Step(cfg, db, trace[0].act, trace[0].now);
      (if Moves(db, d, r) then 1 else 0) + MovesIn(cfg, d, trace[1..], r)
  }

  ghost function GrantsIn(cfg: Config, db: Db, trace: seq<Event>, r: RunId): nat
    requires Refs(db)
    decreases |trace|
  {
    if trace == [] then 0 else
      (if Grants(cfg, db, trace[0], r) then 1 else 0)
      + GrantsIn(cfg, Step(cfg, db, trace[0].act, trace[0].now), trace[1..], r)
  }

  /** Over any continuation, the moves of a run are paid for by its measure, and its claims by the
      attempts it has left; what is not spent is still there at the end. */
  lemma {:induction false} MovesArePaid(cfg: Config, db: Db, trace: seq<Event>, t: int, r: RunId)
    requires Invariant(db, t) && Configured(cfg, db) && Timely(trace, t)
    ensures var d := Exec(cfg, db, trace);
      && MovesIn(cfg, db, trace, r) + Measure(cfg, d, r) <= Measure(cfg, db, r)
      && GrantsIn(cfg, db, trace, r) + ClaimsLeft(cfg, d, r) <= ClaimsLeft(cfg, db, r)
      && 0 <= Measure(cfg, d, r) && 0 <= ClaimsLeft(cfg, d, r)
    decreases |trace|
  {
    hide Numbered, Guarded, Timed, Flow, Recorded, Grows, Step, Configured, Measure, ClaimsLeft, Moves, Grants;
    if trace == [] {
      MeasureNonNegative(cfg, db, t, r);
    } else {
      var d := Step(cfg, db, trace[0].act, trace[0].now);
      StepSound(cfg, db, trace[0].act, trace[0].now, t);
      StepConfigured(cfg, db, trace[0].act, trace[0].now);
      MeasureStep(cfg, db, trace[0].act, trace[0].now, t, r);
      if Grants(cfg, db, trace[0], r) { GrantSpendsClaim(cfg, db, trace[0], t, r); }
      MovesArePaid(cfg, d, trace[1..], trace[0].now, r);
    }
  }

  lemma MeasureNonNegative(cfg: Config, db: Db, t: int, r: RunId)
    requires Invariant(db, t)
    ensures 0 <= Measure(cfg, db, r) && 0 <= ClaimsLeft(cfg, db, r)
  {
    hide Numbered, Guarded, Timed, Flow, Recorded, SlotMeasure, SlotClaims;
    forall k: StageKind ensures 0 <= SlotMeasure(cfg, db, r, k) && 0 <= SlotClaims(cfg, db, r, k) {
      SlotBounds(cfg, db, t, r, k);
    }
  }

  /** What the stages of a kind cost: nothing if the run has none. */
  ghost function Cost(db: Db, r: RunId, k: StageKind, cost: int): int { if HasStage(db, r, k) then cost else 0 }

  lemma UnspentSlot(cfg: Config, db: Db, t: int, r: RunId, k: StageKind)
    requires Safe(db, t)
    ensures var a := Allowance(cfg.MaxAttempts(k));
      && SlotClaims(cfg, db, r, k) >= a - Cost(db, r, k, a)
      && 2 * SlotMeasure(cfg, db, r, k) >= 4 * a + 4 - Cost(db, r, k, 4 * a + 4)
  {
    hide Safe, Count, Ahead, HasStage, Allowance;
    SlotBounds(cfg, db, t, r, k);
  }

  /** In any whole history, one run is granted at most the sum of the allowances of the stages it comes to
      have, and moves or ends at most four times that often, four times for each of them, and once. A run
      without C2 analysis never has the two C2 stages. */
  lemma BoundedRuns(cfg: Config, trace: seq<Event>, t: int, r: RunId)
    requires Timely(trace, t)
    ensures var d := Exec(cfg, EMPTY, trace);
      && GrantsIn(cfg, EMPTY, trace, r) <= Over6(k => Cost(d, r, k, Allowance(cfg.MaxAttempts(k))))
      && MovesIn(cfg, EMPTY, trace, r) <= Over6(k => Cost(d, r, k, 4 * Allowance(cfg.MaxAttempts(k)) + 4)) + 1
      && (r in d.runs && !d.runs[r].c2Enabled ==> !HasStage(d, r, C2Analysis) && !HasStage(d, r, C2Adaptation))
  {
    hide SlotMeasure, SlotClaims, GrantsIn, MovesIn, Exec, Numbered, Guarded, Timed, Flow, Recorded, Grows, Configured, Allowance,
      Cost, HasStage, Ended;
    NothingConfigured(cfg, t);
    var d, end := Exec(cfg, EMPTY, trace), EndOf(trace, t);
    RunSound(cfg, EMPTY, trace, t);
    MovesArePaid(cfg, EMPTY, trace, t, r);
    forall k: StageKind
      ensures SlotClaims(cfg, EMPTY, r, k) == Allowance(cfg.MaxAttempts(k)) && SlotMeasure(cfg, EMPTY, r, k) == 2 * Allowance(cfg.MaxAttempts(k)) + 2
      ensures SlotClaims(cfg, d, r, k) >= Allowance(cfg.MaxAttempts(k)) - Cost(d, r, k, Allowance(cfg.MaxAttempts(k)))
      ensures 2 * SlotMeasure(cfg, d, r, k) >= 4 * Allowance(cfg.MaxAttempts(k)) + 4 - Cost(d, r, k, 4 * Allowance(cfg.MaxAttempts(k)) + 4)
    {
      NothingSpent(cfg, r, k);
      UnspentSlot(cfg, d, end, r, k);
    }
    if r in d.runs && !d.runs[r].c2Enabled { NoC2Stages(d, r); }
  }

  lemma NothingConfigured(cfg: Config, t: int)
    ensures Invariant(EMPTY, t) && Configured(cfg, EMPTY)
  {
    hide Invariant;
    EmptySound(t);
  }

  lemma NothingSpent(cfg: Config, r: RunId, k: StageKind)
    ensures SlotClaims(cfg, EMPTY, r, k) == Allowance(cfg.MaxAttempts(k))
    ensures SlotMeasure(cfg, EMPTY, r, k) == 2 * Allowance(cfg.MaxAttempts(k)) + 2
  {
    hide Allowance, Count, Ahead;
    assert Slot(EMPTY, r, k) == None;
  }

  lemma NoC2Stages(d: Db, r: RunId)
    requires Refs(d) && Flow(d) && r in d.runs && !d.runs[r].c2Enabled
    ensures !HasStage(d, r, C2Analysis) && !HasStage(d, r, C2Adaptation)
  {
    hide Produced, Passed;
  }
}
