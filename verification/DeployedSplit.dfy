/** The deployed split: executors claim only the two analysis stages, and the workers do the rest. A
    terminal run then stays terminal with the result it got, and the result has its reason. */
module DeployedSplit {
  import opened Tables
  import opened Handlers
  import opened LeaseSafety
  import opened Workflow
  import opened Protocol
  import opened Locality

  predicate Analysis(k: StageKind) { k.PlatformAnalysis? || k.C2Analysis? }

  ghost predicate SplitScope(cfg: Config) { forall k :: k in cfg.claimable ==> Analysis(k) }

  predicate WorkerState(state: StageState) { state.Queued? || state.Completed? || state.Failed? || state.Cancelled? }

  /** Only analysis stages are ever leased, partial or unsupported. */
  ghost predicate WorkerStages(db: Db) {
    forall s :: s in db.stages && !Analysis(db.stages[s].kind) ==> WorkerState(db.stages[s].state)
  }

  ghost predicate HasPartial(db: Db, r: RunId) {
    exists s :: s in db.stages && db.stages[s].run == r && db.stages[s].state == Partial
  }

  /** Why a terminal run ended the way it did. */
  ghost predicate Explained(db: Db, r: RunId, result: RunResult) {
    match result
    case ResultCompleted => HasStageIn(db, r, ReportGeneration, Completed)
    case ResultPartial =>
      HasStageIn(db, r, C2Analysis, Failed) || (HasStageIn(db, r, ReportGeneration, Completed) && HasPartial(db, r))
    case ResultInconclusive =>
      || HasStageIn(db, r, PlatformAdaptation, Failed) || HasStageIn(db, r, C2Adaptation, Failed)
      || HasStageIn(db, r, ReportGeneration, Completed)
    case ResultFailed => HasStageIn(db, r, PlatformAnalysis, Failed) || HasStageIn(db, r, ReportGeneration, Completed)
    case ResultCancelled => true
    case ResultUnsupported => HasStageIn(db, r, PlatformAnalysis, Unsupported)
  }

  /** A stage a terminal run may still own: a finished one, or the other adaptation of a run that one
      failed adaptation has already ended. */
  predicate AtRest(stage: Stage, result: RunResult) {
    Final(stage.state) || (Adaptation(stage.kind) && stage.state == Queued && result == ResultInconclusive)
  }

  ghost predicate Resting(db: Db, r: RunId, result: RunResult) {
    forall s :: s in db.stages && db.stages[s].run == r ==> AtRest(db.stages[s], result)
  }

  ghost predicate Decided(db: Db, r: RunId)
    requires r in db.runs
  {
    db.runs[r].status == RunTerminal ==>
      && db.runs[r].result.Some?
      && Resting(db, r, db.runs[r].result.value)
      && Explained(db, r, db.runs[r].result.value)
  }

  ghost predicate Undecided(db: Db, r: RunId)
    requires r in db.runs
  {
    db.runs[r].status != RunTerminal ==>
      db.runs[r].result == if HasPartial(db, r) then Some(ResultPartial) else None
  }

  /** A run containing a partial stage never ends completed. */
  ghost predicate PartialShows(db: Db, r: RunId)
    requires r in db.runs
  {
    HasPartial(db, r) ==> db.runs[r].result.Some? && db.runs[r].result != Some(ResultCompleted)
  }

  ghost predicate RunOk(db: Db, r: RunId) {
    r in db.runs && Decided(db, r) && Undecided(db, r) && PartialShows(db, r)
  }

  ghost predicate SplitOk(db: Db) { WorkerStages(db) && forall r :: r in db.runs ==> RunOk(db, r) }

  /** Terminal runs keep their status and result. */
  ghost predicate ResultsKept(db: Db, d: Db) {
    forall r :: r in db.runs && db.runs[r].status == RunTerminal ==> r in d.runs && d.runs[r] == db.runs[r]
  }

  // ---------- upstream stages are done ----------

  function Rank(k: StageKind): nat {
    match k
    case PlatformAnalysis => 0
    case C2Analysis => 1
    case PlatformAdaptation => 2
    case C2Adaptation => 2
    case CaseAggregation => 3
    case ReportGeneration => 4
  }

  lemma {:induction false} UpstreamDone(db: Db, s: StageId, o: StageId)
    requires UniqueKinds(db) && Ordered(db) && s in db.stages && o in db.stages
    requires db.stages[o].run == db.stages[s].run && Rank(db.stages[o].kind) < Rank(db.stages[s].kind)
    ensures Completion(db.stages[o].state)
    decreases Rank(db.stages[s].kind)
  {
    var r := db.stages[s].run;
    assert Reached(db, r, db.stages[s].kind) && Reached(db, r, db.stages[o].kind);
    var p := Predecessor(db, r, db.stages[s].kind, db.stages[o].kind);
    if db.stages[p].kind == db.stages[o].kind {
      assert SameKind(db, p, o);
    } else {
      UpstreamDone(db, p, o);
    }
  }

  /** A finished stage right before kind k, of kind `toward` if that is one of the kinds right before k. */
  lemma Predecessor(db: Db, r: RunId, k: StageKind, toward: StageKind) returns (p: StageId)
    requires Reached(db, r, k) && Reached(db, r, toward) && Rank(toward) < Rank(k)
    ensures p in db.stages && db.stages[p].run == r && Completion(db.stages[p].state)
    ensures Rank(toward) <= Rank(db.stages[p].kind) < Rank(k)
    ensures Rank(toward) == Rank(db.stages[p].kind) ==> db.stages[p].kind == toward
  {
    var want := if k.CaseAggregation? && toward.C2Adaptation? then C2Adaptation else Before(k, db.runs[r].c2Enabled);
    assert Passed(db, r, want);
    var state :| Completion(state) && HasStageIn(db, r, want, state);
    assert HasStageIn(db, r, want, state);
    p :| p in db.stages && StageIs(db, p, r, want, state);
  }

  function Before(k: StageKind, c2Enabled: bool): StageKind {
    match k
    case PlatformAnalysis => PlatformAnalysis
    case C2Analysis => PlatformAnalysis
    case PlatformAdaptation => if c2Enabled then C2Analysis else PlatformAnalysis
    case C2Adaptation => C2Analysis
    case CaseAggregation => PlatformAdaptation
    case ReportGeneration => CaseAggregation
  }

  /** While a stage is not finished, no later one exists; all earlier ones are done. */
  lemma AroundStage(db: Db, s: StageId)
    requires UniqueKinds(db) && Ordered(db) && s in db.stages
    ensures forall o :: o in db.stages && db.stages[o].run == db.stages[s].run && o != s ==>
              || Completion(db.stages[o].state)
              || (Completion(db.stages[s].state) && Rank(db.stages[s].kind) < Rank(db.stages[o].kind))
              || (Adaptation(db.stages[o].kind) && Adaptation(db.stages[s].kind))
  {
    hide Ordered, Completion;
    forall o | o in db.stages && db.stages[o].run == db.stages[s].run && o != s
      ensures || Completion(db.stages[o].state)
              || (Completion(db.stages[s].state) && Rank(db.stages[s].kind) < Rank(db.stages[o].kind))
              || (Adaptation(db.stages[o].kind) && Adaptation(db.stages[s].kind))
    {
      assert !SameKind(db, o, s);
      if Rank(db.stages[o].kind) < Rank(db.stages[s].kind) { UpstreamDone(db, s, o); }
      if Rank(db.stages[s].kind) < Rank(db.stages[o].kind) { UpstreamDone(db, o, s); }
    }
  }

  // ---------- other runs ----------

  lemma FrozenExplained(db: Db, d: Db, r: RunId, result: RunResult)
    requires StagesKept(db, d) && Explained(db, r, result)
    ensures Explained(d, r, result)
  {
    hide HasStageIn, StagesKept;
    forall k, state | Final(state) && HasStageIn(db, r, k, state) ensures HasStageIn(d, r, k, state) {
      StageInKept(db, d, r, k, state);
    }
    if HasPartial(db, r) { PartialKept(db, d, r); }
  }

  lemma PartialKept(db: Db, d: Db, r: RunId)
    requires StagesKept(db, d) && HasPartial(db, r)
    ensures HasPartial(d, r)
  {
    var s :| s in db.stages && db.stages[s].run == r && db.stages[s].state == Partial;
    assert d.stages[s].state == Partial;
  }

  lemma FrozenRunOk(db: Db, d: Db, r: RunId)
    requires RunOk(db, r) && Frozen(db, d, r) && StagesKept(db, d)
    ensures RunOk(d, r)
  {
    hide Explained;
    assert HasPartial(d, r) <==> HasPartial(db, r);
    if db.runs[r].status == RunTerminal { FrozenExplained(db, d, r, db.runs[r].result.value); }
  }

  /** A step that concerns one run keeps the whole when it keeps that run. */
  lemma OneRun(db: Db, d: Db, r: RunId)
    requires SplitOk(db) && Grows(db, d) && WorkerStages(d) && r in d.runs && RunOk(d, r) && d.runs.Keys <= db.runs.Keys + {r}
    requires forall o :: o in db.runs && o != r ==> Frozen(db, d, o)
    requires r in db.runs && db.runs[r].status == RunTerminal ==> d.runs[r] == db.runs[r]
    ensures SplitOk(d) && ResultsKept(db, d)
  {
    hide RunOk, WorkerStages, StagesKept, AttemptsKept, LeasesKept, RunsKept, Spent;
    forall o | o in d.runs ensures RunOk(d, o) {
      if o != r { FrozenRunOk(db, d, o); }
    }
  }

  // ---------- the run a step concerns ----------

  ghost predicate Ok(db: Db, t: int) { Sound(db, t) && SplitOk(db) }

  /** The step from db to d kept the split invariant and every terminal result. */
  ghost predicate Keeps(db: Db, d: Db) { SplitOk(d) && ResultsKept(db, d) }

  /** A stage that waits or works belongs to a run that is not terminal, adaptations apart. */
  lemma NotTerminal(db: Db, s: StageId)
    requires Refs(db) && SplitOk(db) && s in db.stages && !Final(db.stages[s].state)
    requires Adaptation(db.stages[s].kind) ==> db.stages[s].state != Queued
    ensures db.runs[db.stages[s].run].status != RunTerminal
  {
    hide Undecided, PartialShows, Explained;
    assert RunOk(db, db.stages[s].run);
  }

  /** Leased stages are analysis stages of runs that are not terminal. */
  lemma LeasedStage(db: Db, t: int, l: LeaseId)
    requires Ok(db, t) && Live(db, l)
    ensures var s := db.leases[l].stage;
      Analysis(db.stages[s].kind) && Active(db.stages[s].state) && db.runs[db.stages[s].run].status != RunTerminal
  {
    hide Numbered, Timed, Flow, RunOk;
    LiveLease(db, l);
    NotTerminal(db, db.leases[l].stage);
  }

  /** Same stages, except that stage s of the run went to a state that is not partial. */
  ghost predicate OneStage(db: Db, d: Db, s: StageId) {
    && s in db.stages && d.stages.Keys == db.stages.Keys
    && d.stages[s].run == db.stages[s].run && d.stages[s].kind == db.stages[s].kind
    && db.stages[s].state != Partial && d.stages[s].state != Partial
    && (forall o :: o in db.stages && o != s ==> d.stages[o] == db.stages[o])
  }

  lemma SamePartial(db: Db, d: Db, s: StageId, r: RunId)
    requires OneStage(db, d, s)
    ensures HasPartial(d, r) <==> HasPartial(db, r)
  {
    if HasPartial(db, r) {
      var o :| o in db.stages && db.stages[o].run == r && db.stages[o].state == Partial;
      assert d.stages[o].state == Partial;
    }
    if HasPartial(d, r) {
      var o :| o in d.stages && d.stages[o].run == r && d.stages[o].state == Partial;
      assert db.stages[o].state == Partial;
    }
  }

  /** The run goes on: its status is not terminal before or after and its result is the same. */
  lemma GoesOn(db: Db, d: Db, s: StageId, r: RunId)
    requires RunOk(db, r) && OneStage(db, d, s) && r in d.runs && d.runs[r].result == db.runs[r].result
    requires db.runs[r].status != RunTerminal && d.runs[r].status != RunTerminal
    ensures RunOk(d, r)
  {
    hide Explained, Resting, HasPartial;
    SamePartial(db, d, s, r);
  }

  lemma EndsTerminal(d: Db, r: RunId, result: RunResult)
    requires r in d.runs && d.runs[r].status == RunTerminal && d.runs[r].result == Some(result)
    requires Resting(d, r, result) && Explained(d, r, result) && (HasPartial(d, r) ==> result != ResultCompleted)
    ensures RunOk(d, r)
  {
    hide Explained, Resting, HasPartial;
  }

  lemma FailRunOk(db: Db, l: LeaseId, now: int, ended: AttemptState, t: int)
    requires Ok(db, t) && Live(db, l)
    ensures var stage := db.stages[db.leases[l].stage];
      RunOk(SetRun(EndLease(db, l, now, ended, Failed, Unscheduled(db, l)),
                   stage.run, RunTerminal, Some(FailureResult(stage.kind))), stage.run)
  {
    hide Numbered, Guarded, Timed, Ordered, Unstarted, CancelledFinal, UniqueKinds, SplitOk;
    var s := db.leases[l].stage;
    var stage := db.stages[s];
    var d := SetRun(EndLease(db, l, now, ended, Failed, Unscheduled(db, l)),
                    stage.run, RunTerminal, Some(FailureResult(stage.kind)));
    LeasedStage(db, t, l);
    AroundStage(db, s);
    assert StageIs(d, s, stage.run, stage.kind, Failed);
    EndsTerminal(d, stage.run, FailureResult(stage.kind));
  }

  lemma FinishCancellationOk(db: Db, d: Db, l: LeaseId, now: int, t: int)
    requires Ok(db, t) && Live(db, l)
    requires d == EndLease(db, l, now, AttemptCancelled, Cancelled, Unscheduled(db, l))
    ensures RunOk(FinishCancellation(d, RunOf(db, l), db.leases[l].stage), RunOf(db, l))
  {
    hide Numbered, Guarded, Timed, Flow, WorkerStages, Decided, Undecided, PartialShows, OtherActive;
    var s, r := db.leases[l].stage, RunOf(db, l);
    LeasedStage(db, t, l);
    if OtherActive(d, r, s) {
      GoesOn(db, d, s, r);
    } else {
      LastIsResting(d, r, s);
      EndsTerminal(FinishCancellation(d, r, s), r, ResultCancelled);
    }
  }

  lemma LastIsResting(d: Db, r: RunId, s: StageId)
    requires Refs(d) && r in d.runs && s in d.stages && Final(d.stages[s].state) && !OtherActive(d, r, s)
    ensures Resting(FinishCancellation(d, r, s), r, ResultCancelled)
  {}

  lemma ExpireAttemptOk(db: Db, l: LeaseId, now: int, t: int)
    requires Ok(db, t) && t <= now && Live(db, l)
    ensures RunOk(ExpireAttempt(db, l, now), RunOf(db, l))
  {
    hide Numbered, Guarded, Timed, Flow, WorkerStages, Decided, Undecided, PartialShows, FinishCancellation, Count;
    var s, r := db.leases[l].stage, RunOf(db, l);
    LeasedStage(db, t, l);
    if db.runs[r].status == RunCancelling {
      FinishCancellationOk(db, EndLease(db, l, now, AttemptCancelled, Cancelled, Unscheduled(db, l)), l, now, t);
    } else if Count(db, s) < db.stages[s].maxAttempts {
      GoesOn(db, ExpireAttempt(db, l, now), s, r);
    } else {
      FailRunOk(db, l, now, AttemptExpired, t);
    }
  }

  /** Lease ends only concern analysis stages. */
  lemma WorkersKept(db: Db, d: Db)
    requires WorkerStages(db) && StagesKept(db, d)
    requires forall s :: s in d.stages && !Analysis(d.stages[s].kind) ==>
               if s in db.stages
               then d.stages[s].state == db.stages[s].state || d.stages[s].state == Cancelled
               else d.stages[s].state == Queued
    ensures WorkerStages(d)
  {}

  lemma ExpireAttemptWorkers(db: Db, l: LeaseId, now: int, t: int)
    requires Ok(db, t) && Live(db, l)
    ensures WorkerStages(ExpireAttempt(db, l, now)) && ExpireAttempt(db, l, now).runs.Keys == db.runs.Keys
  {
    hide Numbered, Guarded, Timed, Flow, RunOk, OtherActive, Count;
    LeasedStage(db, t, l);
  }

  lemma ExpireAttemptKeeps(db: Db, l: LeaseId, now: int, t: int)
    requires Ok(db, t) && t <= now && Live(db, l)
    ensures Keeps(db, ExpireAttempt(db, l, now))
  {
    hide Numbered, Guarded, Timed, Flow, WorkerStages, RunOk, Frozen, Grows, ExpireAttempt;
    var d := ExpireAttempt(db, l, now);
    ExpireAttemptSound(db, l, now, t);
    ExpireAttemptWorkers(db, l, now, t);
    ExpireAttemptOk(db, l, now, t);
    LeasedStage(db, t, l);
    forall o | o in db.runs && o != RunOf(db, l) ensures Frozen(db, d, o) { ExpireAttemptLocal(db, l, now, o); }
    OneRun(db, d, RunOf(db, l));
  }

  lemma KeepsThrough(a: Db, b: Db, c: Db)
    requires Keeps(a, b) && Keeps(b, c)
    ensures Keeps(a, c)
  {
    hide SplitOk;
  }

  lemma {:induction false} SweepKeeps(db: Db, order: seq<LeaseId>, now: int, t: int)
    requires Ok(db, t) && t <= now
    ensures Keeps(db, Sweep(db, order, now))
    decreases |order|
  {
    hide Numbered, Guarded, Timed, Flow, SplitOk, Grows, ExpireAttempt, Overdue;
    if order != [] {
      var d := SweepOne(db, order[0], now);
      SoundLater(db, now, t);
      if Live(db, order[0]) && Overdue(db, order[0], now) {
        ExpireAttemptKeeps(db, order[0], now, t);
        ExpireAttemptSound(db, order[0], now, t);
      }
      SweepKeeps(d, order[1..], now, now);
      KeepsThrough(db, d, Sweep(d, order[1..], now));
    }
  }

  lemma GrantKeeps(cfg: Config, db: Db, g: GrantIds, now: int, t: int)
    requires Ok(db, t) && t <= now && SplitScope(cfg) && Grantable(cfg, db, g, now)
    ensures var r := db.stages[g.stage].run;
      var d := SetRun(Grant(cfg, db, g, now), r, RunRunning, db.runs[r].result);
      RunOk(d, r) && WorkerStages(d) && db.runs[r].status != RunTerminal
  {
    hide Numbered, Guarded, Timed, Flow, Decided, Undecided, PartialShows, Count;
    var r := db.stages[g.stage].run;
    var d := SetRun(Grant(cfg, db, g, now), r, RunRunning, db.runs[r].result);
    NotTerminal(db, g.stage);
    GoesOn(db, d, g.stage, r);
  }

  lemma ClaimKeeps(cfg: Config, db: Db, order: seq<LeaseId>, pick: Option<GrantIds>, now: int, t: int)
    requires Ok(db, t) && t <= now && SplitScope(cfg)
    ensures Keeps(db, Claim(cfg, db, order, pick, now))
  {
    hide Numbered, Guarded, Timed, Flow, SplitOk, SplitScope, Grows, Sweep, Count, Frozen, RunOk, WorkerStages, ResultsKept, SameCounts;
    SweepKeeps(db, order, now, t);
    SweepSound(db, order, now, t);
    var mid := Sweep(db, order, now);
    if pick.Some? && Grantable(cfg, mid, pick.value, now) {
      var g := pick.value;
      var r := mid.stages[g.stage].run;
      var granted := Grant(cfg, mid, g, now);
      var d := SetRun(granted, r, RunRunning, mid.runs[r].result);
      GrantKeeps(cfg, mid, g, now, now);
      GrantSound(cfg, mid, g, now, now);
      SetRunSound(granted, r, RunRunning, mid.runs[r].result, now, now);
      GrowsThrough(mid, granted, d);
      forall o | o in mid.runs && o != r ensures Frozen(mid, d, o) { GrantLocal(cfg, mid, g, now, o); }
      OneRun(mid, d, r);
      KeepsThrough(db, mid, d);
    }
  }

  lemma GrantLocal(cfg: Config, db: Db, g: GrantIds, now: int, r: RunId)
    requires Refs(db) && Grantable(cfg, db, g, now) && r != db.stages[g.stage].run
    ensures var o := db.stages[g.stage].run;
      Frozen(db, SetRun(Grant(cfg, db, g, now), o, RunRunning, db.runs[o].result), r)
  {
    hide Count;
  }

  // ---------- executor mutations ----------

  /** A finished analysis stage: the run goes on, with a stage queued next, unless it was unsupported. */
  lemma CompleteOk(cfg: Config, db: Db, l: LeaseId, outcome: StageState, ids: Fresh, now: int, t: int)
    requires Ok(db, t) && Live(db, l) && Completion(outcome) && Unused(db, ids)
    ensures var d := Complete(cfg, db, l, outcome, ids, now).0;
      RunOk(d, RunOf(db, l)) && WorkerStages(d) && d.runs.Keys == db.runs.Keys
  {
    hide Numbered, Guarded, Timed, Flow, RunOk, Advance, HasStage;
    var s, r := db.leases[l].stage, RunOf(db, l);
    LeasedStage(db, t, l);
    var ended := EndLease(db, l, now, AttemptCompleted, outcome, Unscheduled(db, l));
    assert WorkerStages(ended);
    if outcome.Unsupported? && db.stages[s].kind.PlatformAnalysis? {
      UnsupportedOk(db, l, now, t);
    } else {
      CompletedOk(db, l, outcome, now, t);
      var e := if outcome.Partial? then SetRun(ended, r, db.runs[r].status, Some(ResultPartial)) else ended;
      assert WorkerStages(e);
      AdvanceAnalysisOk(cfg, e, s, ids);
    }
  }

  lemma UnsupportedOk(db: Db, l: LeaseId, now: int, t: int)
    requires Ok(db, t) && Live(db, l) && db.stages[db.leases[l].stage].kind.PlatformAnalysis?
    ensures RunOk(SetRun(EndLease(db, l, now, AttemptCompleted, Unsupported, Unscheduled(db, l)),
                         RunOf(db, l), RunTerminal, Some(ResultUnsupported)), RunOf(db, l))
  {
    hide Numbered, Guarded, Timed, Ordered, Unstarted, CancelledFinal, UniqueKinds, SplitOk, HasPartial;
    var s, r := db.leases[l].stage, RunOf(db, l);
    var d := SetRun(EndLease(db, l, now, AttemptCompleted, Unsupported, Unscheduled(db, l)), r, RunTerminal, Some(ResultUnsupported));
    LeasedStage(db, t, l);
    AroundStage(db, s);
    assert StageIs(d, s, r, PlatformAnalysis, Unsupported);
    EndsTerminal(d, r, ResultUnsupported);
  }

  lemma CompletedOk(db: Db, l: LeaseId, outcome: StageState, now: int, t: int)
    requires Ok(db, t) && Live(db, l) && Completion(outcome)
    ensures var r := RunOf(db, l);
      var ended := EndLease(db, l, now, AttemptCompleted, outcome, Unscheduled(db, l));
      var e := if outcome.Partial? then SetRun(ended, r, db.runs[r].status, Some(ResultPartial)) else ended;
      RunOk(e, r) && e.runs[r].status != RunTerminal
  {
    hide Numbered, Guarded, Timed, Flow, WorkerStages, Resting, Explained, HasPartial;
    var s, r := db.leases[l].stage, RunOf(db, l);
    LeasedStage(db, t, l);
    var ended := EndLease(db, l, now, AttemptCompleted, outcome, Unscheduled(db, l));
    if outcome.Partial? {
      PartialNow(ended, s);
    } else {
      SamePartial(db, ended, s, r);
    }
    PartialStages(ended, SetRun(ended, r, db.runs[r].status, Some(ResultPartial)), r);
  }

  lemma PartialNow(d: Db, s: StageId)
    requires s in d.stages && d.stages[s].state == Partial
    ensures HasPartial(d, d.stages[s].run)
  {}

  lemma PartialStages(a: Db, b: Db, r: RunId)
    requires a.stages == b.stages
    ensures HasPartial(a, r) <==> HasPartial(b, r)
  {}

  /** A new queued stage does not disturb a run that is not terminal. */
  lemma QueuedStageOk(cfg: Config, db: Db, id: StageId, r: RunId, k: StageKind)
    requires Refs(db) && WorkerStages(db) && id !in db.stages && r in db.runs && RunOk(db, r)
    requires db.runs[r].status != RunTerminal
    ensures var d := AddStage(cfg, db, id, r, k); WorkerStages(d) && RunOk(d, r) && d.runs == db.runs
  {
    hide Resting, Explained, HasPartial;
    QueuedPartial(cfg, db, id, r, k);
  }

  lemma QueuedPartial(cfg: Config, db: Db, id: StageId, r: RunId, k: StageKind)
    requires Refs(db) && id !in db.stages && r in db.runs
    ensures HasPartial(AddStage(cfg, db, id, r, k), r) <==> HasPartial(db, r)
  {
    var d := AddStage(cfg, db, id, r, k);
    if HasPartial(db, r) {
      var s :| s in db.stages && db.stages[s].run == r && db.stages[s].state == Partial;
      assert d.stages[s].state == Partial;
    }
  }

  lemma CreateNextOk(cfg: Config, db: Db, id: StageId, r: RunId, k: StageKind)
    requires Refs(db) && WorkerStages(db) && id !in db.stages && r in db.runs && RunOk(db, r)
    requires db.runs[r].status != RunTerminal
    ensures var d := CreateNext(cfg, db, id, r, k); WorkerStages(d) && RunOk(d, r) && d.runs == db.runs
  {
    hide WorkerStages, RunOk, HasStage;
    if !HasStage(db, r, k) { QueuedStageOk(cfg, db, id, r, k); }
  }

  lemma AdvanceAnalysisOk(cfg: Config, db: Db, s: StageId, ids: Fresh)
    requires Refs(db) && WorkerStages(db) && s in db.stages && Analysis(db.stages[s].kind) && Unused(db, ids)
    requires RunOk(db, db.stages[s].run) && db.runs[db.stages[s].run].status != RunTerminal
    ensures var d := Advance(cfg, db, s, ids); WorkerStages(d) && RunOk(d, db.stages[s].run) && d.runs.Keys == db.runs.Keys
  {
    hide WorkerStages, RunOk, HasStage, CreateNext;
    var r := db.stages[s].run;
    CreateNextOk(cfg, db, ids.first, r, C2Analysis);
    CreateNextOk(cfg, db, ids.first, r, PlatformAdaptation);
    CreateNextStages(cfg, db, ids.first, r, PlatformAdaptation);
    CreateNextOk(cfg, CreateNext(cfg, db, ids.first, r, PlatformAdaptation), ids.second, r, C2Adaptation);
  }

  lemma FailOk(db: Db, l: LeaseId, retryable: bool, now: int, t: int)
    requires Ok(db, t) && Live(db, l)
    ensures var d := Fail(db, l, retryable, now).0;
      RunOk(d, RunOf(db, l)) && WorkerStages(d) && d.runs.Keys == db.runs.Keys
  {
    hide Numbered, Guarded, Timed, Flow, RunOk, Count;
    var s, r := db.leases[l].stage, RunOf(db, l);
    LeasedStage(db, t, l);
    if retryable && Count(db, s) < db.stages[s].maxAttempts {
      GoesOn(db, Fail(db, l, retryable, now).0, s, r);
    } else {
      FailRunOk(db, l, now, AttemptFailed, t);
    }
  }

  lemma AcknowledgeOk(db: Db, l: LeaseId, now: int, t: int)
    requires Ok(db, t) && Live(db, l)
    ensures var d := Acknowledge(db, l, now).0;
      RunOk(d, RunOf(db, l)) && WorkerStages(d) && d.runs.Keys == db.runs.Keys
  {
    hide Numbered, Guarded, Timed, Flow, RunOk, OtherActive;
    LeasedStage(db, t, l);
    FinishCancellationOk(db, EndLease(db, l, now, AttemptCancelled, Cancelled, Unscheduled(db, l)), l, now, t);
  }

  lemma HeartbeatOk(cfg: Config, db: Db, l: LeaseId, now: int, t: int)
    requires Ok(db, t) && t <= now && Live(db, l)
    ensures var d := Heartbeat(cfg, db, l, now).0;
      RunOk(d, RunOf(db, l)) && WorkerStages(d) && d.runs.Keys == db.runs.Keys
  {
    hide Numbered, Guarded, Timed, Flow, RunOk, ExpireAttempt;
    var s, r := db.leases[l].stage, RunOf(db, l);
    LeasedStage(db, t, l);
    ExpireAttemptOk(db, l, now, t);
    ExpireAttemptWorkers(db, l, now, t);
    GoesOn(db, Touch(cfg, db, l, now, false), s, r);
    GoesOn(db, Touch(cfg, db, l, now, true), s, r);
  }

  lemma PerformOk(cfg: Config, db: Db, q: Request, ids: Fresh, other: OtherOutcome, now: int, t: int)
    requires Ok(db, t) && t <= now && q.message.lease in db.leases && Unused(db, ids)
    requires !q.message.call.OtherCall? && Live(db, q.message.lease)
    ensures var d := Perform(cfg, db, q, ids, other, now).0;
      RunOk(d, RunOf(db, q.message.lease)) && WorkerStages(d) && d.runs.Keys == db.runs.Keys
  {
    hide Numbered, Guarded, Timed, Flow, RunOk, Heartbeat, Complete, Fail, Acknowledge;
    var l := q.message.lease;
    match q.message.call
    case HeartbeatCall => HeartbeatOk(cfg, db, l, now, t);
    case CompleteCall(outcome) =>
      if outcome.Some? && Completion(outcome.value) { CompleteOk(cfg, db, l, outcome.value, ids, now, t); }
    case FailCall(retryable) => FailOk(db, l, retryable, now, t);
    case AckCall => AcknowledgeOk(db, l, now, t);
  }

  lemma PerformKeeps(cfg: Config, db: Db, q: Request, ids: Fresh, other: OtherOutcome, now: int, t: int)
    requires Ok(db, t) && t <= now && q.message.lease in db.leases && Unused(db, ids)
    requires !q.message.call.OtherCall? ==> Live(db, q.message.lease)
    ensures Keeps(db, Perform(cfg, db, q, ids, other, now).0)
  {
    hide Numbered, Guarded, Timed, Flow, WorkerStages, RunOk, Perform, Frozen, Grows;
    if q.message.call.OtherCall? {
      OtherCallInert(cfg, db, q, ids, other, now);
    } else {
      var d := Perform(cfg, db, q, ids, other, now).0;
      PerformOk(cfg, db, q, ids, other, now, t);
      PerformSound(cfg, db, q, ids, other, now, t);
      LeasedStage(db, t, q.message.lease);
      forall o | o in db.runs && o != RunOf(db, q.message.lease) ensures Frozen(db, d, o) {
        PerformLocal(cfg, db, q, ids, other, now, o);
      }
      OneRun(db, d, RunOf(db, q.message.lease));
    }
  }

  lemma OtherCallInert(cfg: Config, db: Db, q: Request, ids: Fresh, other: OtherOutcome, now: int)
    requires Refs(db) && q.message.lease in db.leases && Unused(db, ids) && q.message.call.OtherCall?
    ensures Perform(cfg, db, q, ids, other, now).0 == db
  {}

  lemma MutateKeeps(cfg: Config, db: Db, q: Request, signed: bool, ids: Fresh, other: OtherOutcome, now: int, t: int)
    requires Ok(db, t) && t <= now && Recorded(db) && Unused(db, ids)
    ensures Keeps(db, Mutate(cfg, db, q, signed, ids, other, now).0)
  {
    hide Numbered, Guarded, Timed, Flow, SplitOk, Perform, Mutate, Recorded;
    MutateReaches(cfg, db, q, signed, ids, other, now);
    var d := Mutate(cfg, db, q, signed, ids, other, now).0;
    if d != db {
      PerformKeeps(cfg, db, q, ids, other, now, t);
      SplitRecords(Perform(cfg, db, q, ids, other, now).0, d.requests);
    }
  }

  lemma SplitRecords(db: Db, requests: map<(ExecutorId, nat), Record>)
    requires SplitOk(db)
    ensures SplitOk(db.(requests := requests))
  {
    var d := db.(requests := requests);
    forall r | r in d.runs ensures RunOk(d, r) {
      FrozenRunOk(db, d, r);
    }
  }

  // ---------- users and workers ----------

  lemma SubmitKeeps(cfg: Config, db: Db, r: RunId, c2: bool, awaiting: bool, id: StageId, now: int, t: int)
    requires Ok(db, t) && t <= now && r !in db.runs && id !in db.stages
    ensures Keeps(db, Submit(cfg, db, r, c2, awaiting, id))
  {
    hide Numbered, Guarded, Timed, Flow, Grows, Frozen, Explained, Resting;
    var d := Submit(cfg, db, r, c2, awaiting, id);
    SubmitSound(cfg, db, r, c2, awaiting, id, now, t);
    assert !HasPartial(d, r);
    forall o | o in db.runs && o != r ensures Frozen(db, d, o) { SubmitLocal(cfg, db, r, c2, awaiting, id, o); }
    OneRun(db, d, r);
  }

  lemma SubmitLocal(cfg: Config, db: Db, r: RunId, c2: bool, awaiting: bool, id: StageId, o: RunId)
    requires Refs(db) && r !in db.runs && id !in db.stages && o != r
    ensures Frozen(db, Submit(cfg, db, r, c2, awaiting, id), o)
  {}

  lemma ConfirmKeeps(cfg: Config, db: Db, r: RunId, id: StageId, now: int, t: int)
    requires Ok(db, t) && t <= now && r in db.runs && id !in db.stages
    ensures Keeps(db, Confirm(cfg, db, r, id))
  {
    hide Numbered, Guarded, Timed, Flow, Grows, Frozen, Explained, Resting, HasPartial;
    if db.runs[r].status == RunAwaiting {
      var e := SetRun(db, r, RunQueued, db.runs[r].result);
      var d := Confirm(cfg, db, r, id);
      ConfirmSound(cfg, db, r, id, now, t);
      PartialStages(db, e, r);
      QueuedStageOk(cfg, e, id, r, PlatformAnalysis);
      forall o | o in db.runs && o != r ensures Frozen(db, d, o) { ConfirmLocal(cfg, db, r, id, o); }
      OneRun(db, d, r);
    }
  }

  lemma ConfirmLocal(cfg: Config, db: Db, r: RunId, id: StageId, o: RunId)
    requires Refs(db) && r in db.runs && id !in db.stages && o != r
    ensures Frozen(db, Confirm(cfg, db, r, id), o)
  {}

  lemma CancelRunOk(db: Db, r: RunId)
    requires Refs(db) && SplitOk(db) && r in db.runs && db.runs[r].status != RunTerminal
    ensures RunOk(Cancel(db, r), r) && WorkerStages(Cancel(db, r)) && Cancel(db, r).runs.Keys == db.runs.Keys
  {
    hide Explained, SomeActive;
    var d := Cancel(db, r);
    assert HasPartial(d, r) <==> HasPartial(db, r) by { CancelPartial(db, r); }
    if !SomeActive(db, r) { CancelRests(db, r); assert Explained(d, r, ResultCancelled) by { CancelExplained(d, r); } }
  }

  lemma CancelExplained(d: Db, r: RunId)
    ensures Explained(d, r, ResultCancelled)
  {}

  lemma CancelPartial(db: Db, r: RunId)
    requires Refs(db) && r in db.runs
    ensures HasPartial(Cancel(db, r), r) <==> HasPartial(db, r)
  {
    hide SomeActive;
    var d := Cancel(db, r);
    if HasPartial(db, r) {
      var s :| s in db.stages && db.stages[s].run == r && db.stages[s].state == Partial;
      assert d.stages[s].state == Partial;
    }
  }

  lemma CancelRests(db: Db, r: RunId)
    requires Refs(db) && r in db.runs && db.runs[r].status != RunTerminal && !SomeActive(db, r)
    ensures Resting(Cancel(db, r), r, ResultCancelled)
  {}

  lemma CancelLocal(db: Db, r: RunId, o: RunId)
    requires Refs(db) && r in db.runs && o != r
    ensures Frozen(db, Cancel(db, r), o)
  {
    hide SomeActive;
  }

  lemma CancelKeeps(db: Db, r: RunId, now: int, t: int)
    requires Ok(db, t) && t <= now && r in db.runs
    ensures Keeps(db, Cancel(db, r))
  {
    hide Numbered, Guarded, Timed, Flow, Grows, Frozen, RunOk, WorkerStages, SomeActive, CancelPending;
    if db.runs[r].status != RunTerminal {
      CancelSound(db, r, now, t);
      CancelRunOk(db, r);
      forall o | o in db.runs && o != r ensures Frozen(db, Cancel(db, r), o) { CancelLocal(db, r, o); }
      OneRun(db, Cancel(db, r), r);
    }
  }

  /** A run with an adaptation that is not completed has nothing beyond its adaptations, and its analysis
      is done. */
  lemma AdaptationRests(db: Db, t: int, s: StageId)
    requires Ok(db, t) && s in db.stages && Adaptation(db.stages[s].kind) && db.stages[s].state != Completed
    ensures forall o :: o in db.stages && db.stages[o].run == db.stages[s].run && o != s ==>
              AtRest(db.stages[o], ResultInconclusive)
  {
    hide Numbered, Guarded, Timed, Ordered, UniqueKinds, RunOk;
    AroundStage(db, s);
  }

  lemma AdaptFailedOk(db: Db, s: StageId, t: int)
    requires Ok(db, t) && s in db.stages && Adaptation(db.stages[s].kind) && db.stages[s].state == Queued
    ensures RunOk(Adapt(db, s, AdaptFailed), db.stages[s].run)
  {
    hide Numbered, Guarded, Timed, Flow, HasPartial, WorkerStages, RunOk;
    var r, d := db.stages[s].run, Adapt(db, s, AdaptFailed);
    AdaptationRests(db, t, s);
    assert StageIs(d, s, r, db.stages[s].kind, Failed);
    EndsTerminal(d, r, ResultInconclusive);
  }

  /** A terminal run with a queued adaptation was ended inconclusive, and stays so. */
  lemma AdaptEndedOk(db: Db, s: StageId, state: StageState)
    requires Refs(db) && SplitOk(db) && s in db.stages && Adaptation(db.stages[s].kind) && db.stages[s].state == Queued
    requires (state == Completed || state == Failed) && db.runs[db.stages[s].run].status == RunTerminal
    ensures RunOk(SetStage(db, s, state), db.stages[s].run)
    ensures db.runs[db.stages[s].run].result == Some(ResultInconclusive)
  {
    hide HasPartial, Explained, WorkerStages;
    var r, d := db.stages[s].run, SetStage(db, s, state);
    assert RunOk(db, r);
    AdaptExplained(db, d, s, r);
    EndsTerminal(d, r, ResultInconclusive);
  }

  lemma AdaptOk(db: Db, s: StageId, outcome: AdaptOutcome, t: int)
    requires Ok(db, t) && s in db.stages && Adaptation(db.stages[s].kind) && db.stages[s].state == Queued
    ensures var r, d := db.stages[s].run, Adapt(db, s, outcome);
      && RunOk(d, r) && WorkerStages(d) && d.runs.Keys == db.runs.Keys
      && (db.runs[r].status == RunTerminal ==> d.runs[r] == db.runs[r])
  {
    hide Numbered, Guarded, Timed, Flow, RunOk;
    var r, d := db.stages[s].run, Adapt(db, s, outcome);
    AdaptFailedOk(db, s, t);
    if db.runs[r].status == RunTerminal {
      AdaptEndedOk(db, s, Completed);
      AdaptEndedOk(db, s, Failed);
    } else if !outcome.AdaptFailed? {
      GoesOn(db, d, s, r);
    }
  }

  lemma AdaptExplained(db: Db, d: Db, s: StageId, r: RunId)
    requires OneStage(db, d, s) && !Final(db.stages[s].state) && Explained(db, r, ResultInconclusive)
    ensures Explained(d, r, ResultInconclusive)
  {
    forall k, state | Final(state) && HasStageIn(db, r, k, state) ensures HasStageIn(d, r, k, state) {
      var o :| o in db.stages && StageIs(db, o, r, k, state);
      assert StageIs(d, o, r, k, state);
    }
  }

  lemma AdaptKeeps(db: Db, s: StageId, outcome: AdaptOutcome, now: int, t: int)
    requires Ok(db, t) && t <= now
    ensures Keeps(db, Adapt(db, s, outcome))
  {
    hide Numbered, Guarded, Timed, Flow, Grows, Frozen, RunOk, WorkerStages;
    var d := Adapt(db, s, outcome);
    if s in db.stages && Adaptation(db.stages[s].kind) && db.stages[s].state == Queued {
      AdaptSound(db, s, outcome, now, t);
      AdaptOk(db, s, outcome, t);
      forall o | o in db.runs && o != db.stages[s].run ensures Frozen(db, d, o) { AdaptLocal(db, s, outcome, o); }
      OneRun(db, d, db.stages[s].run);
    }
  }

  lemma AdoptOrphanKeeps(db: Db, r: RunId, now: int, t: int)
    requires Ok(db, t) && t <= now
    ensures Keeps(db, AdoptOrphan(db, r))
  {
    hide Numbered, Guarded, Timed, Flow, Grows, Frozen, HasPartial;
    if Orphaned(db, r) {
      var d := AdoptOrphan(db, r);
      AdoptOrphanSound(db, r, now, t);
      var s :| s in db.stages && db.stages[s].run == r && Adaptation(db.stages[s].kind) && db.stages[s].state == Failed;
      AdaptationRests(db, t, s);
      assert StageIs(d, s, r, db.stages[s].kind, Failed);
      EndsTerminal(d, r, ResultInconclusive);
      forall o | o in db.runs && o != r ensures Frozen(db, d, o) {
        SetRunLocal(db, r, RunTerminal, Some(ResultInconclusive), o);
      }
      OneRun(db, d, r);
    }
  }

  lemma EnsureAggregationKeeps(cfg: Config, db: Db, r: RunId, id: StageId, now: int, t: int)
    requires Ok(db, t) && t <= now
    ensures Keeps(db, EnsureAggregation(cfg, db, r, id))
  {
    hide Numbered, Guarded, Timed, Flow, Grows, Frozen, RunOk, WorkerStages, HasStage, HasStageIn;
    var d := EnsureAggregation(cfg, db, r, id);
    if d != db {
      EnsureAggregationSound(cfg, db, r, id, now, t);
      QueuedStageOk(cfg, db, id, r, CaseAggregation);
      forall o | o in db.runs && o != r ensures Frozen(db, d, o) { AddStageLocal(cfg, db, id, r, CaseAggregation, o); }
      OneRun(db, d, r);
    }
  }

  lemma AddStageLocal(cfg: Config, db: Db, id: StageId, r: RunId, k: StageKind, o: RunId)
    requires Refs(db) && r in db.runs && id !in db.stages && o != r
    ensures Frozen(db, AddStage(cfg, db, id, r, k), o)
  {}

  lemma {:induction false} EnsureAllKeeps(cfg: Config, db: Db, ready: seq<(RunId, StageId)>, now: int, t: int)
    requires Ok(db, t) && t <= now
    ensures Keeps(db, EnsureAll(cfg, db, ready))
    decreases |ready|
  {
    hide Numbered, Guarded, Timed, Flow, Grows, SplitOk, EnsureAggregation;
    if ready != [] {
      var d := EnsureAggregation(cfg, db, ready[0].0, ready[0].1);
      EnsureAggregationKeeps(cfg, db, ready[0].0, ready[0].1, now, t);
      EnsureAggregationSound(cfg, db, ready[0].0, ready[0].1, now, t);
      EnsureAllKeeps(cfg, d, ready[1..], now, now);
      KeepsThrough(db, d, EnsureAll(cfg, d, ready[1..]));
    }
  }

  lemma FinishReportOk(cfg: Config, db: Db, s: StageId, verdict: Verdict, id: StageId, t: int)
    requires Ok(db, t) && Reportable(db, s)
    ensures var r, d := db.stages[s].run, FinishReport(cfg, db, s, verdict, id);
      RunOk(d, r) && WorkerStages(d) && d.runs.Keys == db.runs.Keys && db.runs[r].status != RunTerminal
  {
    hide Numbered, Guarded, Timed, Ordered, UniqueKinds, Unstarted, CancelledFinal, HasPartial, CreateNext, Resting, Explained;
    var r, done := db.stages[s].run, SetStage(db, s, Completed);
    assert RunOk(db, r);
    NotTerminal(db, s);
    SamePartial(db, done, s, r);
    if db.stages[s].kind.CaseAggregation? {
      if id !in db.stages { CreateNextOk(cfg, done, id, r, ReportGeneration); }
    } else {
      var result := ReportResult(db.runs[r].result, verdict);
      var d := SetRun(done, r, RunTerminal, Some(result));
      PartialStages(done, d, r);
      ReportRests(db, d, s, result);
      EndsTerminal(d, r, result);
    }
  }

  lemma ReportRests(db: Db, d: Db, s: StageId, result: RunResult)
    requires UniqueKinds(db) && Ordered(db) && s in db.stages && db.stages[s].kind.ReportGeneration?
    requires d.stages == db.stages[s := db.stages[s].(state := Completed)]
    requires result == ResultPartial ==> HasPartial(d, db.stages[s].run)
    requires result != ResultCancelled && result != ResultUnsupported
    ensures Resting(d, db.stages[s].run, result) && Explained(d, db.stages[s].run, result)
  {
    hide Ordered, UniqueKinds, HasPartial;
    AroundStage(db, s);
    assert StageIs(d, s, db.stages[s].run, ReportGeneration, Completed);
  }

  lemma FinishReportKeeps(cfg: Config, db: Db, s: StageId, verdict: Verdict, id: StageId, now: int)
    requires Ok(db, now) && Reportable(db, s)
    ensures Keeps(db, FinishReport(cfg, db, s, verdict, id))
  {
    hide Numbered, Guarded, Timed, Flow, Grows, Frozen, RunOk, WorkerStages, FinishReport;
    var d := FinishReport(cfg, db, s, verdict, id);
    FinishReportSound(cfg, db, s, verdict, id, now);
    FinishReportOk(cfg, db, s, verdict, id, now);
    forall o | o in db.runs && o != db.stages[s].run ensures Frozen(db, d, o) { FinishReportLocal(cfg, db, s, verdict, id, o); }
    OneRun(db, d, db.stages[s].run);
  }

  lemma ReportRaisedKeeps(db: Db, s: StageId, now: int, t: int)
    requires Ok(db, t) && t <= now && Reportable(db, s)
    ensures Keeps(db, SetStage(db, s, Failed))
  {
    hide Numbered, Guarded, Timed, Flow, Grows, Frozen, Decided, Undecided, PartialShows;
    var r, d := db.stages[s].run, SetStage(db, s, Failed);
    NotTerminal(db, s);
    SetStageSound(db, s, Failed, now, t);
    GoesOn(db, d, s, r);
    forall o | o in db.runs && o != r ensures Frozen(db, d, o) { SetStageLocal(db, s, Failed, o); }
    OneRun(db, d, r);
  }

  lemma ReportKeeps(cfg: Config, db: Db, ready: seq<(RunId, StageId)>, s: StageId, outcome: ReportOutcome, id: StageId, now: int, t: int)
    requires Ok(db, t) && t <= now
    ensures Keeps(db, Report(cfg, db, ready, s, outcome, id))
  {
    hide Numbered, Guarded, Timed, Flow, Grows, SplitOk, EnsureAll, FinishReport;
    EnsureAllKeeps(cfg, db, ready, now, t);
    EnsureAllSound(cfg, db, ready, now, t);
    var d := EnsureAll(cfg, db, ready);
    if Reportable(d, s) {
      if outcome.ReportDone? {
        FinishReportKeeps(cfg, d, s, outcome.verdict, id, now);
        KeepsThrough(db, d, FinishReport(cfg, d, s, outcome.verdict, id));
      } else if s in db.stages {
        EnsureAllOldStages(cfg, db, ready, s);
        ReportRaisedKeeps(db, s, now, t);
      }
    }
  }

  // ---------- any step, any run ----------

  lemma StepKeeps(cfg: Config, db: Db, act: Action, now: int, t: int)
    requires SplitScope(cfg) && Invariant(db, t) && SplitOk(db) && t <= now
    ensures Keeps(db, Step(cfg, db, act, now))
  {
    hide Numbered, Guarded, Timed, Flow, Grows, SplitOk, SplitScope, Recorded;
    hide Submit, Confirm, Cancel, Sweep, Claim, Mutate, Report, Adapt, AdoptOrphan;
    match act
    case SubmitRun(r, c2, awaiting, id) =>
      if !(r in db.runs || id in db.stages) { SubmitKeeps(cfg, db, r, c2, awaiting, id, now, t); }
    case ConfirmRun(r, id) => if !(r !in db.runs || id in db.stages) { ConfirmKeeps(cfg, db, r, id, now, t); }
    case CancelRun(r) => if r in db.runs { CancelKeeps(db, r, now, t); }
    case SweepLeases(order) => SweepKeeps(db, order, now, t);
    case ClaimStage(order, pick) => ClaimKeeps(cfg, db, order, pick, now, t);
    case MutateStage(q, signed, ids, other) =>
      if Unused(db, ids) { MutateKeeps(cfg, db, q, signed, ids, other, now, t); }
    case AdaptStage(s, adapted) => AdaptKeeps(db, s, adapted, now, t);
    case AdoptRun(r) => AdoptOrphanKeeps(db, r, now, t);
    case ReportStage(ready, s, reported, id) => ReportKeeps(cfg, db, ready, s, reported, id, now, t);
  }

  /** With executors scoped to the analysis stages: terminal is absorbing, a terminal run has a result
      that never changes and that its stages explain, and a partial stage is never reported completed. */
  lemma {:induction false} TerminalAbsorbs(cfg: Config, db: Db, trace: seq<Event>, t: int)
    requires SplitScope(cfg) && Invariant(db, t) && SplitOk(db) && Timely(trace, t)
    ensures Keeps(db, Exec(cfg, db, trace))
    decreases |trace|
  {
    hide Numbered, Guarded, Timed, Flow, Grows, SplitOk, SplitScope, Recorded, Step;
    if trace != [] {
      var d := Step(cfg, db, trace[0].act, trace[0].now);
      StepKeeps(cfg, db, trace[0].act, trace[0].now, t);
      StepSound(cfg, db, trace[0].act, trace[0].now, t);
      TerminalAbsorbs(cfg, d, trace[1..], trace[0].now);
      KeepsThrough(db, d, Exec(cfg, d, trace[1..]));
    }
  }

  /** The same from the empty tables, spelled out. */
  lemma SplitHistory(cfg: Config, trace: seq<Event>, t: int, r: RunId)
    requires SplitScope(cfg) && Timely(trace, t) && r in Exec(cfg, EMPTY, trace).runs
    ensures var db := Exec(cfg, EMPTY, trace);
      var run := db.runs[r];
      && (run.status == RunTerminal ==> run.result.Some? && Explained(db, r, run.result.value))
      && (HasPartial(db, r) ==> run.result != Some(ResultCompleted))
      && (run.result.Some? && run.status != RunTerminal ==> run.result == Some(ResultPartial) && HasPartial(db, r))
  {
    hide Explained, HasPartial, Numbered, Guarded, Timed, Flow;
    EmptySound(t);
    TerminalAbsorbs(cfg, EMPTY, trace, t);
    assert RunOk(Exec(cfg, EMPTY, trace), r);
  }
}
