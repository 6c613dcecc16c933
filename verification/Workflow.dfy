/** The order in which stages of a run come into being, and that a cancelled run is over. Both hold for
    any executor scope and whichever of the two producers of the aggregation stage is first. */
module Workflow {
  import opened Tables
  import opened Handlers
  import opened LeaseSafety

  ghost predicate SameKind(db: Db, s: StageId, o: StageId) {
    s in db.stages && o in db.stages && db.stages[s].run == db.stages[o].run && db.stages[s].kind == db.stages[o].kind
  }

  /** The unique constraint on (run, stage type), which no insert relies on. */
  ghost predicate UniqueKinds(db: Db) { forall s, o :: SameKind(db, s, o) ==> s == o }

  ghost predicate Produced(db: Db, r: RunId, k: StageKind) {
    HasStageIn(db, r, k, Completed) || HasStageIn(db, r, k, Partial)
  }

  ghost predicate Passed(db: Db, r: RunId, k: StageKind) {
    Produced(db, r, k) || HasStageIn(db, r, k, Unsupported)
  }

  /** What must have happened in the run before a stage of this kind may exist. */
  ghost predicate Reached(db: Db, r: RunId, k: StageKind) {
    r in db.runs &&
    match k
    case PlatformAnalysis => true
    case C2Analysis => db.runs[r].c2Enabled && Produced(db, r, PlatformAnalysis)
    case PlatformAdaptation =>
      if db.runs[r].c2Enabled then Passed(db, r, C2Analysis) else Produced(db, r, PlatformAnalysis)
    case C2Adaptation => db.runs[r].c2Enabled && Passed(db, r, C2Analysis)
    case CaseAggregation =>
      if db.runs[r].c2Enabled
      then HasStageIn(db, r, PlatformAdaptation, Completed) && HasStageIn(db, r, C2Adaptation, Completed)
      else Passed(db, r, PlatformAdaptation)
    case ReportGeneration => Passed(db, r, CaseAggregation)
  }

  ghost predicate Ordered(db: Db) {
    forall s :: s in db.stages ==> Reached(db, db.stages[s].run, db.stages[s].kind)
  }

  ghost predicate Unstarted(db: Db)
    requires Refs(db)
  {
    forall s :: s in db.stages ==> db.runs[db.stages[s].run].status != RunAwaiting
  }

  predicate EndedCancelled(run: Run) { run.status == RunTerminal && run.result == Some(ResultCancelled) }

  ghost predicate CancelledFinal(db: Db)
    requires Refs(db)
  {
    forall s :: s in db.stages && EndedCancelled(db.runs[db.stages[s].run]) ==> Final(db.stages[s].state)
  }

  ghost predicate Flow(db: Db)
    requires Refs(db)
  {
    UniqueKinds(db) && Ordered(db) && Unstarted(db) && CancelledFinal(db)
  }

  ghost predicate Sound(db: Db, t: int) { Safe(db, t) && Flow(db) }

  // ---------- the row updates keep the flow ----------

  lemma StageInKept(db: Db, d: Db, r: RunId, k: StageKind, state: StageState)
    requires StagesKept(db, d) && Final(state) && HasStageIn(db, r, k, state)
    ensures HasStageIn(d, r, k, state)
  {
    var s :| s in db.stages && StageIs(db, s, r, k, state);
    assert StageIs(d, s, r, k, state);
  }

  lemma ReachedKept(db: Db, d: Db, r: RunId, k: StageKind)
    requires StagesKept(db, d) && RunsKept(db, d) && Reached(db, r, k)
    ensures Reached(d, r, k)
  {
    hide HasStageIn, StagesKept;
    forall j, state | Final(state) && HasStageIn(db, r, j, state) ensures HasStageIn(d, r, j, state) {
      StageInKept(db, d, r, j, state);
    }
  }

  ghost predicate StatusesKept(db: Db, d: Db) {
    d.runs.Keys == db.runs.Keys && forall r :: r in d.runs && d.runs[r].status == RunAwaiting ==> db.runs[r].status == RunAwaiting
  }

  lemma FlowKept(db: Db, d: Db)
    requires Refs(db) && Refs(d) && Flow(db) && StagesKept(db, d) && RunsKept(db, d)
    requires d.stages.Keys == db.stages.Keys && StatusesKept(db, d) && CancelledFinal(d)
    ensures Flow(d)
  {
    assert UniqueKinds(d) by {
      hide Ordered, Unstarted, CancelledFinal;
      assert forall s, o :: SameKind(d, s, o) ==> SameKind(db, s, o);
    }
    assert Ordered(d) by {
      hide UniqueKinds, Unstarted, CancelledFinal, Reached;
      forall s | s in d.stages ensures Reached(d, d.stages[s].run, d.stages[s].kind) {
        ReachedKept(db, d, db.stages[s].run, db.stages[s].kind);
      }
    }
    hide UniqueKinds, Ordered;
  }

  lemma EndLeaseCancelled(db: Db, l: LeaseId, now: int, ended: AttemptState, state: StageState, next: Option<int>)
    requires Refs(db) && CancelledFinal(db) && l in db.leases && Active(db.stages[db.leases[l].stage].state)
    ensures CancelledFinal(EndLease(db, l, now, ended, state, next))
    ensures !EndedCancelled(db.runs[db.stages[db.leases[l].stage].run])
  {}

  lemma EndLeaseSound(db: Db, l: LeaseId, now: int, ended: AttemptState, state: StageState, next: Option<int>, t: int)
    requires Sound(db, t) && t <= now && EndsProperly(db, l, now, ended, state, next)
    ensures var d := EndLease(db, l, now, ended, state, next);
      Sound(d, now) && Grows(db, d) && SameCounts(db, d) && !Live(d, l)
  {
    hide Numbered, Guarded, Timed, UniqueKinds, Ordered, Unstarted, CancelledFinal, SameCounts;
    hide StagesKept, RunsKept, AttemptsKept, LeasesKept, Newest;
    var d := EndLease(db, l, now, ended, state, next);
    LiveLease(db, l);
    hide EndsProperly;
    EndLeaseSafe(db, l, now, ended, state, next, t);
    EndLeaseCancelled(db, l, now, ended, state, next);
    FlowKept(db, d);
  }

  lemma GrantCancelled(cfg: Config, db: Db, g: GrantIds, now: int)
    requires Refs(db) && CancelledFinal(db) && Grantable(cfg, db, g, now)
    ensures CancelledFinal(Grant(cfg, db, g, now))
    ensures !EndedCancelled(db.runs[db.stages[g.stage].run])
  {
    hide Count;
  }

  lemma GrantSound(cfg: Config, db: Db, g: GrantIds, now: int, t: int)
    requires Sound(db, t) && t <= now && Grantable(cfg, db, g, now)
    ensures var d := Grant(cfg, db, g, now); Sound(d, now) && Grows(db, d)
  {
    hide Numbered, Guarded, Timed, UniqueKinds, Ordered, Unstarted, CancelledFinal, Count;
    hide StagesKept, RunsKept, AttemptsKept, LeasesKept;
    var d := Grant(cfg, db, g, now);
    GrantSafe(cfg, db, g, now, t);
    GrantCancelled(cfg, db, g, now);
    FlowKept(db, d);
  }

  lemma TouchCancelled(cfg: Config, db: Db, l: LeaseId, now: int, start: bool)
    requires Refs(db) && CancelledFinal(db) && l in db.leases && Active(db.stages[db.leases[l].stage].state)
    ensures CancelledFinal(Touch(cfg, db, l, now, start))
  {}

  lemma TouchSound(cfg: Config, db: Db, l: LeaseId, now: int, start: bool, t: int)
    requires Sound(db, t) && t <= now && Live(db, l)
    ensures var d := Touch(cfg, db, l, now, start); Sound(d, now) && Grows(db, d) && SameCounts(db, d)
  {
    hide Numbered, Guarded, Timed, UniqueKinds, Ordered, Unstarted, CancelledFinal, SameCounts;
    hide StagesKept, RunsKept, AttemptsKept, LeasesKept, Newest;
    var d := Touch(cfg, db, l, now, start);
    LiveLease(db, l);
    TouchSafe(cfg, db, l, now, start, t);
    TouchCancelled(cfg, db, l, now, start);
    FlowKept(db, d);
  }

  lemma StagesOnlySound(db: Db, d: Db, now: int, t: int)
    requires Sound(db, t) && t <= now && StagesOnly(db, d)
    requires d.stages.Keys == db.stages.Keys && StatusesKept(db, d) && CancelledFinal(d)
    ensures Sound(d, now) && Grows(db, d) && SameCounts(db, d)
  {
    hide StagesOnly, Numbered, Guarded, Timed, SameCounts, StatusesKept;
    StagesOnlySafe(db, d, now, t);
    hide UniqueKinds, Ordered, Unstarted, CancelledFinal, StagesKept, RunsKept, AttemptsKept, LeasesKept;
    FlowKept(db, d);
  }

  lemma SetRunSound(db: Db, r: RunId, status: RunStatus, result: Option<RunResult>, now: int, t: int)
    requires Sound(db, t) && t <= now && r in db.runs && status != RunAwaiting
    requires EndedCancelled(Run(status, result, db.runs[r].c2Enabled)) ==>
      forall s :: s in db.stages && db.stages[s].run == r ==> Final(db.stages[s].state)
    ensures var d := SetRun(db, r, status, result); Sound(d, now) && Grows(db, d) && SameCounts(db, d)
  {
    hide Numbered, Guarded, Timed, UniqueKinds, Ordered, Unstarted, Grows, SameCounts;
    var d := SetRun(db, r, status, result);
    assert StagesOnly(db, d) && StatusesKept(db, d) && CancelledFinal(d);
    StagesOnlySound(db, d, now, t);
  }

  lemma SetStageSound(db: Db, s: StageId, state: StageState, now: int, t: int)
    requires Sound(db, t) && t <= now && s in db.stages && Pending(db.stages[s].state) && Final(state)
    ensures var d := SetStage(db, s, state); Sound(d, now) && Grows(db, d) && SameCounts(db, d)
  {
    hide Numbered, Guarded, Timed, UniqueKinds, Ordered, Unstarted, Grows, SameCounts;
    var d := SetStage(db, s, state);
    assert StagesOnly(db, d) && StatusesKept(db, d) && CancelledFinal(d);
    StagesOnlySound(db, d, now, t);
  }

  /** Ending a run as cancelled, with its pending stages: nothing of it may be active. */
  lemma EndRunSound(db: Db, r: RunId, now: int, t: int)
    requires Sound(db, t) && t <= now && r in db.runs && !SomeActive(db, r)
    ensures var d := SetRun(CancelPending(db, r), r, RunTerminal, Some(ResultCancelled));
      Sound(d, now) && Grows(db, d) && SameCounts(db, d)
  {
    hide Numbered, Guarded, Timed, UniqueKinds, Ordered, Unstarted, Grows, SameCounts;
    var d := SetRun(CancelPending(db, r), r, RunTerminal, Some(ResultCancelled));
    assert StagesOnly(db, d) && StatusesKept(db, d) && CancelledFinal(d);
    StagesOnlySound(db, d, now, t);
  }

  lemma AddStageFlow(cfg: Config, db: Db, id: StageId, r: RunId, k: StageKind)
    requires Refs(db) && Flow(db) && r in db.runs && id !in db.stages
    requires !HasStage(db, r, k) && Reached(db, r, k)
    requires db.runs[r].status != RunAwaiting && !EndedCancelled(db.runs[r])
    ensures Flow(AddStage(cfg, db, id, r, k))
  {
    var d := AddStage(cfg, db, id, r, k);
    assert UniqueKinds(d) by {
      hide Ordered, Unstarted, CancelledFinal, Reached;
      forall s, o | SameKind(d, s, o) ensures s == o {
        assert s != id && o != id ==> SameKind(db, s, o);
        assert s != id && o == id ==> IsStage(db, s, r, k);
        assert s == id && o != id ==> IsStage(db, o, r, k);
      }
    }
    assert Ordered(d) by {
      hide UniqueKinds, Unstarted, CancelledFinal, Reached, HasStage;
      assert StagesKept(db, d) && RunsKept(db, d);
      forall s | s in d.stages ensures Reached(d, d.stages[s].run, d.stages[s].kind) {
        ReachedKept(db, d, d.stages[s].run, d.stages[s].kind);
      }
    }
    hide UniqueKinds, Ordered, Reached, HasStage;
  }

  lemma AddStageSound(cfg: Config, db: Db, id: StageId, r: RunId, k: StageKind, now: int, t: int)
    requires Sound(db, t) && t <= now && r in db.runs && id !in db.stages
    requires !HasStage(db, r, k) && Reached(db, r, k)
    requires db.runs[r].status != RunAwaiting && !EndedCancelled(db.runs[r])
    ensures var d := AddStage(cfg, db, id, r, k); Sound(d, now) && Grows(db, d) && SameCounts(db, d)
  {
    hide UniqueKinds, Ordered, Unstarted, CancelledFinal, Reached, HasStage, Numbered, Guarded, Timed, Grows, SameCounts;
    var d := AddStage(cfg, db, id, r, k);
    AddStageFlow(cfg, db, id, r, k);
    assert StagesOnly(db, d) by { hide Safe, Flow; }
    hide StagesOnly;
    StagesOnlySafe(db, d, now, t);
  }
}
