/** What a run that has not ended still has ahead of it, with executors that claim the two analysis stages: after
    every history there is a stage to work on, or a failed stage of a worker, or an aggregation to create; and
    the one run that nothing moves any more is one that was cancelled and yet completed. */
module Succession {
  import opened Tables
  import opened Handlers
  import opened LeaseSafety
  import opened Workflow
  import opened Protocol
  import opened Locality
  import opened DeployedSplit
  import opened Histories
  import opened Requests

  /** The stage is to be worked on, or what comes after it exists, or a worker has failed it. */
  ghost predicate OnItsWay(db: Db, s: StageId)
    requires Refs(db) && s in db.stages
  {
    var r, state := db.stages[s].run, db.stages[s].state;
    match db.stages[s].kind
    case PlatformAnalysis =>
      || state in {Waiting, Queued, Leased, Running}
      || (state in {Completed, Partial} && HasStage(db, r, if db.runs[r].c2Enabled then C2Analysis else PlatformAdaptation))
    case C2Analysis =>
      || state in {Waiting, Queued, Leased, Running}
      || (state in {Completed, Partial, Unsupported} && HasBoth(db, r, PlatformAdaptation, C2Adaptation))
    case CaseAggregation => state in {Queued, Failed} || (state == Completed && HasStage(db, r, ReportGeneration))
    case ReportGeneration => state in {Queued, Failed}
    case _ => state in {Queued, Failed, Completed}
  }

  ghost predicate AllOnTheirWay(db: Db, r: RunId)
    requires Refs(db)
  {
    forall s :: s in db.stages && db.stages[s].run == r ==> OnItsWay(db, s)
  }

  /** A run that is still queued has not had a stage claimed. */
  ghost predicate Untried(db: Db, r: RunId) {
    forall s :: s in db.stages && db.stages[s].run == r ==> db.stages[s].kind == PlatformAnalysis && Pending(db.stages[s].state)
  }

  ghost predicate Goes(db: Db, r: RunId)
    requires Refs(db)
  {
    && r in db.runs
    && (db.runs[r].status in {RunQueued, RunRunning, RunCancelling} ==> HasStage(db, r, PlatformAnalysis) && AllOnTheirWay(db, r))
    && (db.runs[r].status == RunQueued ==> Untried(db, r))
  }

  ghost predicate AllGo(db: Db)
    requires Refs(db)
  {
    forall r :: r in db.runs ==> Goes(db, r)
  }

  // ---------- what keeps a run going ----------

  lemma SameKindsExist(db: Db, d: Db, r: RunId)
    requires forall s :: s in db.stages && db.stages[s].run == r ==>
               s in d.stages && d.stages[s].run == r && d.stages[s].kind == db.stages[s].kind
    ensures forall k :: HasStage(db, r, k) ==> HasStage(d, r, k)
  {
    forall k | HasStage(db, r, k) ensures HasStage(d, r, k) {
      var s :| s in db.stages && IsStage(db, s, r, k);
      assert IsStage(d, s, r, k);
    }
  }

  lemma FrozenGoes(db: Db, d: Db, r: RunId)
    requires Refs(db) && Refs(d) && Goes(db, r) && Frozen(db, d, r)
    ensures Goes(d, r)
  {
    hide HasStage;
    SameKindsExist(db, d, r);
  }

  lemma OneGoes(db: Db, d: Db, r: RunId)
    requires Refs(db) && Refs(d) && AllGo(db) && Goes(d, r) && d.runs.Keys <= db.runs.Keys + {r}
    requires forall o :: o in db.runs && o != r ==> Frozen(db, d, o)
    ensures AllGo(d)
  {
    hide Goes, Frozen;
    forall o | o in d.runs ensures Goes(d, o) { if o != r { FrozenGoes(db, d, o); } }
  }

  lemma EndedGoes(d: Db, r: RunId)
    requires Refs(d) && r in d.runs && d.runs[r].status == RunTerminal
    ensures Goes(d, r)
  {}

  /** One stage of the run changed, to a state on its way, and the run goes on. */
  lemma StageMovesOn(db: Db, d: Db, r: RunId, s: StageId)
    requires Refs(db) && Refs(d) && Goes(db, r) && r in d.runs && d.runs[r].c2Enabled == db.runs[r].c2Enabled
    requires s in db.stages && db.stages[s].run == r && d.stages.Keys == db.stages.Keys
    requires forall o :: o in db.stages && o != s ==> d.stages[o] == db.stages[o]
    requires d.stages[s].run == r && d.stages[s].kind == db.stages[s].kind
    requires db.runs[r].status in {RunQueued, RunRunning, RunCancelling} && d.runs[r].status in {RunRunning, RunCancelling}
    requires OnItsWay(d, s)
    ensures Goes(d, r)
  {
    hide HasStage;
    SameKindsExist(db, d, r);
    forall o | o in d.stages && d.stages[o].run == r ensures OnItsWay(d, o) {
      if o != s { assert OnItsWay(db, o); }
    }
  }

  /** Only the run's status changed, and it goes on. */
  lemma StatusMovesOn(db: Db, d: Db, r: RunId)
    requires Refs(db) && Refs(d) && Goes(db, r) && r in d.runs && d.runs[r].c2Enabled == db.runs[r].c2Enabled && d.stages == db.stages
    requires db.runs[r].status in {RunQueued, RunRunning, RunCancelling} && d.runs[r].status in {RunRunning, RunCancelling}
    ensures Goes(d, r)
  {
    hide HasStage;
    SameKindsExist(db, d, r);
    forall o | o in d.stages && d.stages[o].run == r ensures OnItsWay(d, o) { assert OnItsWay(db, o); }
  }

  /** A queued stage is added to a run that goes on. */
  lemma StageAdded(cfg: Config, db: Db, id: StageId, r: RunId, k: StageKind)
    requires Refs(db) && Goes(db, r) && id !in db.stages && db.runs[r].status in {RunRunning, RunCancelling}
    ensures Goes(AddStage(cfg, db, id, r, k), r)
  {
    hide HasStage;
    var d := AddStage(cfg, db, id, r, k);
    SameKindsExist(db, d, r);
    forall o | o in d.stages && d.stages[o].run == r ensures OnItsWay(d, o) {
      if o != id { assert OnItsWay(db, o); }
    }
  }

  /** A live lease is of an analysis stage, the only active stage of its run, which goes on. */
  lemma LeasedRun(db: Db, t: int, l: LeaseId)
    requires DeployedSplit.Ok(db, t) && AllGo(db) && Live(db, l)
    ensures var s, r := db.leases[l].stage, RunOf(db, l);
      && Analysis(db.stages[s].kind) && Active(db.stages[s].state) && r in db.runs && Goes(db, r)
      && db.runs[r].status in {RunRunning, RunCancelling} && !OtherActive(db, r, s)
  {
    hide Numbered, Guarded, Timed, Ordered, UniqueKinds, CancelledFinal, SplitOk, HasStage;
    LeasedStage(db, t, l);
    assert Goes(db, RunOf(db, l));
    OnlyActive(db, db.leases[l].stage);
  }

  lemma OnlyActive(db: Db, s: StageId)
    requires UniqueKinds(db) && Ordered(db) && s in db.stages && Active(db.stages[s].state) && Analysis(db.stages[s].kind)
    ensures !OtherActive(db, db.stages[s].run, s)
  {
    hide UniqueKinds, Ordered;
    AroundStage(db, s);
  }

  // ---------- every handler keeps the runs going ----------

  lemma RequeuedGoes(db: Db, l: LeaseId, now: int, ended: AttemptState, next: Option<int>, t: int)
    requires DeployedSplit.Ok(db, t) && AllGo(db) && Live(db, l)
    ensures Goes(EndLease(db, l, now, ended, Queued, next), RunOf(db, l))
  {
    hide Numbered, Guarded, Timed, Flow, SplitOk, Goes, HasStage, OtherActive;
    LeasedRun(db, t, l);
    StageMovesOn(db, EndLease(db, l, now, ended, Queued, next), RunOf(db, l), db.leases[l].stage);
  }

  /** The only active stage of a run is cancelled. */
  lemma LastCancelled(db: Db, l: LeaseId, now: int, t: int)
    requires DeployedSplit.Ok(db, t) && AllGo(db) && Live(db, l)
    ensures var ended := EndLease(db, l, now, AttemptCancelled, Cancelled, Unscheduled(db, l));
      Goes(FinishCancellation(ended, RunOf(db, l), db.leases[l].stage), RunOf(db, l))
  {
    hide Numbered, Guarded, Timed, Flow, SplitOk, Goes, HasStage, CancelPending;
    LeasedRun(db, t, l);
    var ended := EndLease(db, l, now, AttemptCancelled, Cancelled, Unscheduled(db, l));
    assert !OtherActive(ended, RunOf(db, l), db.leases[l].stage);
    EndedGoes(FinishCancellation(ended, RunOf(db, l), db.leases[l].stage), RunOf(db, l));
  }

  lemma ExpiryGoes(db: Db, l: LeaseId, now: int, t: int)
    requires DeployedSplit.Ok(db, t) && AllGo(db) && Live(db, l)
    ensures Goes(ExpireAttempt(db, l, now), RunOf(db, l))
  {
    hide Numbered, Guarded, Timed, Flow, SplitOk, Goes, AllGo, FinishCancellation, Count;
    var s, r := db.leases[l].stage, RunOf(db, l);
    if db.runs[r].status == RunCancelling {
      LastCancelled(db, l, now, t);
    } else if Count(db, s) < db.stages[s].maxAttempts {
      RequeuedGoes(db, l, now, AttemptExpired, Some(now + Backoff(Count(db, s))), t);
    } else {
      EndedGoes(ExpireAttempt(db, l, now), r);
    }
  }

  lemma ExpiryAllGo(db: Db, l: LeaseId, now: int, t: int)
    requires DeployedSplit.Ok(db, t) && AllGo(db) && Live(db, l)
    ensures AllGo(ExpireAttempt(db, l, now))
  {
    hide Numbered, Guarded, Timed, Flow, SplitOk, Goes, AllGo, ExpireAttempt, Frozen;
    ExpiryGoes(db, l, now, t);
    ExpireAttemptWorkers(db, l, now, t);
    forall o | o in db.runs && o != RunOf(db, l) ensures Frozen(db, ExpireAttempt(db, l, now), o) { ExpireAttemptLocal(db, l, now, o); }
    OneGoes(db, ExpireAttempt(db, l, now), RunOf(db, l));
  }

  lemma {:induction false} SweepGoes(db: Db, order: seq<LeaseId>, now: int, t: int)
    requires DeployedSplit.Ok(db, t) && t <= now && AllGo(db)
    ensures AllGo(Sweep(db, order, now))
    decreases |order|
  {
    hide Numbered, Guarded, Timed, Flow, SplitOk, AllGo, ExpireAttempt, Overdue, Grows;
    if order != [] {
      SoundLater(db, now, t);
      if Live(db, order[0]) && Overdue(db, order[0], now) {
        ExpiryAllGo(db, order[0], now, t);
        ExpireAttemptSound(db, order[0], now, t);
        ExpireAttemptKeeps(db, order[0], now, t);
      }
      SweepGoes(SweepOne(db, order[0], now), order[1..], now, now);
    }
  }

  lemma GrantGoes(cfg: Config, db: Db, g: GrantIds, now: int, t: int)
    requires DeployedSplit.Ok(db, t) && AllGo(db) && SplitScope(cfg) && Grantable(cfg, db, g, now)
    ensures var r := db.stages[g.stage].run;
      AllGo(SetRun(Grant(cfg, db, g, now), r, RunRunning, db.runs[r].result))
  {
    hide Numbered, Guarded, Timed, Ordered, UniqueKinds, CancelledFinal, SplitOk, Goes, HasStage, Frozen, Count;
    var r := db.stages[g.stage].run;
    var d := SetRun(Grant(cfg, db, g, now), r, RunRunning, db.runs[r].result);
    NotTerminal(db, g.stage);
    StageMovesOn(db, d, r, g.stage);
    forall o | o in db.runs && o != r ensures Frozen(db, d, o) { GrantLocal(cfg, db, g, now, o); }
    OneGoes(db, d, r);
  }

  lemma ClaimGoes(cfg: Config, db: Db, order: seq<LeaseId>, pick: Option<GrantIds>, now: int, t: int)
    requires DeployedSplit.Ok(db, t) && t <= now && AllGo(db) && SplitScope(cfg)
    ensures AllGo(Claim(cfg, db, order, pick, now))
  {
    hide Numbered, Guarded, Timed, Flow, SplitOk, SplitScope, AllGo, Sweep, Grant, Grows;
    SweepGoes(db, order, now, t);
    SweepKeeps(db, order, now, t);
    SweepSound(db, order, now, t);
    var mid := Sweep(db, order, now);
    if pick.Some? && Grantable(cfg, mid, pick.value, now) { GrantGoes(cfg, mid, pick.value, now, now); }
  }

  // ---------- executor requests ----------

  lemma CreatedGoes(cfg: Config, db: Db, id: StageId, r: RunId, k: StageKind, s: StageId)
    requires Refs(db) && id !in db.stages && r in db.runs && s in db.stages && OnlyLeft(db, r, s)
    ensures var d := CreateNext(cfg, db, id, r, k);
      && OnlyLeft(d, r, s) && HasStage(d, r, k) && d.runs == db.runs
      && s in d.stages && d.stages[s] == db.stages[s]
  {
    hide HasStage;
    var d := CreateNext(cfg, db, id, r, k);
    CreatedExists(cfg, db, id, r, k);
    forall o | o in d.stages && d.stages[o].run == r && o != s ensures OnItsWay(d, o) {
      if o in db.stages { assert OnItsWay(db, o); }
    }
  }

  /** All is on its way but perhaps stage s. */
  ghost predicate OnlyLeft(db: Db, r: RunId, s: StageId)
    requires Refs(db)
  {
    && r in db.runs && db.runs[r].status in {RunRunning, RunCancelling} && HasStage(db, r, PlatformAnalysis)
    && forall o :: o in db.stages && db.stages[o].run == r && o != s ==> OnItsWay(db, o)
  }

  lemma AdvanceGoes(cfg: Config, db: Db, s: StageId, ids: Fresh)
    requires Refs(db) && s in db.stages && Unused(db, ids) && OnlyLeft(db, db.stages[s].run, s)
    requires Analysis(db.stages[s].kind) && Completion(db.stages[s].state)
    requires !(db.stages[s].kind.PlatformAnalysis? && db.stages[s].state.Unsupported?)
    ensures var d := Advance(cfg, db, s, ids); Goes(d, db.stages[s].run) && d.runs.Keys == db.runs.Keys
  {
    hide HasStage, CreateNext, OnlyLeft, AllOnTheirWay;
    var r, k := db.stages[s].run, db.stages[s].kind;
    var d := Advance(cfg, db, s, ids);
    if k.C2Analysis? {
      var mid := CreateNext(cfg, db, ids.first, r, PlatformAdaptation);
      CreatedGoes(cfg, db, ids.first, r, PlatformAdaptation, s);
      CreateNextStages(cfg, db, ids.first, r, PlatformAdaptation);
      CreatedGoes(cfg, mid, ids.second, r, C2Adaptation, s);
      CreatedExists(cfg, mid, ids.second, r, C2Adaptation);
    } else {
      CreatedGoes(cfg, db, ids.first, r, C2Analysis, s);
      CreatedGoes(cfg, db, ids.first, r, PlatformAdaptation, s);
    }
    NothingLeft(d, r, s);
  }

  lemma NothingLeft(d: Db, r: RunId, s: StageId)
    requires Refs(d) && OnlyLeft(d, r, s) && s in d.stages && OnItsWay(d, s)
    ensures Goes(d, r)
  {}

  lemma CompleteGoes(cfg: Config, db: Db, l: LeaseId, outcome: StageState, ids: Fresh, now: int, t: int)
    requires DeployedSplit.Ok(db, t) && AllGo(db) && Live(db, l) && Completion(outcome) && Unused(db, ids)
    ensures Goes(Complete(cfg, db, l, outcome, ids, now).0, RunOf(db, l))
  {
    hide Numbered, Guarded, Timed, Flow, SplitOk, AllGo, Goes, HasStage, Advance, OtherActive, OnlyLeft;
    var s, r := db.leases[l].stage, RunOf(db, l);
    LeasedRun(db, t, l);
    var ended := EndLease(db, l, now, AttemptCompleted, outcome, Unscheduled(db, l));
    if outcome.Unsupported? && db.stages[s].kind.PlatformAnalysis? {
      EndedGoes(SetRun(ended, r, RunTerminal, Some(ResultUnsupported)), r);
    } else {
      EndedLeft(db, l, outcome, now);
      var e := if outcome.Partial? then SetRun(ended, r, db.runs[r].status, Some(ResultPartial)) else ended;
      AdvanceGoes(cfg, e, s, ids);
    }
  }

  lemma EndedLeft(db: Db, l: LeaseId, outcome: StageState, now: int)
    requires Refs(db) && l in db.leases && Goes(db, RunOf(db, l)) && db.runs[RunOf(db, l)].status in {RunRunning, RunCancelling}
    ensures var ended, r := EndLease(db, l, now, AttemptCompleted, outcome, Unscheduled(db, l)), RunOf(db, l);
      && OnlyLeft(ended, r, db.leases[l].stage)
      && OnlyLeft(SetRun(ended, r, db.runs[r].status, Some(ResultPartial)), r, db.leases[l].stage)
  {
    hide HasStage;
    var ended, r := EndLease(db, l, now, AttemptCompleted, outcome, Unscheduled(db, l)), RunOf(db, l);
    var partial := SetRun(ended, r, db.runs[r].status, Some(ResultPartial));
    SameKindsExist(db, ended, r);
    SameKindsExist(db, partial, r);
    forall o | o in db.stages && db.stages[o].run == r && o != db.leases[l].stage ensures OnItsWay(ended, o) && OnItsWay(partial, o) {
      assert OnItsWay(db, o);
    }
  }

  lemma FailGoes(db: Db, l: LeaseId, retryable: bool, now: int, t: int)
    requires DeployedSplit.Ok(db, t) && AllGo(db) && Live(db, l)
    ensures Goes(Fail(db, l, retryable, now).0, RunOf(db, l))
  {
    hide Numbered, Guarded, Timed, Flow, SplitOk, AllGo, Goes, Count;
    var s := db.leases[l].stage;
    if retryable && Count(db, s) < db.stages[s].maxAttempts {
      RequeuedGoes(db, l, now, AttemptFailed, Some(now + Backoff(Count(db, s))), t);
    } else {
      EndedGoes(Fail(db, l, retryable, now).0, RunOf(db, l));
    }
  }

  lemma HeartbeatGoes(cfg: Config, db: Db, l: LeaseId, now: int, t: int)
    requires DeployedSplit.Ok(db, t) && AllGo(db) && Live(db, l)
    ensures Goes(Heartbeat(cfg, db, l, now).0, RunOf(db, l))
  {
    hide Numbered, Guarded, Timed, Flow, SplitOk, AllGo, Goes, ExpireAttempt, HasStage, OtherActive;
    var s, r := db.leases[l].stage, RunOf(db, l);
    LeasedRun(db, t, l);
    ExpiryGoes(db, l, now, t);
    StatusMovesOn(db, Touch(cfg, db, l, now, false), r);
    StageMovesOn(db, Touch(cfg, db, l, now, true), r, s);
  }

  lemma PerformGoes(cfg: Config, db: Db, q: Request, ids: Fresh, other: OtherOutcome, now: int, t: int)
    requires DeployedSplit.Ok(db, t) && t <= now && AllGo(db) && q.message.lease in db.leases && Unused(db, ids)
    requires !q.message.call.OtherCall? ==> Live(db, q.message.lease)
    ensures AllGo(Perform(cfg, db, q, ids, other, now).0)
  {
    hide Numbered, Guarded, Timed, Flow, SplitOk, AllGo, Goes, Frozen, Heartbeat, Complete, Fail, FinishCancellation, Perform;
    if q.message.call.OtherCall? {
      OtherCallInert(cfg, db, q, ids, other, now);
    } else {
      var l, d := q.message.lease, Perform(cfg, db, q, ids, other, now).0;
      PerformRunGoes(cfg, db, q, ids, other, now, t);
      PerformOk(cfg, db, q, ids, other, now, t);
      forall o | o in db.runs && o != RunOf(db, l) ensures Frozen(db, d, o) { PerformLocal(cfg, db, q, ids, other, now, o); }
      OneGoes(db, d, RunOf(db, l));
    }
  }

  lemma PerformRunGoes(cfg: Config, db: Db, q: Request, ids: Fresh, other: OtherOutcome, now: int, t: int)
    requires DeployedSplit.Ok(db, t) && AllGo(db) && Live(db, q.message.lease) && Unused(db, ids) && !q.message.call.OtherCall?
    ensures Goes(Perform(cfg, db, q, ids, other, now).0, RunOf(db, q.message.lease))
  {
    hide Numbered, Guarded, Timed, Flow, SplitOk, Goes, Heartbeat, Complete, Fail, FinishCancellation;
    var l := q.message.lease;
    assert Goes(db, RunOf(db, l));
    match q.message.call
    case HeartbeatCall => HeartbeatGoes(cfg, db, l, now, t);
    case CompleteCall(outcome) =>
      if outcome.Some? && Completion(outcome.value) { CompleteGoes(cfg, db, l, outcome.value, ids, now, t); }
    case FailCall(retryable) => FailGoes(db, l, retryable, now, t);
    case AckCall => LastCancelled(db, l, now, t);
  }

  lemma RequestGoes(cfg: Config, db: Db, q: Request, signed: bool, ids: Fresh, other: OtherOutcome, now: int, t: int)
    requires DeployedSplit.Ok(db, t) && t <= now && AllGo(db) && Recorded(db) && Unused(db, ids)
    ensures AllGo(Mutate(cfg, db, q, signed, ids, other, now).0)
  {
    hide Numbered, Guarded, Timed, Flow, SplitOk, AllGo, Perform, Mutate, Recorded;
    MutateReaches(cfg, db, q, signed, ids, other, now);
    var d := Mutate(cfg, db, q, signed, ids, other, now).0;
    if d != db {
      PerformGoes(cfg, db, q, ids, other, now, t);
      RecordsGo(Perform(cfg, db, q, ids, other, now).0, d.requests);
    }
  }

  lemma RecordsGo(db: Db, requests: map<(ExecutorId, nat), Record>)
    requires Refs(db) && AllGo(db)
    ensures AllGo(db.(requests := requests))
  {
    hide Goes;
    forall r | r in db.runs ensures Goes(db.(requests := requests), r) { FrozenGoes(db, db.(requests := requests), r); }
  }

  // ---------- users and workers ----------

  lemma SubmitGoes(cfg: Config, db: Db, r: RunId, c2: bool, awaiting: bool, id: StageId)
    requires Refs(db) && AllGo(db) && r !in db.runs && id !in db.stages
    ensures AllGo(Submit(cfg, db, r, c2, awaiting, id))
  {
    hide Frozen;
    var d := Submit(cfg, db, r, c2, awaiting, id);
    FirstStage(d, r, id);
    forall o | o in db.runs && o != r ensures Frozen(db, d, o) { SubmitLocal(cfg, db, r, c2, awaiting, id, o); }
    hide Goes;
    OneGoes(db, d, r);
  }

  lemma FirstStage(d: Db, r: RunId, id: StageId)
    requires Refs(d) && r in d.runs
    requires forall s :: s in d.stages && d.stages[s].run == r ==> s == id
    requires d.runs[r].status == RunAwaiting || (id in d.stages && d.stages[id].run == r && d.stages[id].kind == PlatformAnalysis && d.stages[id].state == Queued)
    ensures Goes(d, r)
  {
    if d.runs[r].status != RunAwaiting { assert IsStage(d, id, r, PlatformAnalysis); }
  }

  lemma ConfirmGoes(cfg: Config, db: Db, r: RunId, id: StageId, t: int)
    requires DeployedSplit.Ok(db, t) && AllGo(db) && r in db.runs && id !in db.stages
    ensures AllGo(Confirm(cfg, db, r, id))
  {
    hide Numbered, Guarded, Timed, Ordered, UniqueKinds, CancelledFinal, SplitOk, Frozen, Goes, HasStage;
    if db.runs[r].status == RunAwaiting {
      var d := Confirm(cfg, db, r, id);
      FirstStage(d, r, id);
      forall o | o in db.runs && o != r ensures Frozen(db, d, o) { ConfirmLocal(cfg, db, r, id, o); }
      OneGoes(db, d, r);
    }
  }

  lemma CancelGoes(db: Db, r: RunId)
    requires Refs(db) && Unstarted(db) && AllGo(db) && r in db.runs
    ensures AllGo(Cancel(db, r))
  {
    hide Frozen, Goes, HasStage;
    if db.runs[r].status != RunTerminal {
      var d := Cancel(db, r);
      if SomeActive(db, r) { StatusMovesOn(db, d, r); } else { EndedGoes(d, r); }
      forall o | o in db.runs && o != r ensures Frozen(db, d, o) { CancelLocal(db, r, o); }
      OneGoes(db, d, r);
    }
  }

  lemma AdaptGoes(db: Db, s: StageId, outcome: AdaptOutcome, t: int)
    requires DeployedSplit.Ok(db, t) && AllGo(db)
    ensures AllGo(Adapt(db, s, outcome))
  {
    hide Numbered, Guarded, Timed, Ordered, UniqueKinds, CancelledFinal, SplitOk, Frozen, HasStage, AllOnTheirWay;
    if s in db.stages && Adaptation(db.stages[s].kind) && db.stages[s].state == Queued {
      var d, r := Adapt(db, s, outcome), db.stages[s].run;
      assert Goes(db, r);
      if d.runs[r].status == RunTerminal { EndedGoes(d, r); } else { StageMovesOn(db, d, r, s); }
      forall o | o in db.runs && o != r ensures Frozen(db, d, o) { AdaptLocal(db, s, outcome, o); }
      OneGoes(db, d, r);
    }
  }

  lemma AdoptGoes(db: Db, r: RunId)
    requires Refs(db) && AllGo(db)
    ensures AllGo(AdoptOrphan(db, r))
  {
    hide Frozen, Goes;
    if Orphaned(db, r) {
      var d := AdoptOrphan(db, r);
      EndedGoes(d, r);
      forall o | o in db.runs && o != r ensures Frozen(db, d, o) { SetRunLocal(db, r, RunTerminal, Some(ResultInconclusive), o); }
      OneGoes(db, d, r);
    }
  }

  lemma {:induction false} EnsureGoes(cfg: Config, db: Db, ready: seq<(RunId, StageId)>)
    requires Refs(db) && AllGo(db)
    ensures AllGo(EnsureAll(cfg, db, ready))
    decreases |ready|
  {
    hide Frozen, Goes, HasStage, HasStageIn, AllGo;
    if ready != [] {
      var r, id := ready[0].0, ready[0].1;
      var d := EnsureAggregation(cfg, db, r, id);
      if d != db {
        assert Goes(db, r) by { GoesOf(db, r); }
        StageAdded(cfg, db, id, r, CaseAggregation);
        forall o | o in db.runs && o != r ensures Frozen(db, d, o) { AddStageLocal(cfg, db, id, r, CaseAggregation, o); }
        OneGoes(db, d, r);
      }
      EnsureGoes(cfg, d, ready[1..]);
    }
  }

  lemma GoesOf(db: Db, r: RunId)
    requires Refs(db) && AllGo(db) && r in db.runs
    ensures Goes(db, r)
  {}

  lemma FinishReportGoes(cfg: Config, db: Db, s: StageId, verdict: Verdict, id: StageId, t: int)
    requires DeployedSplit.Ok(db, t) && AllGo(db) && Reportable(db, s)
    ensures AllGo(FinishReport(cfg, db, s, verdict, id))
  {
    hide Numbered, Guarded, Timed, Ordered, UniqueKinds, CancelledFinal, SplitOk, Frozen, Goes, HasStage;
    var d, r := FinishReport(cfg, db, s, verdict, id), db.stages[s].run;
    NotTerminal(db, s);
    GoesOf(db, r);
    if db.stages[s].kind.ReportGeneration? {
      EndedGoes(d, r);
    } else if id !in db.stages {
      ReportFollows(cfg, db, s, id);
    }
    forall o | o in db.runs && o != r ensures Frozen(db, d, o) { FinishReportLocal(cfg, db, s, verdict, id, o); }
    OneGoes(db, d, r);
  }

  lemma ReportFollows(cfg: Config, db: Db, s: StageId, id: StageId)
    requires Refs(db) && s in db.stages && db.stages[s].kind.CaseAggregation? && id !in db.stages && Goes(db, db.stages[s].run)
    requires db.runs[db.stages[s].run].status in {RunQueued, RunRunning, RunCancelling}
    ensures Goes(CreateNext(cfg, SetStage(db, s, Completed), id, db.stages[s].run, ReportGeneration), db.stages[s].run)
  {
    hide HasStage, CreateNext;
    var r, done := db.stages[s].run, SetStage(db, s, Completed);
    SameKindsExist(db, done, r);
    assert OnlyLeft(done, r, s) by {
      forall o | o in done.stages && done.stages[o].run == r && o != s ensures OnItsWay(done, o) { assert OnItsWay(db, o); }
    }
    CreatedGoes(cfg, done, id, r, ReportGeneration, s);
    NothingLeft(CreateNext(cfg, done, id, r, ReportGeneration), r, s);
  }

  lemma ReportRaisedGoes(db: Db, s: StageId, t: int)
    requires DeployedSplit.Ok(db, t) && AllGo(db) && Reportable(db, s)
    ensures AllGo(SetStage(db, s, Failed))
  {
    hide Numbered, Guarded, Timed, Ordered, UniqueKinds, CancelledFinal, SplitOk, Frozen, HasStage, AllOnTheirWay;
    var d, r := SetStage(db, s, Failed), db.stages[s].run;
    NotTerminal(db, s);
    GoesOf(db, r);
    StageMovesOn(db, d, r, s);
    forall o | o in db.runs && o != r ensures Frozen(db, d, o) { SetStageLocal(db, s, Failed, o); }
    OneGoes(db, d, r);
  }

  lemma ReportGoes(cfg: Config, db: Db, ready: seq<(RunId, StageId)>, s: StageId, outcome: ReportOutcome, id: StageId, now: int, t: int)
    requires DeployedSplit.Ok(db, t) && t <= now && AllGo(db)
    ensures AllGo(Report(cfg, db, ready, s, outcome, id))
  {
    hide Numbered, Guarded, Timed, Flow, Grows, SplitOk, AllGo, EnsureAll, FinishReport;
    EnsureGoes(cfg, db, ready);
    EnsureAllKeeps(cfg, db, ready, now, t);
    EnsureAllSound(cfg, db, ready, now, t);
    var d := EnsureAll(cfg, db, ready);
    if Reportable(d, s) {
      if outcome.ReportDone? {
        FinishReportGoes(cfg, d, s, outcome.verdict, id, now);
      } else if s in db.stages {
        EnsureAllOldStages(cfg, db, ready, s);
        ReportRaisedGoes(db, s, t);
      }
    }
  }

  // ---------- any step, any history ----------

  lemma StepGoes(cfg: Config, db: Db, act: Action, now: int, t: int)
    requires SplitScope(cfg) && Invariant(db, t) && SplitOk(db) && t <= now && AllGo(db)
    ensures AllGo(Step(cfg, db, act, now))
  {
    hide Numbered, Guarded, Timed, Ordered, UniqueKinds, CancelledFinal, Unstarted, Grows, SplitOk, SplitScope, Recorded, AllGo;
    hide Submit, Confirm, Cancel, Sweep, Claim, Mutate, Report, Adapt, AdoptOrphan;
    match act
    case SubmitRun(r, c2, awaiting, id) =>
      if !(r in db.runs || id in db.stages) { SubmitGoes(cfg, db, r, c2, awaiting, id); }
    case ConfirmRun(r, id) => if !(r !in db.runs || id in db.stages) { ConfirmGoes(cfg, db, r, id, t); }
    case CancelRun(r) => if r in db.runs { CancelGoes(db, r); }
    case SweepLeases(order) => SweepGoes(db, order, now, t);
    case ClaimStage(order, pick) => ClaimGoes(cfg, db, order, pick, now, t);
    case MutateStage(q, signed, ids, other) =>
      if Unused(db, ids) { RequestGoes(cfg, db, q, signed, ids, other, now, t); }
    case AdaptStage(s, adapted) => AdaptGoes(db, s, adapted, t);
    case AdoptRun(r) => AdoptGoes(db, r);
    case ReportStage(ready, s, reported, id) => ReportGoes(cfg, db, ready, s, reported, id, now, t);
  }

  lemma {:induction false} ExecGoes(cfg: Config, db: Db, trace: seq<Event>, t: int)
    requires SplitScope(cfg) && Invariant(db, t) && SplitOk(db) && AllGo(db) && Timely(trace, t)
    ensures AllGo(Exec(cfg, db, trace))
    decreases |trace|
  {
    hide Numbered, Guarded, Timed, Flow, Grows, SplitOk, SplitScope, Recorded, Step, AllGo;
    if trace != [] {
      var d := Step(cfg, db, trace[0].act, trace[0].now);
      StepGoes(cfg, db, trace[0].act, trace[0].now, t);
      StepKeeps(cfg, db, trace[0].act, trace[0].now, t);
      StepSound(cfg, db, trace[0].act, trace[0].now, t);
      ExecGoes(cfg, d, trace[1..], trace[0].now);
    }
  }

  // ---------- what is left to do ----------

  ghost predicate HasWork(db: Db, r: RunId) {
    exists s :: s in db.stages && db.stages[s].run == r && db.stages[s].state in {Waiting, Queued, Leased, Running}
  }

  ghost predicate HasFailedAdaptation(db: Db, r: RunId) {
    HasStageIn(db, r, PlatformAdaptation, Failed) || HasStageIn(db, r, C2Adaptation, Failed)
  }

  ghost predicate HasFailedReport(db: Db, r: RunId) {
    HasStageIn(db, r, CaseAggregation, Failed) || HasStageIn(db, r, ReportGeneration, Failed)
  }

  /** All adaptations are done, and the aggregation does not exist. */
  ghost predicate Adapted(db: Db, r: RunId) {
    && r in db.runs && HasStageIn(db, r, PlatformAdaptation, Completed)
    && (db.runs[r].c2Enabled ==> HasStageIn(db, r, C2Adaptation, Completed)) && !HasStage(db, r, CaseAggregation)
  }

  lemma StageOfKind(db: Db, r: RunId, k: StageKind) returns (s: StageId)
    requires Refs(db) && Goes(db, r) && HasStage(db, r, k) && db.runs[r].status in {RunQueued, RunRunning, RunCancelling}
    ensures s in db.stages && db.stages[s].run == r && db.stages[s].kind == k && OnItsWay(db, s)
    ensures !HasWork(db, r) ==> db.stages[s].state !in {Waiting, Queued, Leased, Running}
    ensures StageIs(db, s, r, k, db.stages[s].state) && HasStageIn(db, r, k, db.stages[s].state)
  {
    s :| s in db.stages && IsStage(db, s, r, k);
  }

  /** A run that has neither ended nor waits for its confirmation has work, or a stage a worker has failed, or its
      aggregation to come. */
  lemma WhatIsLeft(db: Db, r: RunId)
    requires Refs(db) && Goes(db, r) && db.runs[r].status in {RunQueued, RunRunning, RunCancelling}
    ensures HasWork(db, r) || HasFailedAdaptation(db, r) || HasFailedReport(db, r) || Adapted(db, r)
  {
    hide Goes, HasStage, HasStageIn, HasWork, StageIs;
    if !HasWork(db, r) && !HasFailedReport(db, r) && !HasFailedAdaptation(db, r) {
      var p := FirstIs(db, r);
      if db.runs[r].c2Enabled {
        var c := StageOfKind(db, r, C2Analysis);
        var a := StageOfKind(db, r, C2Adaptation);
      }
      var a := StageOfKind(db, r, PlatformAdaptation);
      if HasStage(db, r, CaseAggregation) {
        var g := StageOfKind(db, r, CaseAggregation);
        var report := StageOfKind(db, r, ReportGeneration);
      }
    }
  }

  lemma FirstIs(db: Db, r: RunId) returns (s: StageId)
    requires Refs(db) && Goes(db, r) && db.runs[r].status in {RunQueued, RunRunning, RunCancelling}
    ensures s in db.stages && db.stages[s].run == r && OnItsWay(db, s) && db.stages[s].kind == PlatformAnalysis
    ensures !HasWork(db, r) ==> db.stages[s].state !in {Waiting, Queued, Leased, Running}
  {
    s := StageOfKind(db, r, PlatformAnalysis);
  }

  /** The report worker's next round creates the aggregation of a running run that is adapted. */
  lemma AggregationComes(cfg: Config, db: Db, r: RunId, id: StageId, verdict: Verdict, now: int)
    requires Refs(db) && Adapted(db, r) && db.runs[r].status == RunRunning && id !in db.stages
    ensures var d := Step(cfg, db, ReportStage([(r, id)], id, ReportDone(verdict), id), now);
      StageIs(d, id, r, CaseAggregation, Queued) && d == db.(stages := d.stages)
  {
    hide HasStageIn, HasStage;
    var ready := [(r, id)];
    var d := EnsureAggregation(cfg, db, r, id);
    assert ready[1..] == [] && EnsureAll(cfg, db, ready) == EnsureAll(cfg, d, []) == d;
  }

  /** A run with a failed adaptation is ended by the adaptation worker's next round that finds nothing queued. */
  lemma OrphanEnds(cfg: Config, db: Db, r: RunId, now: int)
    requires Refs(db) && r in db.runs && HasFailedAdaptation(db, r) && db.runs[r].status != RunTerminal
    ensures var d := Step(cfg, db, AdoptRun(r), now);
      d.runs == db.runs[r := db.runs[r].(status := RunTerminal, result := Some(ResultInconclusive))] && d == db.(runs := d.runs)
  {
    var k := if HasStageIn(db, r, PlatformAdaptation, Failed) then PlatformAdaptation else C2Adaptation;
    var s :| s in db.stages && StageIs(db, s, r, k, Failed);
    assert Orphaned(db, r);
  }

  /** After every history a run that has neither ended nor waits for its confirmation has a stage to work on, a
      failed report, a failed adaptation by which the adaptation worker ends it, or its aggregation to come, which
      the report worker creates unless the run is being cancelled. */
  lemma NothingStalls(cfg: Config, trace: seq<Event>, t: int, r: RunId, id: StageId, verdict: Verdict, now: int)
    requires SplitScope(cfg) && Timely(trace, t)
    requires var db := Exec(cfg, EMPTY, trace);
      r in db.runs && db.runs[r].status !in {RunAwaiting, RunTerminal} && id !in db.stages
    ensures var db := Exec(cfg, EMPTY, trace);
      || HasWork(db, r) || HasFailedReport(db, r)
      || (HasFailedAdaptation(db, r) && Ended(Step(cfg, db, AdoptRun(r), now), r))
      || (db.runs[r].status == RunRunning
          && StageIs(Step(cfg, db, ReportStage([(r, id)], id, ReportDone(verdict), id), now), id, r, CaseAggregation, Queued))
      || (db.runs[r].status == RunCancelling && Adapted(db, r))
  {
    hide Numbered, Guarded, Timed, Flow, SplitScope, Recorded, Exec, Step, Goes, HasWork, HasFailedReport, HasFailedAdaptation, Adapted, Grows;
    var db := Exec(cfg, EMPTY, trace);
    EmptySound(t);
    ExecGoes(cfg, EMPTY, trace, t);
    RunSound(cfg, EMPTY, trace, t);
    GoesOf(db, r);
    assert db.runs[r].status.RunQueued? || db.runs[r].status.RunRunning? || db.runs[r].status.RunCancelling?;
    WhatIsLeft(db, r);
    if HasFailedAdaptation(db, r) {
      OrphanEnds(cfg, db, r, now);
    } else if Adapted(db, r) && !HasWork(db, r) && !HasFailedReport(db, r) {
      if db.runs[r].status == RunRunning { AggregationComes(cfg, db, r, id, verdict, now); } else { NotQueued(db, r); }
    }
  }

  lemma NotQueued(db: Db, r: RunId)
    requires Refs(db) && Goes(db, r) && Adapted(db, r)
    ensures db.runs[r].status != RunQueued
  {
    var s :| s in db.stages && StageIs(db, s, r, PlatformAdaptation, Completed);
  }

  // ---------- a cancelled run that completes ----------

  /** The run is cancelling, and all its stages have ended, its adaptations well. */
  ghost predicate Stalled(db: Db, r: RunId) {
    Adapted(db, r) && db.runs[r].status == RunCancelling && !HasWork(db, r) && !HasFailedAdaptation(db, r)
  }

  lemma StalledIsSettled(db: Db, r: RunId)
    requires Stalled(db, r)
    ensures Settled(db, r)
  {
    hide Adapted;
    assert r in db.runs by { AdaptedExists(db, r); }
    forall s | s in db.stages && db.stages[s].run == r ensures Final(db.stages[s].state) && !(Adaptation(db.stages[s].kind) && db.stages[s].state == Failed) {
      assert StageIs(db, s, r, db.stages[s].kind, db.stages[s].state);
    }
  }

  lemma AdaptedExists(db: Db, r: RunId)
    requires Adapted(db, r)
    ensures r in db.runs
  {}

  lemma FrozenStalled(db: Db, d: Db, r: RunId)
    requires Frozen(db, d, r) && Stalled(db, r)
    ensures Stalled(d, r)
  {
    forall k, state ensures HasStageIn(d, r, k, state) == HasStageIn(db, r, k, state) {
      if s :| s in db.stages && StageIs(db, s, r, k, state) { assert StageIs(d, s, r, k, state); }
      if s :| s in d.stages && StageIs(d, s, r, k, state) { assert StageIs(db, s, r, k, state); }
    }
  }

  /** Nothing moves it any more, over any continuation and for any scope of executors, but another cancellation. */
  lemma {:induction false} StalledStays(cfg: Config, db: Db, trace: seq<Event>, t: int, r: RunId)
    requires Invariant(db, t) && Timely(trace, t) && Stalled(db, r)
    requires forall e :: e in trace ==> e.act != CancelRun(r)
    ensures Frozen(db, Exec(cfg, db, trace), r) && Stalled(Exec(cfg, db, trace), r)
    decreases |trace|
  {
    hide Numbered, Guarded, Timed, Flow, Grows, Recorded, Step, Stalled, Frozen, Settled;
    FrozenSelf(db, r);
    if trace != [] {
      var e := trace[0];
      var d := Step(cfg, db, e.act, e.now);
      assert e in trace && forall f :: f in trace[1..] ==> f in trace;
      StalledIsSettled(db, r);
      StepSettled(cfg, db, e.act, e.now, t, r);
      StepSound(cfg, db, e.act, e.now, t);
      FrozenStalled(db, d, r);
      StalledStays(cfg, d, trace[1..], e.now, r);
      FrozenThrough(db, d, Exec(cfg, d, trace[1..]), r);
    }
  }

  /** Another cancellation ends it. */
  lemma StalledEndsByCancelling(cfg: Config, db: Db, r: RunId, now: int)
    requires Refs(db) && Stalled(db, r)
    ensures Over(Step(cfg, db, CancelRun(r), now), r)
  {
    hide Adapted, HasFailedAdaptation;
    AdaptedExists(db, r);
    assert !SomeActive(db, r);
  }

  /** After every history, a run that is being cancelled and has no work and no stage that failed is stalled; and
      with work left, it is not. */
  lemma StalledExactly(cfg: Config, trace: seq<Event>, t: int, r: RunId)
    requires SplitScope(cfg) && Timely(trace, t)
    requires var db := Exec(cfg, EMPTY, trace); r in db.runs && db.runs[r].status == RunCancelling
    ensures var db := Exec(cfg, EMPTY, trace);
      Stalled(db, r) <==> !HasWork(db, r) && !HasFailedAdaptation(db, r) && !HasFailedReport(db, r)
  {
    hide Numbered, Guarded, Timed, Ordered, Unstarted, CancelledFinal, SplitScope, Recorded, Exec, Goes, HasWork, HasFailedAdaptation, Grows;
    var db := Exec(cfg, EMPTY, trace);
    EmptySound(t);
    ExecGoes(cfg, EMPTY, trace, t);
    RunSound(cfg, EMPTY, trace, t);
    GoesOf(db, r);
    WhatIsLeft(db, r);
    if Stalled(db, r) && HasFailedReport(db, r) { NoReportYet(db, r); }
  }

  lemma NoReportYet(db: Db, r: RunId)
    requires Ordered(db) && Adapted(db, r)
    ensures !HasFailedReport(db, r)
  {}

  // ---------- a history in which that happens ----------

  /** A run without C2 analysis is claimed and cancelled; the executor completes it all the same, and the worker
      adapts it. */
  const STALLING: seq<Event> := [
    At(0, SubmitRun(0, false, false, 0)), ClaimOf(0, 0), At(0, CancelRun(0)), CompletionOf(0, Fresh(1, 9)), At(0, AdaptStage(1, AdaptDone))]

  lemma StallingNext(n: nat)
    requires n < 5
    ensures Exec(WIDE, EMPTY, STALLING[..n + 1]) == Step(WIDE, Exec(WIDE, EMPTY, STALLING[..n]), STALLING[n].act, 0)
  {
    hide Exec, Step;
    assert STALLING[..n + 1] == STALLING[..n] + [STALLING[n]];
    ExecNext(WIDE, EMPTY, STALLING[..n], STALLING[n]);
  }

  const CLAIMED: map<StageId, Stage> := map[0 := StageOf(PlatformAnalysis, Leased)]

  const DONE: map<StageId, Stage> := ANALYSED[1 := StageOf(PlatformAdaptation, Completed)]

  lemma SubmittedShows()
    ensures Shows(Exec(WIDE, EMPTY, STALLING[..1]), Run(RunQueued, None, false), map[0 := StageOf(PlatformAnalysis, Queued)], 0, 0)
  {
    StallingNext(0);
    var d := Exec(WIDE, EMPTY, STALLING[..1]);
    assert STALLING[..0] == [];
    assert d.attempts == EMPTY.attempts && d.leases == EMPTY.leases && d.requests == EMPTY.requests;
  }

  lemma ClaimedShows()
    ensures Shows(Exec(WIDE, EMPTY, STALLING[..2]), Run(RunRunning, None, false), CLAIMED, 1, 0) && Live(Exec(WIDE, EMPTY, STALLING[..2]), 0)
  {
    hide Shows, Step, Exec, Live;
    SubmittedShows();
    StallingNext(1);
    assert map[0 := StageOf(PlatformAnalysis, Queued)][0 := StageOf(PlatformAnalysis, Leased)] == CLAIMED;
    ClaimShows(Exec(WIDE, EMPTY, STALLING[..1]), Run(RunQueued, None, false), map[0 := StageOf(PlatformAnalysis, Queued)], 0, PlatformAnalysis);
  }

  lemma CancelShows(db: Db)
    requires Shows(db, Run(RunRunning, None, false), CLAIMED, 1, 0) && Live(db, 0)
    ensures Shows(Step(WIDE, db, CancelRun(0), 0), Run(RunCancelling, None, false), CLAIMED, 1, 0) && Live(Step(WIDE, db, CancelRun(0), 0), 0)
  {
    hide Shows;
    ShownRows(db, Run(RunRunning, None, false), CLAIMED, 1, 0);
    assert db.stages[0].run == 0 && Active(db.stages[0].state);
    SetRunShows(db, Run(RunRunning, None, false), CLAIMED, 1, 0, RunCancelling);
  }

  lemma AdaptShows(db: Db)
    requires Shows(db, Run(RunCancelling, None, false), ANALYSED[1 := StageOf(PlatformAdaptation, Queued)], 1, 1)
    ensures Shows(Step(WIDE, db, AdaptStage(1, AdaptDone), 0), Run(RunCancelling, None, false), DONE, 1, 1)
  {}

  lemma ShownStalled(db: Db)
    requires Shows(db, Run(RunCancelling, None, false), DONE, 1, 1)
    ensures Stalled(db, 0)
  {
    assert StageIs(db, 1, 0, PlatformAdaptation, Completed);
  }

  /** After that history the run is stalled. */
  lemma CancellationStalls()
    ensures Timely(STALLING, 0) && Stalled(Exec(WIDE, EMPTY, STALLING), 0)
  {
    hide Shows, Step, Exec, Live, Stalled, Timely;
    AllAtZero(STALLING);
    ClaimedShows();
    StallingNext(2);
    CancelShows(Exec(WIDE, EMPTY, STALLING[..2]));
    StallingNext(3);
    FirstCompletion(Exec(WIDE, EMPTY, STALLING[..3]), Run(RunCancelling, None, false));
    StallingNext(4);
    AdaptShows(Exec(WIDE, EMPTY, STALLING[..4]));
    assert STALLING[..5] == STALLING;
    ShownStalled(Exec(WIDE, EMPTY, STALLING));
  }
}
