/** Whole runs of the protocol: any interleaving of executors, scheduler, users and workers, for any set
    of stage types the executors may claim. */
module Protocol {
  import opened Tables
  import opened Handlers
  import opened LeaseSafety
  import opened Workflow

  datatype Action =
    | SubmitRun(run: RunId, c2: bool, awaiting: bool, id: StageId)
    | ConfirmRun(run: RunId, id: StageId)
    | CancelRun(run: RunId)
    | SweepLeases(order: seq<LeaseId>)
    | ClaimStage(order: seq<LeaseId>, pick: Option<GrantIds>)
    | MutateStage(request: Request, signed: bool, ids: Fresh, other: OtherOutcome)
    | AdaptStage(stage: StageId, adapted: AdaptOutcome)
    | AdoptRun(run: RunId)
    | ReportStage(ready: seq<(RunId, StageId)>, stage: StageId, reported: ReportOutcome, id: StageId)

  /** One atomic step. An action that names a missing row or a used id does nothing. */
  function Step(cfg: Config, db: Db, act: Action, now: int): (d: Db)
    requires Refs(db)
    ensures Refs(d)
  {
    match act
    case SubmitRun(r, c2, awaiting, id) =>
      if r in db.runs || id in db.stages then db else Submit(cfg, db, r, c2, awaiting, id)
    case ConfirmRun(r, id) => if r !in db.runs || id in db.stages then db else Confirm(cfg, db, r, id)
    case CancelRun(r) => if r !in db.runs then db else Cancel(db, r)
    case SweepLeases(order) => Sweep(db, order, now)
    case ClaimStage(order, pick) => Claim(cfg, db, order, pick, now)
    case MutateStage(q, signed, ids, other) =>
      if !Unused(db, ids) then db else Mutate(cfg, db, q, signed, ids, other, now).0
    case AdaptStage(s, adapted) => Adapt(db, s, adapted)
    case AdoptRun(r) => AdoptOrphan(db, r)
    case ReportStage(ready, s, reported, id) => Report(cfg, db, ready, s, reported, id)
  }

  datatype Event = At(now: int, act: Action)

  function Exec(cfg: Config, db: Db, trace: seq<Event>): (d: Db)
    requires Refs(db)
    ensures Refs(d)
    decreases |trace|
  {
    if trace == [] then db else Exec(cfg, Step(cfg, db, trace[0].act, trace[0].now), trace[1..])
  }

  /** The clock never goes back. */
  predicate Timely(trace: seq<Event>, t: int)
    decreases |trace|
  {
    trace == [] || (t <= trace[0].now && Timely(trace[1..], trace[0].now))
  }

  function EndOf(trace: seq<Event>, t: int): int {
    if trace == [] then t else trace[|trace| - 1].now
  }

  /** Every committed record of the four stage endpoints holds its answer. */
  ghost predicate Recorded(db: Db) {
    forall k :: k in db.requests && !db.requests[k].message.call.OtherCall? ==> db.requests[k].response.Some?
  }

  // ---------- every handler keeps the invariants ----------

  lemma SoundLater(db: Db, now: int, t: int)
    requires Sound(db, t) && t <= now
    ensures Sound(db, now) && Grows(db, db)
  {
    hide Numbered, Guarded, Timed, Flow, StagesKept, AttemptsKept, LeasesKept, SameCounts;
    assert Grows(db, db) by { GrowsSelf(db); }
    TimedLater(db, now, t);
  }

  lemma GrowsSelf(db: Db)
    ensures Grows(db, db)
  {}

  lemma TimedLater(db: Db, now: int, t: int)
    requires Refs(db) && Timed(db, t) && t <= now
    ensures Timed(db, now)
  {
    hide Scheduled, Spaced;
  }

  lemma FinishCancellationSound(db: Db, r: RunId, s: StageId, now: int)
    requires Sound(db, now) && r in db.runs && s in db.stages && !Active(db.stages[s].state)
    ensures var d := FinishCancellation(db, r, s); Sound(d, now) && Grows(db, d)
  {
    hide Numbered, Guarded, Timed, Flow, Grows, SameCounts;
    if OtherActive(db, r, s) {
      SoundLater(db, now, now);
    } else {
      EndRunSound(db, r, now, now);
    }
  }

  lemma ExpireAttemptSound(db: Db, l: LeaseId, now: int, t: int)
    requires Sound(db, t) && t <= now && Live(db, l)
    ensures var d := ExpireAttempt(db, l, now); Sound(d, now) && Grows(db, d)
  {
    hide Numbered, Guarded, Timed, Flow, Grows, SameCounts, FinishCancellation;
    var s := db.leases[l].stage;
    var r := db.stages[s].run;
    if db.runs[r].status == RunCancelling {
      var d := EndLease(db, l, now, AttemptCancelled, Cancelled, Unscheduled(db, l));
      EndLeaseSound(db, l, now, AttemptCancelled, Cancelled, Unscheduled(db, l), t);
      FinishCancellationSound(d, r, s, now);
      GrowsThrough(db, d, FinishCancellation(d, r, s));
    } else if Count(db, s) < db.stages[s].maxAttempts {
      EndLeaseSound(db, l, now, AttemptExpired, Queued, Some(now + Backoff(Count(db, s))), t);
    } else {
      FailRunSound(db, l, now, AttemptExpired, t);
    }
  }

  /** A stage that fails for good ends its run. */
  lemma FailRunSound(db: Db, l: LeaseId, now: int, ended: AttemptState, t: int)
    requires Sound(db, t) && t <= now && Live(db, l) && !Open(ended)
    ensures var stage := db.stages[db.leases[l].stage];
      var d := SetRun(EndLease(db, l, now, ended, Failed, Unscheduled(db, l)),
                      stage.run, RunTerminal, Some(FailureResult(stage.kind)));
      Sound(d, now) && Grows(db, d)
  {
    hide Numbered, Guarded, Timed, Flow, Grows, SameCounts;
    var stage := db.stages[db.leases[l].stage];
    var d := EndLease(db, l, now, ended, Failed, Unscheduled(db, l));
    EndLeaseSound(db, l, now, ended, Failed, Unscheduled(db, l), t);
    SetRunSound(d, stage.run, RunTerminal, Some(FailureResult(stage.kind)), now, now);
    GrowsThrough(db, d, SetRun(d, stage.run, RunTerminal, Some(FailureResult(stage.kind))));
  }

  lemma SweepSound(db: Db, order: seq<LeaseId>, now: int, t: int)
    requires Sound(db, t) && t <= now
    ensures var d := Sweep(db, order, now); Sound(d, now) && Grows(db, d) && d.requests == db.requests
    decreases |order|
  {
    hide Numbered, Guarded, Timed, Flow, Grows, ExpireAttempt, Overdue;
    SoundLater(db, now, t);
    if order != [] {
      var d := SweepOne(db, order[0], now);
      if Live(db, order[0]) && Overdue(db, order[0], now) {
        ExpireAttemptSound(db, order[0], now, t);
        ExpireKeepsRequests(db, order[0], now);
      }
      SweepSound(d, order[1..], now, now);
      GrowsThrough(db, d, Sweep(d, order[1..], now));
    }
  }

  lemma ExpireKeepsRequests(db: Db, l: LeaseId, now: int)
    requires Refs(db) && l in db.leases
    ensures ExpireAttempt(db, l, now).requests == db.requests
  {}

  lemma ClaimSound(cfg: Config, db: Db, order: seq<LeaseId>, pick: Option<GrantIds>, now: int, t: int)
    requires Sound(db, t) && t <= now
    ensures var d := Claim(cfg, db, order, pick, now); Sound(d, now) && Grows(db, d) && d.requests == db.requests
  {
    hide Numbered, Guarded, Timed, Flow, Grows, Sweep, SameCounts, Count;
    SweepSound(db, order, now, t);
    var d := Sweep(db, order, now);
    if pick.Some? && Grantable(cfg, d, pick.value, now) {
      var g := Grant(cfg, d, pick.value, now);
      var r := d.stages[pick.value.stage].run;
      GrantSound(cfg, d, pick.value, now, now);
      SetRunSound(g, r, RunRunning, d.runs[r].result, now, now);
      GrowsThrough(db, d, g);
      GrowsThrough(db, g, SetRun(g, r, RunRunning, d.runs[r].result));
    }
  }

  lemma CreateNextSound(cfg: Config, db: Db, id: StageId, r: RunId, k: StageKind, now: int)
    requires Sound(db, now) && r in db.runs && id !in db.stages && Reached(db, r, k)
    requires db.runs[r].status != RunAwaiting && !EndedCancelled(db.runs[r])
    ensures var d := CreateNext(cfg, db, id, r, k);
      Sound(d, now) && Grows(db, d) && d.requests == db.requests && d.runs == db.runs
  {
    hide Numbered, Guarded, Timed, Flow, Grows, SameCounts, Reached, HasStage;
    SoundLater(db, now, now);
    if !HasStage(db, r, k) { AddStageSound(cfg, db, id, r, k, now, now); }
  }

  /** Two adaptation stages of one run are one of each kind. */
  lemma BothAdaptations(db: Db, r: RunId)
    requires UniqueKinds(db) && |Adaptations(db, r)| == 2
    requires forall a :: a in Adaptations(db, r) ==> db.stages[a].state == Completed
    ensures HasStageIn(db, r, PlatformAdaptation, Completed) && HasStageIn(db, r, C2Adaptation, Completed)
  {
    var both := Adaptations(db, r);
    var a :| a in both;
    assert |both - {a}| == 1;
    var b :| b in both - {a};
    assert !SameKind(db, a, b);
    assert StageIs(db, a, r, db.stages[a].kind, Completed) && StageIs(db, b, r, db.stages[b].kind, Completed);
  }

  /** What a finished stage lets the workflow create next has been reached. */
  lemma AdvanceReaches(db: Db, s: StageId)
    requires Refs(db) && UniqueKinds(db) && Ordered(db) && s in db.stages && Completion(db.stages[s].state)
    requires db.stages[s].kind.PlatformAnalysis? ==> !db.stages[s].state.Unsupported?
    ensures var r, k := db.stages[s].run, db.stages[s].kind;
      && (k.PlatformAnalysis? ==> Reached(db, r, if db.runs[r].c2Enabled then C2Analysis else PlatformAdaptation))
      && (k.C2Analysis? ==> Reached(db, r, PlatformAdaptation) && Reached(db, r, C2Adaptation))
      && (k.PlatformAdaptation? && !db.runs[r].c2Enabled ==> Reached(db, r, CaseAggregation))
      && ((&& Adaptation(k) && !(k.PlatformAdaptation? && !db.runs[r].c2Enabled) && |Adaptations(db, r)| == 2
           && (forall a :: a in Adaptations(db, r) ==> db.stages[a].state == Completed))
          ==> Reached(db, r, CaseAggregation))
      && (k.CaseAggregation? ==> Reached(db, r, ReportGeneration))
  {
    var r, k := db.stages[s].run, db.stages[s].kind;
    assert Reached(db, r, k);
    assert StageIs(db, s, r, k, db.stages[s].state);
    if |Adaptations(db, r)| == 2 && forall a :: a in Adaptations(db, r) ==> db.stages[a].state == Completed {
      BothAdaptations(db, r);
    }
  }

  lemma AdvanceSound(cfg: Config, db: Db, s: StageId, ids: Fresh, now: int)
    requires Sound(db, now) && s in db.stages && Unused(db, ids) && Completion(db.stages[s].state)
    requires db.stages[s].kind.PlatformAnalysis? ==> !db.stages[s].state.Unsupported?
    requires db.runs[db.stages[s].run].status != RunAwaiting && !EndedCancelled(db.runs[db.stages[s].run])
    ensures var d := Advance(cfg, db, s, ids); Sound(d, now) && Grows(db, d) && d.requests == db.requests
  {
    hide Numbered, Guarded, Timed, UniqueKinds, Ordered, Unstarted, CancelledFinal, Grows, SameCounts, Reached, HasStage, CreateNext;
    AdvanceReaches(db, s);
    SoundLater(db, now, now);
    var r, k := db.stages[s].run, db.stages[s].kind;
    if k.PlatformAnalysis? {
      CreateNextSound(cfg, db, ids.first, r, if db.runs[r].c2Enabled then C2Analysis else PlatformAdaptation, now);
    } else if k.C2Analysis? {
      var d := CreateNext(cfg, db, ids.first, r, PlatformAdaptation);
      CreateNextSound(cfg, db, ids.first, r, PlatformAdaptation, now);
      GrowsReach(db, d, r, C2Adaptation);
      CreateNextStages(cfg, db, ids.first, r, PlatformAdaptation);
      CreateNextSound(cfg, d, ids.second, r, C2Adaptation, now);
      GrowsThrough(db, d, CreateNext(cfg, d, ids.second, r, C2Adaptation));
    } else if k.CaseAggregation? {
      CreateNextSound(cfg, db, ids.first, r, ReportGeneration, now);
    } else if k.ReportGeneration? {
      SetRunSound(db, r, RunTerminal, Some(ResultCompleted), now, now);
    } else if Advance(cfg, db, s, ids) != db {
      CreateNextSound(cfg, db, ids.first, r, CaseAggregation, now);
    }
  }

  lemma GrowsReach(db: Db, d: Db, r: RunId, k: StageKind)
    requires Grows(db, d) && Reached(db, r, k)
    ensures Reached(d, r, k)
  {
    hide StagesKept, RunsKept, AttemptsKept, LeasesKept, Reached;
    ReachedKept(db, d, r, k);
  }

  lemma CreateNextStages(cfg: Config, db: Db, id: StageId, r: RunId, k: StageKind)
    requires Refs(db) && r in db.runs && id !in db.stages
    ensures var d := CreateNext(cfg, db, id, r, k); d.stages.Keys <= db.stages.Keys + {id} && d.runs == db.runs
  {}

  lemma HeartbeatSound(cfg: Config, db: Db, l: LeaseId, now: int, t: int)
    requires Sound(db, t) && t <= now && Live(db, l)
    ensures var d := Heartbeat(cfg, db, l, now).0; Sound(d, now) && Grows(db, d) && d.requests == db.requests
  {
    hide Numbered, Guarded, Timed, Flow, Grows, SameCounts, ExpireAttempt;
    if db.runs[db.stages[db.leases[l].stage].run].status == RunCancelling {
      TouchSound(cfg, db, l, now, false, t);
    } else if Deadline(db, l) <= now {
      ExpireAttemptSound(db, l, now, t);
      ExpireKeepsRequests(db, l, now);
    } else {
      TouchSound(cfg, db, l, now, true, t);
    }
  }

  lemma CompleteSound(cfg: Config, db: Db, l: LeaseId, outcome: StageState, ids: Fresh, now: int, t: int)
    requires Sound(db, t) && t <= now && Live(db, l) && Completion(outcome) && Unused(db, ids)
    ensures var d := Complete(cfg, db, l, outcome, ids, now).0;
      Sound(d, now) && Grows(db, d) && d.requests == db.requests
  {
    hide Numbered, Guarded, Timed, UniqueKinds, Ordered, CancelledFinal, Grows, SameCounts, Advance;
    var s := db.leases[l].stage;
    var r := db.stages[s].run;
    var d := EndLease(db, l, now, AttemptCompleted, outcome, Unscheduled(db, l));
    EndLeaseSound(db, l, now, AttemptCompleted, outcome, Unscheduled(db, l), t);
    LiveLease(db, l);
    EndLeaseCancelled(db, l, now, AttemptCompleted, outcome, Unscheduled(db, l));
    if outcome.Unsupported? && db.stages[s].kind.PlatformAnalysis? {
      SetRunSound(d, r, RunTerminal, Some(ResultUnsupported), now, now);
      GrowsThrough(db, d, SetRun(d, r, RunTerminal, Some(ResultUnsupported)));
    } else {
      var e := if outcome.Partial? then SetRun(d, r, db.runs[r].status, Some(ResultPartial)) else d;
      if outcome.Partial? {
        SetRunSound(d, r, db.runs[r].status, Some(ResultPartial), now, now);
        GrowsThrough(db, d, e);
      }
      AdvanceSound(cfg, e, s, ids, now);
      GrowsThrough(db, e, Advance(cfg, e, s, ids));
    }
  }

  lemma FailSound(db: Db, l: LeaseId, retryable: bool, now: int, t: int)
    requires Sound(db, t) && t <= now && Live(db, l)
    ensures var d := Fail(db, l, retryable, now).0; Sound(d, now) && Grows(db, d) && d.requests == db.requests
  {
    hide Numbered, Guarded, Timed, Flow, Grows, SameCounts;
    var s := db.leases[l].stage;
    if retryable && Count(db, s) < db.stages[s].maxAttempts {
      EndLeaseSound(db, l, now, AttemptFailed, Queued, Some(now + Backoff(Count(db, s))), t);
    } else {
      FailRunSound(db, l, now, AttemptFailed, t);
    }
  }

  lemma AcknowledgeSound(db: Db, l: LeaseId, now: int, t: int)
    requires Sound(db, t) && t <= now && Live(db, l)
    ensures var d := Acknowledge(db, l, now).0; Sound(d, now) && Grows(db, d) && d.requests == db.requests
  {
    hide Numbered, Guarded, Timed, Flow, Grows, SameCounts, OtherActive;
    var s := db.leases[l].stage;
    var r := db.stages[s].run;
    var d := EndLease(db, l, now, AttemptCancelled, Cancelled, Unscheduled(db, l));
    EndLeaseSound(db, l, now, AttemptCancelled, Cancelled, Unscheduled(db, l), t);
    FinishCancellationSound(d, r, s, now);
    GrowsThrough(db, d, FinishCancellation(d, r, s));
  }

  /** The work of an endpoint runs on a live lease, unless the endpoint has no effect on these tables. */
  lemma PerformSound(cfg: Config, db: Db, q: Request, ids: Fresh, other: OtherOutcome, now: int, t: int)
    requires Sound(db, t) && t <= now && q.message.lease in db.leases && Unused(db, ids)
    requires !q.message.call.OtherCall? ==> Live(db, q.message.lease)
    ensures var p := Perform(cfg, db, q, ids, other, now);
      && Sound(p.0, now) && Grows(db, p.0) && p.0.requests == db.requests
      && (p.2 == 200 && !q.message.call.OtherCall? ==> p.1.Some?)
  {
    hide Numbered, Guarded, Timed, Flow, Grows, SameCounts, Heartbeat, Complete, Fail, Acknowledge;
    SoundLater(db, now, t);
    var l := q.message.lease;
    match q.message.call
    case HeartbeatCall => HeartbeatSound(cfg, db, l, now, t);
    case CompleteCall(outcome) =>
      if outcome.Some? && Completion(outcome.value) { CompleteSound(cfg, db, l, outcome.value, ids, now, t); }
    case FailCall(retryable) => FailSound(db, l, retryable, now, t);
    case AckCall => AcknowledgeSound(db, l, now, t);
    case OtherCall(_) =>
  }

  lemma RecordSound(db: Db, requests: map<(ExecutorId, nat), Record>, now: int)
    requires Sound(db, now)
    ensures Sound(db.(requests := requests), now) && Grows(db, db.(requests := requests))
  {
    hide Numbered, Guarded, Timed, UniqueKinds, Ordered, Unstarted, SameCounts, AttemptsKept, LeasesKept, StagesKept, RunsKept;
    assert CancelledFinal(db.(requests := requests));
    RecordStagesOnly(db, requests);
    StagesOnlySound(db, db.(requests := requests), now, now);
  }

  lemma RecordStagesOnly(db: Db, requests: map<(ExecutorId, nat), Record>)
    requires Refs(db)
    ensures StagesOnly(db, db.(requests := requests)) && StatusesKept(db, db.(requests := requests))
  {}

  /** A mutation either changes nothing or reaches its endpoint, and then on a live lease: a repeat is
      answered from its record, because every record of these endpoints holds an answer. */
  lemma MutateReaches(cfg: Config, db: Db, q: Request, signed: bool, ids: Fresh, other: OtherOutcome, now: int)
    requires Refs(db) && Recorded(db) && Unused(db, ids)
    ensures var d := Mutate(cfg, db, q, signed, ids, other, now).0;
      || d == db
      || (&& q.message.lease in db.leases && (q.message.call.OtherCall? || Live(db, q.message.lease))
          && var p := Perform(cfg, db, q, ids, other, now);
             p.2 == 200 && d == p.0.(requests := p.0.requests[KeyOf(q) := Record(q.message, p.1)]))
  {
    hide Refs, NonceUsed, Perform;
  }

  lemma MutateSound(cfg: Config, db: Db, q: Request, signed: bool, ids: Fresh, other: OtherOutcome, now: int, t: int)
    requires Sound(db, t) && t <= now && Recorded(db) && Unused(db, ids)
    ensures var d := Mutate(cfg, db, q, signed, ids, other, now).0; Sound(d, now) && Grows(db, d) && Recorded(d)
  {
    hide Numbered, Guarded, Timed, Flow, Grows, Perform, Mutate;
    SoundLater(db, now, t);
    MutateReaches(cfg, db, q, signed, ids, other, now);
    var d := Mutate(cfg, db, q, signed, ids, other, now).0;
    if d != db {
      PerformSound(cfg, db, q, ids, other, now, t);
      var p := Perform(cfg, db, q, ids, other, now);
      RecordSound(p.0, d.requests, now);
      GrowsThrough(db, p.0, d);
    }
  }

  lemma SubmitSound(cfg: Config, db: Db, r: RunId, c2: bool, awaiting: bool, id: StageId, now: int, t: int)
    requires Sound(db, t) && t <= now && r !in db.runs && id !in db.stages
    ensures var d := Submit(cfg, db, r, c2, awaiting, id); Sound(d, now) && Grows(db, d)
  {
    hide Numbered, Guarded, Timed, Flow, Grows, SameCounts;
    var d := db.(runs := db.runs[r := Run(if awaiting then RunAwaiting else RunQueued, None, c2)]);
    NewRunSound(db, r, d.runs[r], now, t);
    if !awaiting {
      AddStageSound(cfg, d, id, r, PlatformAnalysis, now, now);
      GrowsThrough(db, d, AddStage(cfg, d, id, r, PlatformAnalysis));
    }
  }

  lemma NewRunSound(db: Db, r: RunId, run: Run, now: int, t: int)
    requires Sound(db, t) && t <= now && r !in db.runs
    ensures var d := db.(runs := db.runs[r := run]); Sound(d, now) && Grows(db, d)
  {
    hide Numbered, Guarded, Timed, Ordered, UniqueKinds, Grows, SameCounts;
    var d := db.(runs := db.runs[r := run]);
    StagesOnlySafe(db, d, now, t);
    NewRunFlow(db, r, run);
  }

  lemma NewRunFlow(db: Db, r: RunId, run: Run)
    requires Refs(db) && UniqueKinds(db) && Ordered(db) && r !in db.runs
    ensures var d := db.(runs := db.runs[r := run]); UniqueKinds(d) && Ordered(d)
  {
    hide Reached;
    var d := db.(runs := db.runs[r := run]);
    assert forall s, o :: SameKind(d, s, o) ==> SameKind(db, s, o);
    forall s | s in d.stages ensures Reached(d, d.stages[s].run, d.stages[s].kind) {
      ReachedKept(db, d, d.stages[s].run, d.stages[s].kind);
    }
  }

  lemma ConfirmSound(cfg: Config, db: Db, r: RunId, id: StageId, now: int, t: int)
    requires Sound(db, t) && t <= now && r in db.runs && id !in db.stages
    ensures var d := Confirm(cfg, db, r, id); Sound(d, now) && Grows(db, d)
  {
    hide Numbered, Guarded, Timed, UniqueKinds, Ordered, CancelledFinal, Grows, SameCounts;
    SoundLater(db, now, t);
    if db.runs[r].status == RunAwaiting {
      var d := SetRun(db, r, RunQueued, db.runs[r].result);
      SetRunSound(db, r, RunQueued, db.runs[r].result, now, t);
      AddStageSound(cfg, d, id, r, PlatformAnalysis, now, now);
      GrowsThrough(db, d, AddStage(cfg, d, id, r, PlatformAnalysis));
    }
  }

  lemma CancelSound(db: Db, r: RunId, now: int, t: int)
    requires Sound(db, t) && t <= now && r in db.runs
    ensures var d := Cancel(db, r); Sound(d, now) && Grows(db, d)
  {
    hide Numbered, Guarded, Timed, Flow, Grows, SameCounts, SomeActive;
    SoundLater(db, now, t);
    if db.runs[r].status != RunTerminal {
      if SomeActive(db, r) {
        SetRunSound(db, r, RunCancelling, db.runs[r].result, now, t);
      } else {
        EndRunSound(db, r, now, t);
        assert CancelPending(SetRun(db, r, RunTerminal, Some(ResultCancelled)), r)
          == SetRun(CancelPending(db, r), r, RunTerminal, Some(ResultCancelled));
      }
    }
  }

  lemma AdaptSound(db: Db, s: StageId, outcome: AdaptOutcome, now: int, t: int)
    requires Sound(db, t) && t <= now
    ensures var d := Adapt(db, s, outcome); Sound(d, now) && Grows(db, d)
  {
    hide Numbered, Guarded, Timed, Flow, Grows, SameCounts;
    SoundLater(db, now, t);
    if s in db.stages && Adaptation(db.stages[s].kind) && db.stages[s].state == Queued {
      SetStageSound(db, s, Completed, now, t);
      SetStageSound(db, s, Failed, now, t);
      var d := SetStage(db, s, Failed);
      SetRunSound(d, db.stages[s].run, RunTerminal, Some(ResultInconclusive), now, now);
      GrowsThrough(db, d, SetRun(d, db.stages[s].run, RunTerminal, Some(ResultInconclusive)));
    }
  }

  lemma AdoptOrphanSound(db: Db, r: RunId, now: int, t: int)
    requires Sound(db, t) && t <= now
    ensures var d := AdoptOrphan(db, r); Sound(d, now) && Grows(db, d)
  {
    hide Numbered, Guarded, Timed, Flow, Grows, SameCounts;
    SoundLater(db, now, t);
    if Orphaned(db, r) { SetRunSound(db, r, RunTerminal, Some(ResultInconclusive), now, t); }
  }

  lemma EnsureAllSound(cfg: Config, db: Db, ready: seq<(RunId, StageId)>, now: int, t: int)
    requires Sound(db, t) && t <= now
    ensures var d := EnsureAll(cfg, db, ready); Sound(d, now) && Grows(db, d) && d.runs == db.runs && d.requests == db.requests
    decreases |ready|
  {
    hide Numbered, Guarded, Timed, Flow, Grows, SameCounts;
    SoundLater(db, now, t);
    if ready != [] {
      var d := EnsureAggregation(cfg, db, ready[0].0, ready[0].1);
      EnsureAggregationSound(cfg, db, ready[0].0, ready[0].1, now, t);
      EnsureAllSound(cfg, d, ready[1..], now, now);
      GrowsThrough(db, d, EnsureAll(cfg, d, ready[1..]));
    }
  }

  lemma EnsureAggregationSound(cfg: Config, db: Db, r: RunId, id: StageId, now: int, t: int)
    requires Sound(db, t) && t <= now
    ensures var d := EnsureAggregation(cfg, db, r, id);
      Sound(d, now) && Grows(db, d) && d.runs == db.runs && d.requests == db.requests
  {
    hide Numbered, Guarded, Timed, Flow, Grows, SameCounts, HasStageIn, HasStage;
    SoundLater(db, now, t);
    if EnsureAggregation(cfg, db, r, id) != db { AddStageSound(cfg, db, id, r, CaseAggregation, now, t); }
  }

  lemma ReportSound(cfg: Config, db: Db, ready: seq<(RunId, StageId)>, s: StageId, outcome: ReportOutcome, id: StageId, now: int, t: int)
    requires Sound(db, t) && t <= now
    ensures var d := Report(cfg, db, ready, s, outcome, id); Sound(d, now) && Grows(db, d)
  {
    hide Numbered, Guarded, Timed, Flow, StagesKept, AttemptsKept, LeasesKept, RunsKept, SameCounts, EnsureAll, FinishReport;
    SoundLater(db, now, t);
    EnsureAllSound(cfg, db, ready, now, t);
    var d := EnsureAll(cfg, db, ready);
    if Reportable(d, s) {
      if outcome.ReportRaised? {
        if s in db.stages { ReportRaisedSound(cfg, db, ready, s, now, t); }
      } else {
        FinishReportSound(cfg, d, s, outcome.verdict, id, now);
        GrowsThrough(db, d, FinishReport(cfg, d, s, outcome.verdict, id));
      }
    }
  }

  lemma ReportRaisedSound(cfg: Config, db: Db, ready: seq<(RunId, StageId)>, s: StageId, now: int, t: int)
    requires Sound(db, t) && t <= now && s in db.stages && Reportable(EnsureAll(cfg, db, ready), s)
    ensures Sound(SetStage(db, s, Failed), now) && Grows(db, SetStage(db, s, Failed))
  {
    hide Numbered, Guarded, Timed, Flow, Grows, SameCounts;
    EnsureAllOldStages(cfg, db, ready, s);
    SetStageSound(db, s, Failed, now, t);
  }

  lemma EnsureAllOldStages(cfg: Config, db: Db, ready: seq<(RunId, StageId)>, s: StageId)
    requires Refs(db) && s in db.stages
    ensures s in EnsureAll(cfg, db, ready).stages && EnsureAll(cfg, db, ready).stages[s] == db.stages[s]
    decreases |ready|
  {
    if ready != [] { EnsureAllOldStages(cfg, EnsureAggregation(cfg, db, ready[0].0, ready[0].1), ready[1..], s); }
  }

  lemma FinishReportSound(cfg: Config, d: Db, s: StageId, verdict: Verdict, id: StageId, now: int)
    requires Sound(d, now) && Reportable(d, s)
    ensures var e := FinishReport(cfg, d, s, verdict, id); Sound(e, now) && Grows(d, e)
  {
    hide Numbered, Guarded, Timed, UniqueKinds, Ordered, Grows, SameCounts, CreateNext;
    SoundLater(d, now, now);
    var r := d.stages[s].run;
    var done := SetStage(d, s, Completed);
    SetStageSound(d, s, Completed, now, now);
    if d.stages[s].kind.ReportGeneration? {
      var result := Some(ReportResult(d.runs[r].result, verdict));
      SetRunSound(done, r, RunTerminal, result, now, now);
      GrowsThrough(d, done, SetRun(done, r, RunTerminal, result));
    } else if id !in d.stages {
      assert StageIs(done, s, r, CaseAggregation, Completed);
      CreateNextSound(cfg, done, id, r, ReportGeneration, now);
      GrowsThrough(d, done, CreateNext(cfg, done, id, r, ReportGeneration));
    }
  }

  // ---------- any step, any run ----------

  ghost predicate Invariant(db: Db, t: int) { Sound(db, t) && Recorded(db) }

  lemma StepSound(cfg: Config, db: Db, act: Action, now: int, t: int)
    requires Invariant(db, t) && t <= now
    ensures var d := Step(cfg, db, act, now); Invariant(d, now) && Grows(db, d)
  {
    hide Numbered, Guarded, Timed, Flow, Grows, Sweep, Claim, Mutate, Submit, Confirm, Cancel, Adapt, AdoptOrphan, Report;
    SoundLater(db, now, t);
    if !act.MutateStage? { StepRecords(cfg, db, act, now, t); }
    match act
    case SubmitRun(r, c2, awaiting, id) =>
      if !(r in db.runs || id in db.stages) { SubmitSound(cfg, db, r, c2, awaiting, id, now, t); }
    case ConfirmRun(r, id) => if !(r !in db.runs || id in db.stages) { ConfirmSound(cfg, db, r, id, now, t); }
    case CancelRun(r) => if r in db.runs { CancelSound(db, r, now, t); }
    case SweepLeases(order) => SweepSound(db, order, now, t);
    case ClaimStage(order, pick) => ClaimSound(cfg, db, order, pick, now, t);
    case MutateStage(q, signed, ids, other) =>
      if Unused(db, ids) { MutateSound(cfg, db, q, signed, ids, other, now, t); }
    case AdaptStage(s, adapted) => AdaptSound(db, s, adapted, now, t);
    case AdoptRun(r) => AdoptOrphanSound(db, r, now, t);
    case ReportStage(ready, s, reported, id) => ReportSound(cfg, db, ready, s, reported, id, now, t);
  }

  lemma ReportRecords(cfg: Config, db: Db, ready: seq<(RunId, StageId)>, s: StageId, outcome: ReportOutcome, id: StageId, now: int, t: int)
    requires Sound(db, t) && t <= now
    ensures Report(cfg, db, ready, s, outcome, id).requests == db.requests
  {
    hide Numbered, Guarded, Timed, Flow, Grows, EnsureAll, HasStage;
    EnsureAllSound(cfg, db, ready, now, t);
  }

  lemma StepRecords(cfg: Config, db: Db, act: Action, now: int, t: int)
    requires Sound(db, t) && t <= now && !act.MutateStage?
    ensures Step(cfg, db, act, now).requests == db.requests
  {
    hide Numbered, Guarded, Timed, Flow, Grows, Sweep, EnsureAll, SomeActive, OtherActive, HasStage, Count, Report;
    match act
    case SweepLeases(order) => SweepSound(db, order, now, t);
    case ClaimStage(order, pick) => SweepSound(db, order, now, t);
    case ReportStage(ready, s, reported, id) => ReportRecords(cfg, db, ready, s, reported, id, now, t);
    case _ =>
  }

  /** Every interleaving, from any state that satisfies the invariant. */
  lemma {:induction false} RunSound(cfg: Config, db: Db, trace: seq<Event>, t: int)
    requires Invariant(db, t) && Timely(trace, t)
    ensures var d := Exec(cfg, db, trace); Invariant(d, EndOf(trace, t)) && Grows(db, d)
    decreases |trace|
  {
    hide Numbered, Guarded, Timed, Flow, Recorded, Grows, Step;
    GrowsSelf(db);
    if trace != [] {
      var d := Step(cfg, db, trace[0].act, trace[0].now);
      StepSound(cfg, db, trace[0].act, trace[0].now, t);
      RunSound(cfg, d, trace[1..], trace[0].now);
      GrowsThrough(db, d, Exec(cfg, d, trace[1..]));
    }
  }

  lemma EmptySound(t: int)
    ensures Invariant(EMPTY, t)
  {}
}
