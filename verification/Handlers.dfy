/** What each handler does to the tables, as functions: one call is one database transaction with one
    reading of the clock. They are built from a few row updates (`EndLease`, `Grant`, `Touch`,
    `SetStage`, `SetRun`, `AddStage`), and every invariant is proved update by update. */
module Handlers {
  import opened Tables

  // ---------- row updates ----------

  /** Release a lease, close its attempt and move its stage; `next` is when a requeued stage may run. */
  function EndLease(db: Db, l: LeaseId, now: int, ended: AttemptState, state: StageState, next: Option<int>): (d: Db)
    requires Refs(db) && l in db.leases
    ensures Refs(d)
  {
    var lease := db.leases[l];
    db.(leases := db.leases[l := lease.(releasedAt := Some(now))],
        attempts := db.attempts[lease.attempt := db.attempts[lease.attempt].(state := ended, endedAt := Some(now))],
        stages := db.stages[lease.stage := db.stages[lease.stage].(state := state, nextAttemptAt := next)])
  }

  /** When the stage of a lease may run next if the handler does not requeue it: the column is not written. */
  function Unscheduled(db: Db, l: LeaseId): Option<int>
    requires Refs(db) && l in db.leases
  {
    db.stages[db.leases[l].stage].nextAttemptAt
  }

  datatype GrantIds = GrantIds(stage: StageId, attempt: AttemptId, lease: LeaseId, executor: ExecutorId, token: nat)

  predicate Grantable(cfg: Config, db: Db, g: GrantIds, now: int) {
    && g.stage in db.stages && g.attempt !in db.attempts && g.lease !in db.leases
    && db.stages[g.stage].state == Queued
    && db.stages[g.stage].kind in cfg.claimable
    && (db.stages[g.stage].nextAttemptAt.Some? ==> db.stages[g.stage].nextAttemptAt.value <= now)
  }

  function Grant(cfg: Config, db: Db, g: GrantIds, now: int): (d: Db)
    requires Refs(db) && Grantable(cfg, db, g, now)
    ensures Refs(d)
  {
    db.(attempts := db.attempts[g.attempt :=
            Attempt(g.stage, g.executor, Count(db, g.stage) + 1, AttemptLeased, now, None)],
        leases := db.leases[g.lease := Lease(g.stage, g.attempt, g.executor, g.token, now + cfg.leaseTtl, None)],
        stages := db.stages[g.stage := db.stages[g.stage].(state := Leased, nextAttemptAt := None)])
  }

  /** Extend a lease; `start` also moves its stage and attempt to running. */
  function Touch(cfg: Config, db: Db, l: LeaseId, now: int, start: bool): (d: Db)
    requires Refs(db) && l in db.leases
    ensures Refs(d)
  {
    var lease := db.leases[l];
    var d := db.(leases := db.leases[l := lease.(expiresAt := now + cfg.leaseTtl)]);
    if !start then d else
      d.(stages := db.stages[lease.stage := db.stages[lease.stage].(state := Running)],
         attempts := db.attempts[lease.attempt := db.attempts[lease.attempt].(state := AttemptRunning)])
  }

  function SetStage(db: Db, s: StageId, state: StageState): (d: Db)
    requires Refs(db) && s in db.stages
    ensures Refs(d)
  {
    db.(stages := db.stages[s := db.stages[s].(state := state)])
  }

  function SetRun(db: Db, r: RunId, status: RunStatus, result: Option<RunResult>): (d: Db)
    requires Refs(db) && r in db.runs
    ensures Refs(d)
  {
    db.(runs := db.runs[r := db.runs[r].(status := status, result := result)])
  }

  function AddStage(cfg: Config, db: Db, id: StageId, r: RunId, k: StageKind): (d: Db)
    requires Refs(db) && r in db.runs && id !in db.stages
    ensures Refs(d)
  {
    db.(stages := db.stages[id := Stage(r, k, Queued, cfg.MaxAttempts(k), cfg.Timeout(k), None)])
  }

  function CancelPending(db: Db, r: RunId): (d: Db)
    requires Refs(db)
    ensures Refs(d)
  {
    db.(stages := map s | s in db.stages ::
          if db.stages[s].run == r && Pending(db.stages[s].state) then db.stages[s].(state := Cancelled)
          else db.stages[s])
  }

  // ---------- the scheduler and claims ----------

  /** The result a run gets when one of its stages fails for good. */
  function FailureResult(k: StageKind): RunResult {
    if k.PlatformAnalysis? then ResultFailed else if k.C2Analysis? then ResultPartial else ResultInconclusive
  }

  /** Shared tail of `expire_attempt` and `cancellation_ack`: the last active stage ends the run. */
  function FinishCancellation(db: Db, r: RunId, s: StageId): (d: Db)
    requires Refs(db) && r in db.runs
    ensures Refs(d)
  {
    if OtherActive(db, r, s) then db
    else SetRun(CancelPending(db, r), r, RunTerminal, Some(ResultCancelled))
  }

  function ExpireAttempt(db: Db, l: LeaseId, now: int): (d: Db)
    requires Refs(db) && l in db.leases
    ensures Refs(d)
  {
    var s := db.leases[l].stage;
    var stage := db.stages[s];
    if db.runs[stage.run].status == RunCancelling then
      FinishCancellation(EndLease(db, l, now, AttemptCancelled, Cancelled, Unscheduled(db, l)), stage.run, s)
    else if Count(db, s) < stage.maxAttempts then
      EndLease(db, l, now, AttemptExpired, Queued, Some(now + Backoff(Count(db, s))))
    else
      SetRun(EndLease(db, l, now, AttemptExpired, Failed, Unscheduled(db, l)),
             stage.run, RunTerminal, Some(FailureResult(stage.kind)))
  }

  function Deadline(db: Db, l: LeaseId): int
    requires Refs(db) && l in db.leases
  {
    db.attempts[db.leases[l].attempt].startedAt + db.stages[db.leases[l].stage].timeout
  }

  /** Past its expiry or past its attempt's deadline. */
  predicate Overdue(db: Db, l: LeaseId, now: int)
    requires Refs(db) && l in db.leases
  {
    db.leases[l].expiresAt <= now || Deadline(db, l) <= now
  }

  function SweepOne(db: Db, l: LeaseId, now: int): (d: Db)
    requires Refs(db)
    ensures Refs(d)
  {
    if Live(db, l) && Overdue(db, l, now) then ExpireAttempt(db, l, now) else db
  }

  /** `expire_leases` over the rows the query returned, in their order. */
  function Sweep(db: Db, order: seq<LeaseId>, now: int): (d: Db)
    requires Refs(db)
    ensures Refs(d)
    decreases |order|
  {
    if order == [] then db else Sweep(SweepOne(db, order[0], now), order[1..], now)
  }

  function Claim(cfg: Config, db: Db, order: seq<LeaseId>, pick: Option<GrantIds>, now: int): (d: Db)
    requires Refs(db)
    ensures Refs(d)
  {
    var d := Sweep(db, order, now);
    if pick.Some? && Grantable(cfg, d, pick.value, now) then
      var r := d.stages[pick.value.stage].run;
      SetRun(Grant(cfg, d, pick.value, now), r, RunRunning, d.runs[r].result)
    else d
  }

  // ---------- the workflow ----------

  function CreateNext(cfg: Config, db: Db, id: StageId, r: RunId, k: StageKind): (d: Db)
    requires Refs(db) && r in db.runs && id !in db.stages
    ensures Refs(d)
  {
    if HasStage(db, r, k) then db else AddStage(cfg, db, id, r, k)
  }

  /** Two unused stage ids, for the handlers that may insert up to two rows. */
  datatype Fresh = Fresh(first: StageId, second: StageId)

  predicate Unused(db: Db, ids: Fresh) {
    ids.first !in db.stages && ids.second !in db.stages && ids.first != ids.second
  }

  predicate Adaptation(k: StageKind) { k.PlatformAdaptation? || k.C2Adaptation? }

  function Adaptations(db: Db, r: RunId): set<StageId> {
    set s | s in db.stages && db.stages[s].run == r && Adaptation(db.stages[s].kind)
  }

  function Advance(cfg: Config, db: Db, s: StageId, ids: Fresh): (d: Db)
    requires Refs(db) && s in db.stages && Unused(db, ids)
    ensures Refs(d)
  {
    var r := db.stages[s].run;
    var k := db.stages[s].kind;
    if k.PlatformAnalysis? then
      CreateNext(cfg, db, ids.first, r, if db.runs[r].c2Enabled then C2Analysis else PlatformAdaptation)
    else if k.C2Analysis? then
      CreateNext(cfg, CreateNext(cfg, db, ids.first, r, PlatformAdaptation), ids.second, r, C2Adaptation)
    else if k.PlatformAdaptation? && !db.runs[r].c2Enabled then
      CreateNext(cfg, db, ids.first, r, CaseAggregation)
    else if Adaptation(k) then
      var both := Adaptations(db, r);
      if |both| == 2 && (forall a :: a in both ==> db.stages[a].state == Completed) then
        CreateNext(cfg, db, ids.first, r, CaseAggregation)
      else db
    else if k.CaseAggregation? then CreateNext(cfg, db, ids.first, r, ReportGeneration)
    else SetRun(db, r, RunTerminal, Some(ResultCompleted))
  }

  // ---------- executor mutations, after the lease check ----------

  function Heartbeat(cfg: Config, db: Db, l: LeaseId, now: int): (d: (Db, Response))
    requires Refs(db) && l in db.leases
    ensures Refs(d.0)
  {
    if db.runs[db.stages[db.leases[l].stage].run].status == RunCancelling then
      (Touch(cfg, db, l, now, false), HeartbeatReply(now + cfg.leaseTtl, Some(StopCancelled)))
    else if Deadline(db, l) <= now then
      (ExpireAttempt(db, l, now), HeartbeatReply(now, Some(StopTimeout)))
    else
      (Touch(cfg, db, l, now, true), HeartbeatReply(now + cfg.leaseTtl, None))
  }

  predicate Completion(outcome: StageState) { outcome.Completed? || outcome.Partial? || outcome.Unsupported? }

  function Complete(cfg: Config, db: Db, l: LeaseId, outcome: StageState, ids: Fresh, now: int): (d: (Db, Response))
    requires Refs(db) && l in db.leases && Completion(outcome) && Unused(db, ids)
    ensures Refs(d.0)
  {
    var s := db.leases[l].stage;
    var r := db.stages[s].run;
    var ended := EndLease(db, l, now, AttemptCompleted, outcome, Unscheduled(db, l));
    var d :=
      if outcome.Unsupported? && db.stages[s].kind.PlatformAnalysis? then
        SetRun(ended, r, RunTerminal, Some(ResultUnsupported))
      else if outcome.Partial? then
        Advance(cfg, SetRun(ended, r, db.runs[r].status, Some(ResultPartial)), s, ids)
      else
        Advance(cfg, ended, s, ids);
    (d, CompleteReply(s, outcome, d.runs[r].status, d.runs[r].result))
  }

  function Fail(db: Db, l: LeaseId, retryable: bool, now: int): (d: (Db, Response))
    requires Refs(db) && l in db.leases
    ensures Refs(d.0)
  {
    var s := db.leases[l].stage;
    var stage := db.stages[s];
    if retryable && Count(db, s) < stage.maxAttempts then
      var next := Some(now + Backoff(Count(db, s)));
      (EndLease(db, l, now, AttemptFailed, Queued, next), FailReply(s, Queued, next))
    else
      (SetRun(EndLease(db, l, now, AttemptFailed, Failed, Unscheduled(db, l)),
              stage.run, RunTerminal, Some(FailureResult(stage.kind))),
       FailReply(s, Failed, Unscheduled(db, l)))
  }

  function Acknowledge(db: Db, l: LeaseId, now: int): (d: (Db, Response))
    requires Refs(db) && l in db.leases
    ensures Refs(d.0)
  {
    var s := db.leases[l].stage;
    var r := db.stages[s].run;
    var d := FinishCancellation(EndLease(db, l, now, AttemptCancelled, Cancelled, Unscheduled(db, l)), r, s);
    (d, AckReply(s, Cancelled, d.runs[r].status))
  }

  // ---------- signed requests ----------

  datatype Request = Request(executor: ExecutorId, message: Message, token: nat)

  datatype Reply = Ok(response: Response) | Error(code: nat)

  function KeyOf(q: Request): (ExecutorId, nat) { (q.executor, q.message.key) }

  predicate NonceUsed(db: Db, q: Request) {
    exists k :: k in db.requests && k.0 == q.executor && db.requests[k].message.nonce == q.message.nonce
  }

  /** `validate_lease`: None when the lease, the attempt and the stage belong together and may be used. */
  function LeaseError(db: Db, q: Request, replay: bool, now: int): Option<nat> {
    var m := q.message;
    if m.stage !in db.stages || m.attempt !in db.attempts || m.lease !in db.leases then Some(404)
    else
      var lease := db.leases[m.lease];
      if || db.attempts[m.attempt].stage != m.stage || db.attempts[m.attempt].executor != q.executor
         || lease.attempt != m.attempt || lease.executor != q.executor || lease.stage != m.stage
      then Some(403)
      else if || (lease.releasedAt.Some? && !replay) || (!replay && lease.expiresAt <= now) || q.token != lease.token
      then Some(409)
      else None
  }

  /** What the endpoints without workflow effect decide: an error that rolls back, or a committed record. */
  datatype OtherOutcome = OtherError(code: nat) | OtherCommit(response: Option<Response>)

  /** The endpoint's own work: its effect and its answer; an error means the transaction is rolled back. */
  function Perform(cfg: Config, db: Db, q: Request, ids: Fresh, other: OtherOutcome, now: int): (d: (Db, Option<Response>, nat))
    requires Refs(db) && q.message.lease in db.leases && Unused(db, ids)
    ensures Refs(d.0)
  {
    var l := q.message.lease;
    match q.message.call
    case HeartbeatCall =>
      var h := Heartbeat(cfg, db, l, now);
      (h.0, Some(h.1), 200)
    case CompleteCall(outcome) =>
      if outcome.None? then (db, None, 500)
      else if !Completion(outcome.value) then (db, None, 422)
      else var c := Complete(cfg, db, l, outcome.value, ids, now); (c.0, Some(c.1), 200)
    case FailCall(retryable) =>
      var f := Fail(db, l, retryable, now);
      (f.0, Some(f.1), 200)
    case AckCall =>
      if db.runs[db.stages[db.leases[l].stage].run].status != RunCancelling then (db, None, 409)
      else var a := Acknowledge(db, l, now); (a.0, Some(a.1), 200)
    case OtherCall(_) =>
      match other
      case OtherError(code) => (db, None, code)
      case OtherCommit(response) => (db, response, 200)
  }

  /** One signed request: signature, idempotency record, lease check, stored answer or the endpoint's work. */
  function Mutate(cfg: Config, db: Db, q: Request, signed: bool, ids: Fresh, other: OtherOutcome, now: int): (d: (Db, Reply))
    requires Refs(db) && Unused(db, ids)
    ensures Refs(d.0)
  {
    var k := KeyOf(q);
    if !signed then (db, Error(401))
    else if k in db.requests && db.requests[k].message != q.message then (db, Error(409))
    else if k !in db.requests && NonceUsed(db, q) then (db, Error(409))
    else
      var replay := k in db.requests;
      var error := LeaseError(db, q, replay, now);
      if error.Some? then (db, Error(error.value))
      else if replay && db.requests[k].response.Some? then (db, Ok(db.requests[k].response.value))
      else
        var p := Perform(cfg, db, q, ids, other, now);
        if p.2 != 200 then (db, Error(p.2))
        else
          (p.0.(requests := p.0.requests[k := Record(q.message, p.1)]),
           if p.1.Some? then Ok(p.1.value) else Error(422))
  }

  // ---------- users ----------

  function Submit(cfg: Config, db: Db, r: RunId, c2: bool, awaiting: bool, id: StageId): (d: Db)
    requires Refs(db) && r !in db.runs && id !in db.stages
    ensures Refs(d)
  {
    var d := db.(runs := db.runs[r := Run(if awaiting then RunAwaiting else RunQueued, None, c2)]);
    if awaiting then d else AddStage(cfg, d, id, r, PlatformAnalysis)
  }

  function Confirm(cfg: Config, db: Db, r: RunId, id: StageId): (d: Db)
    requires Refs(db) && r in db.runs && id !in db.stages
    ensures Refs(d)
  {
    if db.runs[r].status != RunAwaiting then db
    else AddStage(cfg, SetRun(db, r, RunQueued, db.runs[r].result), id, r, PlatformAnalysis)
  }

  predicate SomeActive(db: Db, r: RunId) {
    exists s :: s in db.stages && db.stages[s].run == r && Active(db.stages[s].state)
  }

  function Cancel(db: Db, r: RunId): (d: Db)
    requires Refs(db) && r in db.runs
    ensures Refs(d)
  {
    if db.runs[r].status == RunTerminal then db
    else if SomeActive(db, r) then SetRun(db, r, RunCancelling, db.runs[r].result)
    else CancelPending(SetRun(db, r, RunTerminal, Some(ResultCancelled)), r)
  }

  // ---------- background workers ----------

  /** A rejected bundle is committed as a failed stage before the worker's own handler runs; a worker
      that dies in between leaves `AdaptRejected`, and `AdoptOrphan` later ends the run. */
  datatype AdaptOutcome = AdaptDone | AdaptRejected | AdaptFailed

  function Adapt(db: Db, s: StageId, outcome: AdaptOutcome): (d: Db)
    requires Refs(db)
    ensures Refs(d)
  {
    if !(s in db.stages && Adaptation(db.stages[s].kind) && db.stages[s].state == Queued) then db
    else match outcome
      case AdaptDone => SetStage(db, s, Completed)
      case AdaptRejected => SetStage(db, s, Failed)
      case AdaptFailed => SetRun(SetStage(db, s, Failed), db.stages[s].run, RunTerminal, Some(ResultInconclusive))
  }

  predicate Orphaned(db: Db, r: RunId) {
    && r in db.runs && db.runs[r].status != RunTerminal
    && exists s :: s in db.stages && db.stages[s].run == r && Adaptation(db.stages[s].kind) && db.stages[s].state == Failed
  }

  function AdoptOrphan(db: Db, r: RunId): (d: Db)
    requires Refs(db)
    ensures Refs(d)
  {
    if Orphaned(db, r) then SetRun(db, r, RunTerminal, Some(ResultInconclusive)) else db
  }

  predicate StageIs(db: Db, s: StageId, r: RunId, k: StageKind, state: StageState) {
    IsStage(db, s, r, k) && db.stages[s].state == state
  }

  predicate HasStageIn(db: Db, r: RunId, k: StageKind, state: StageState) {
    exists s :: s in db.stages && StageIs(db, s, r, k, state)
  }

  /** One run of `_ensure_ready_aggregation_stages`. */
  function EnsureAggregation(cfg: Config, db: Db, r: RunId, id: StageId): (d: Db)
    requires Refs(db)
    ensures Refs(d)
  {
    if && r in db.runs && id !in db.stages && db.runs[r].status == RunRunning
       && HasStageIn(db, r, PlatformAdaptation, Completed)
       && (db.runs[r].c2Enabled ==> HasStageIn(db, r, C2Adaptation, Completed))
       && !HasStage(db, r, CaseAggregation)
    then AddStage(cfg, db, id, r, CaseAggregation)
    else db
  }

  /** All of it: the runs the query returned, each with an unused stage id. */
  function EnsureAll(cfg: Config, db: Db, ready: seq<(RunId, StageId)>): (d: Db)
    requires Refs(db)
    ensures Refs(d)
    decreases |ready|
  {
    if ready == [] then db else EnsureAll(cfg, EnsureAggregation(cfg, db, ready[0].0, ready[0].1), ready[1..])
  }

  datatype Verdict = Malicious | Suspicious | NoMaliciousActivityObserved | Inconclusive | VerdictFailed

  /** Raised, or returned with the verdict of the newest report snapshot. */
  datatype ReportOutcome = ReportRaised | ReportDone(verdict: Verdict)

  function ReportResult(previous: Option<RunResult>, verdict: Verdict): RunResult {
    if verdict.VerdictFailed? then ResultFailed
    else if verdict.Inconclusive? then ResultInconclusive
    else if previous == Some(ResultPartial) then ResultPartial
    else ResultCompleted
  }

  predicate Reportable(db: Db, s: StageId) {
    s in db.stages && (db.stages[s].kind.CaseAggregation? || db.stages[s].kind.ReportGeneration?) && db.stages[s].state == Queued
  }

  /** The report worker's own work, once its stage is picked and nothing is raised. */
  function FinishReport(cfg: Config, db: Db, s: StageId, verdict: Verdict, id: StageId): (d: Db)
    requires Refs(db) && Reportable(db, s)
    ensures Refs(d)
  {
    var r := db.stages[s].run;
    var done := SetStage(db, s, Completed);
    if db.stages[s].kind.CaseAggregation? then
      (if id in db.stages then db else CreateNext(cfg, done, id, r, ReportGeneration))
    else SetRun(done, r, RunTerminal, Some(ReportResult(db.runs[r].result, verdict)))
  }

  /** `process_once` of the report worker. A raise rolls the inserted aggregation stages back, and only
      then marks the stage failed, if it is still there. */
  function Report(cfg: Config, db: Db, ready: seq<(RunId, StageId)>, s: StageId, outcome: ReportOutcome, id: StageId): (d: Db)
    requires Refs(db)
    ensures Refs(d)
  {
    var d := EnsureAll(cfg, db, ready);
    if !Reportable(d, s) then d
    else if outcome.ReportDone? then FinishReport(cfg, d, s, outcome.verdict, id)
    else if s in db.stages then SetStage(db, s, Failed)
    else db
  }
}
