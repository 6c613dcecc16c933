/** The tables the control plane keeps for one deployment: runs, stages, attempts, leases and the
    idempotency records of the executors, with the lookups every handler makes on them. */
module Tables {

  datatype Option<+T> = None | Some(value: T)

  datatype Result<+T> = Success(value: T) | Failure(reason: string)

  /** A JSON value that is no object and no list. */
  datatype Json = Null | Bool(flag: bool) | Number(number: real) | Str(text: string)

  datatype Platform = Windows | Android

  type RunId = nat
  type StageId = nat
  type AttemptId = nat
  type LeaseId = nat
  type ExecutorId = nat

  datatype StageKind =
    | PlatformAnalysis | C2Analysis | PlatformAdaptation | C2Adaptation | CaseAggregation | ReportGeneration

  datatype StageState =
    | Waiting | Queued | Leased | Running | Completed | Partial | Failed | Cancelled | Unsupported

  datatype AttemptState =
    | AttemptLeased | AttemptRunning | AttemptCompleted | AttemptFailed | AttemptCancelled | AttemptExpired

  datatype RunStatus = RunAwaiting | RunQueued | RunRunning | RunCancelling | RunTerminal

  datatype RunResult =
    | ResultCompleted | ResultPartial | ResultInconclusive | ResultFailed | ResultCancelled | ResultUnsupported

  datatype Run = Run(status: RunStatus, result: Option<RunResult>, c2Enabled: bool)

  datatype Stage = Stage(
    run: RunId, kind: StageKind, state: StageState, maxAttempts: int, timeout: int, nextAttemptAt: Option<int>)

  datatype Attempt = Attempt(
    stage: StageId, executor: ExecutorId, number: nat, state: AttemptState, startedAt: int, endedAt: Option<int>)

  datatype Lease = Lease(
    stage: StageId, attempt: AttemptId, executor: ExecutorId, token: nat, expiresAt: int, releasedAt: Option<int>)

  /** What an executor asks for; the parts of the signed body a handler reads. */
  datatype Call =
    | HeartbeatCall
    | CompleteCall(outcome: Option<StageState>) // None: a string that names no stage state
    | FailCall(retryable: bool)
    | AckCall
    | OtherCall(tag: nat) // uploads, downloads and native-task calls: they share the table of records

  /** The signed message. The request hash is taken to be injective, so the record keeps the message itself. */
  datatype Message = Message(
    call: Call, stage: StageId, lease: LeaseId, attempt: AttemptId, timestamp: int, nonce: nat, key: nat)

  datatype Stop = StopCancelled | StopTimeout

  datatype Response =
    | HeartbeatReply(expiresAt: int, stop: Option<Stop>)
    | CompleteReply(stage: StageId, state: StageState, status: RunStatus, result: Option<RunResult>)
    | FailReply(stage: StageId, state: StageState, retryAt: Option<int>)
    | AckReply(stage: StageId, state: StageState, status: RunStatus)
    | OtherReply(tag: nat)

  datatype Record = Record(message: Message, response: Option<Response>)

  datatype Db = Db(
    runs: map<RunId, Run>,
    stages: map<StageId, Stage>,
    attempts: map<AttemptId, Attempt>,
    leases: map<LeaseId, Lease>,
    requests: map<(ExecutorId, nat), Record>)

  const EMPTY := Db(map[], map[], map[], map[], map[])

  /** Deployment settings. `claimable` is the union of the stage types any executor may claim. */
  datatype Config = Config(
    maxAttempts: map<StageKind, int>, defaultMaxAttempts: int,
    timeouts: map<StageKind, int>, defaultTimeout: int,
    leaseTtl: int, claimable: set<StageKind>)
  {
    function MaxAttempts(k: StageKind): int {
      if k in maxAttempts then maxAttempts[k] else defaultMaxAttempts
    }

    function Timeout(k: StageKind): int {
      if k in timeouts then timeouts[k] else defaultTimeout
    }
  }

  predicate Active(state: StageState) { state.Leased? || state.Running? }

  predicate Pending(state: StageState) { state.Waiting? || state.Queued? }

  predicate Final(state: StageState) { !Active(state) && !Pending(state) }

  predicate Open(state: AttemptState) { state.AttemptLeased? || state.AttemptRunning? }

  predicate Live(db: Db, l: LeaseId) { l in db.leases && db.leases[l].releasedAt.None? }

  /** The foreign keys of the schema, and the identity `validate_lease` re-checks. */
  ghost predicate Refs(db: Db) {
    && (forall s :: s in db.stages ==> db.stages[s].run in db.runs)
    && (forall a :: a in db.attempts ==> db.attempts[a].stage in db.stages)
    && (forall l :: l in db.leases ==>
      && db.leases[l].attempt in db.attempts
      && db.leases[l].stage == db.attempts[db.leases[l].attempt].stage
      && db.leases[l].executor == db.attempts[db.leases[l].attempt].executor)
  }

  function AttemptsOf(db: Db, s: StageId): set<AttemptId> {
    set a | a in db.attempts && db.attempts[a].stage == s
  }

  function Count(db: Db, s: StageId): nat { |AttemptsOf(db, s)| }

  /** The settings check positive overrides but not the default, and a claim is granted before any
      comparison with the limit, so one attempt is always available. */
  function Allowance(maxAttempts: int): nat { if maxAttempts < 1 then 1 else maxAttempts }

  predicate IsStage(db: Db, s: StageId, r: RunId, k: StageKind) {
    s in db.stages && db.stages[s].run == r && db.stages[s].kind == k
  }

  predicate HasStage(db: Db, r: RunId, k: StageKind) {
    exists s :: s in db.stages && IsStage(db, s, r, k)
  }

  /** Some stage of the run other than `s` is leased or running. */
  predicate OtherActive(db: Db, r: RunId, s: StageId) {
    exists o :: o in db.stages && o != s && db.stages[o].run == r && Active(db.stages[o].state)
  }

  function Pow2(n: nat): nat { if n == 0 then 1 else 2 * Pow2(n - 1) }

  /** Seconds before attempt n + 1 may start. */
  function Backoff(n: nat): nat { if Pow2(n) < 300 then Pow2(n) else 300 }

  lemma {:induction false} SubsetSize<T>(a: set<T>, b: set<T>)
    requires a <= b
    ensures |a| <= |b|
    decreases a
  {
    if a != {} {
      var x :| x in a;
      SubsetSize(a - {x}, b - {x});
    }
  }
}
