/** What a signed stage request needs to be answered, and what its answer says of the tables, both read off the
    rows: the stage, attempt and lease the request names, the records and the run. */
module Requests {
  import opened Tables
  import opened Handlers
  import opened Workflow
  import opened Protocol

  // ---------- who is answered ----------

  /** The rows exist, belong together and to the executor, and the token is that of the lease. */
  predicate Entitled(db: Db, q: Request) {
    var m := q.message;
    && m.stage in db.stages && m.attempt in db.attempts && m.lease in db.leases
    && var attempt, lease := db.attempts[m.attempt], db.leases[m.lease];
       && attempt.stage == m.stage && attempt.executor == q.executor
       && lease.stage == m.stage && lease.attempt == m.attempt && lease.executor == q.executor
       && q.token == lease.token
  }

  /** The lease is not released and has not expired. */
  predicate InForce(db: Db, l: LeaseId, now: int) {
    l in db.leases && db.leases[l].releasedAt == None && now < db.leases[l].expiresAt
  }

  /** The executor has not used the key. */
  predicate New(db: Db, q: Request) { (q.executor, q.message.key) !in db.requests }

  /** The executor has not used the nonce. */
  ghost predicate FreshNonce(db: Db, q: Request) {
    forall k :: k in db.requests && k.0 == q.executor ==> db.requests[k].message.nonce != q.message.nonce
  }

  /** The run of the stage that the request names. */
  function RunFor(db: Db, q: Request): Run
    requires Refs(db) && q.message.stage in db.stages
  {
    db.runs[db.stages[q.message.stage].run]
  }

  /** A completion names one of three outcomes, and only a cancelling run is acknowledged. */
  predicate Fits(db: Db, q: Request)
    requires Refs(db) && q.message.stage in db.stages
  {
    match q.message.call
    case HeartbeatCall => true
    case CompleteCall(outcome) => outcome in {Some(Completed), Some(Partial), Some(Unsupported)}
    case FailCall(_) => true
    case AckCall => RunFor(db, q).status == RunCancelling
    case OtherCall(_) => true
  }

  /** Whatever the endpoint: no answer and no effect without the signature, the rows and the token; and, for a
      new key, without a lease in force and a new nonce. */
  lemma NothingUnentitled(cfg: Config, db: Db, q: Request, signed: bool, ids: Fresh, other: OtherOutcome, now: int)
    requires Refs(db) && Unused(db, ids)
    ensures var m := Mutate(cfg, db, q, signed, ids, other, now);
      m.1.Ok? || m.0 != db ==>
        && signed && Entitled(db, q)
        && (if New(db, q) then InForce(db, q.message.lease, now) && FreshNonce(db, q)
            else db.requests[(q.executor, q.message.key)].message == q.message)
  {
    hide Perform, Refs;
  }

  /** A stage request is answered if and only if it is entitled and repeats an answered one, or is new and fits;
      an error leaves every table as it is. */
  lemma AnsweredExactly(cfg: Config, db: Db, q: Request, signed: bool, ids: Fresh, other: OtherOutcome, now: int)
    requires Refs(db) && Recorded(db) && Unused(db, ids) && !q.message.call.OtherCall?
    ensures var m := Mutate(cfg, db, q, signed, ids, other, now);
      && (m.1.Ok? <==>
            && signed && Entitled(db, q)
            && (if New(db, q) then InForce(db, q.message.lease, now) && FreshNonce(db, q) && Fits(db, q)
                else db.requests[(q.executor, q.message.key)].message == q.message))
      && (m.1.Error? ==> m.0 == db)
  {
    hide Heartbeat, Complete, Fail, Acknowledge;
  }

  /** With everything else in order, a foreign token is a conflict. */
  lemma ForeignToken(cfg: Config, db: Db, q: Request, ids: Fresh, other: OtherOutcome, now: int)
    requires Refs(db) && Unused(db, ids) && New(db, q) && FreshNonce(db, q) && InForce(db, q.message.lease, now)
    requires Entitled(db, q.(token := db.leases[q.message.lease].token)) && !Entitled(db, q)
    ensures Mutate(cfg, db, q, true, ids, other, now) == (db, Error(409))
  {
    hide Perform;
  }

  // ---------- what the answers say ----------

  /** The request is new and answered: these are the tables after it and its answer. */
  ghost predicate Answers(cfg: Config, db: Db, q: Request, ids: Fresh, now: int, d: Db, response: Response)
    requires Refs(db)
  {
    && Recorded(db) && Unused(db, ids) && !q.message.call.OtherCall? && New(db, q)
    && exists signed, other :: Mutate(cfg, db, q, signed, ids, other, now) == (d, Ok(response))
  }

  lemma AnswersPerform(cfg: Config, db: Db, q: Request, ids: Fresh, now: int, d: Db, response: Response)
    requires Refs(db) && Answers(cfg, db, q, ids, now, d, response)
    ensures Entitled(db, q) && InForce(db, q.message.lease, now) && Fits(db, q)
    ensures exists other :: var p := Perform(cfg, db, q, ids, other, now);
              p.2 == 200 && p.1 == Some(response) && d == p.0.(requests := d.requests)
  {
    hide Heartbeat, Complete, Fail, Acknowledge, Refs, Unused, Recorded, Mutate;
    var signed, other :| Mutate(cfg, db, q, signed, ids, other, now) == (d, Ok(response));
    AnsweredExactly(cfg, db, q, signed, ids, other, now);
    Performed(cfg, db, q, signed, ids, other, now);
  }

  lemma Performed(cfg: Config, db: Db, q: Request, signed: bool, ids: Fresh, other: OtherOutcome, now: int)
    requires Refs(db) && Unused(db, ids) && New(db, q) && q.message.lease in db.leases
    ensures var m, p := Mutate(cfg, db, q, signed, ids, other, now), Perform(cfg, db, q, ids, other, now);
      m.1.Ok? ==> p.2 == 200 && p.1 == Some(m.1.response) && m.0 == p.0.(requests := m.0.requests)
  {
    hide Perform, Refs;
  }

  /** Every row but these is as it was. */
  ghost predicate OnlyRows(db: Db, d: Db, r: RunId, s: StageId, a: AttemptId, l: LeaseId) {
    && d.runs - {r} == db.runs - {r} && d.stages - {s} == db.stages - {s}
    && d.attempts - {a} == db.attempts - {a} && d.leases - {l} == db.leases - {l}
  }

  /** The result of a run whose stage of this kind has failed for good. */
  function EndedBy(k: StageKind): RunResult {
    match k
    case PlatformAnalysis => ResultFailed
    case C2Analysis => ResultPartial
    case _ => ResultInconclusive
  }

  /** The stage of a lease, its run and the lease's attempt, after the attempt ended without success: queued
      again after a wait, or failed for good and the run ended. */
  ghost predicate Retried(db: Db, d: Db, l: LeaseId, now: int, ended: AttemptState, again: bool)
    requires Refs(db) && l in db.leases
  {
    var s, a := db.leases[l].stage, db.leases[l].attempt;
    var r, stage := db.stages[s].run, db.stages[s];
    && OnlyRows(db, d, r, s, a, l) && s in d.stages && a in d.attempts && l in d.leases && r in d.runs
    && d.leases[l] == db.leases[l].(releasedAt := Some(now))
    && d.attempts[a] == db.attempts[a].(state := ended, endedAt := Some(now))
    && (again ==> d.stages[s] == stage.(state := Queued, nextAttemptAt := Some(now + Backoff(Count(db, s)))) && d.runs == db.runs)
    && (!again ==>
         && d.stages[s] == stage.(state := Failed) && d.runs[r].status == RunTerminal
         && d.runs[r].result == Some(EndedBy(stage.kind)))
  }

  lemma QueuedAgain(db: Db, l: LeaseId, now: int, ended: AttemptState)
    requires Refs(db) && l in db.leases
    ensures var next := Some(now + Backoff(Count(db, db.leases[l].stage)));
      Retried(db, EndLease(db, l, now, ended, Queued, next), l, now, ended, true)
  {
    hide Count, Backoff;
  }

  lemma FailedForGood(db: Db, l: LeaseId, now: int, ended: AttemptState)
    requires Refs(db) && l in db.leases
    ensures var stage := db.stages[db.leases[l].stage];
      Retried(db, SetRun(EndLease(db, l, now, ended, Failed, Unscheduled(db, l)), stage.run, RunTerminal, Some(FailureResult(stage.kind))),
              l, now, ended, false)
  {
    hide Count, Backoff;
  }

  lemma FailRetries(db: Db, l: LeaseId, retryable: bool, now: int)
    requires Refs(db) && l in db.leases
    ensures var f, s := Fail(db, l, retryable, now), db.leases[l].stage;
      && Retried(db, f.0, l, now, AttemptFailed, retryable && Count(db, s) < db.stages[s].maxAttempts)
      && f.1 == FailReply(s, f.0.stages[s].state, f.0.stages[s].nextAttemptAt)
  {
    hide Count, Backoff, Retried;
    QueuedAgain(db, l, now, AttemptFailed);
    FailedForGood(db, l, now, AttemptFailed);
  }

  /** A failure's answer: whether the stage is queued again, which it is when the failure is retryable and
      attempts are left, and when it may run. */
  lemma FailureMeans(cfg: Config, db: Db, q: Request, ids: Fresh, now: int, d: Db, response: Response)
    requires Refs(db) && q.message.call.FailCall? && Answers(cfg, db, q, ids, now, d, response)
    ensures Entitled(db, q)
    ensures var s := q.message.stage;
      && Retried(db, d, q.message.lease, now, AttemptFailed, q.message.call.retryable && Count(db, s) < db.stages[s].maxAttempts)
      && response == FailReply(s, d.stages[s].state, d.stages[s].nextAttemptAt)
  {
    hide Fail, Retried;
    AnswersPerform(cfg, db, q, ids, now, d, response);
    FailRetries(db, q.message.lease, q.message.call.retryable, now);
    RetriedRecords(db, Fail(db, q.message.lease, q.message.call.retryable, now).0, d, q.message.lease, now, AttemptFailed,
                   q.message.call.retryable && Count(db, q.message.stage) < db.stages[q.message.stage].maxAttempts);
  }

  lemma RetriedRecords(db: Db, e: Db, d: Db, l: LeaseId, now: int, ended: AttemptState, again: bool)
    requires Refs(db) && l in db.leases && Retried(db, e, l, now, ended, again) && d == e.(requests := d.requests)
    ensures Retried(db, d, l, now, ended, again)
  {}

  /** A live lease past its expiry or its attempt's deadline, swept while its run is not being cancelled. */
  lemma ExpiryMeans(cfg: Config, db: Db, l: LeaseId, now: int)
    requires Refs(db) && l in db.leases && db.leases[l].releasedAt == None
    requires db.runs[db.stages[db.leases[l].stage].run].status != RunCancelling
    ensures var d, s := Step(cfg, db, SweepLeases([l]), now), db.leases[l].stage;
      if db.leases[l].expiresAt <= now || db.attempts[db.leases[l].attempt].startedAt + db.stages[s].timeout <= now
      then Retried(db, d, l, now, AttemptExpired, Count(db, s) < db.stages[s].maxAttempts)
      else d == db
  {
    hide Retried, ExpireAttempt;
    assert [l][1..] == [] && Sweep(SweepOne(db, l, now), [], now) == SweepOne(db, l, now);
    ExpireRetries(db, l, now);
  }

  lemma ExpireRetries(db: Db, l: LeaseId, now: int)
    requires Refs(db) && l in db.leases && db.runs[db.stages[db.leases[l].stage].run].status != RunCancelling
    ensures var s := db.leases[l].stage;
      Retried(db, ExpireAttempt(db, l, now), l, now, AttemptExpired, Count(db, s) < db.stages[s].maxAttempts)
  {
    hide Count, Backoff, Retried;
    QueuedAgain(db, l, now, AttemptExpired);
    FailedForGood(db, l, now, AttemptExpired);
  }

  /** The lease holds until then; with `start`, its stage and attempt are running. */
  ghost predicate Prolonged(db: Db, d: Db, l: LeaseId, until: int, start: bool)
    requires Refs(db) && l in db.leases
  {
    var s, a := db.leases[l].stage, db.leases[l].attempt;
    && d.runs == db.runs && d.leases == db.leases[l := db.leases[l].(expiresAt := until)]
    && d.stages == (if start then db.stages[s := db.stages[s].(state := Running)] else db.stages)
    && d.attempts == (if start then db.attempts[a := db.attempts[a].(state := AttemptRunning)] else db.attempts)
  }

  lemma TouchProlongs(cfg: Config, db: Db, l: LeaseId, now: int, start: bool, requests: map<(ExecutorId, nat), Record>)
    requires Refs(db) && l in db.leases
    ensures Prolonged(db, Touch(cfg, db, l, now, start).(requests := requests), l, now + cfg.leaseTtl, start)
  {}

  /** A heartbeat's answer: stop, because the run is being cancelled or the attempt has had its time; or the
      time until which the lease now holds, and then stage and attempt are running. */
  lemma HeartbeatMeans(cfg: Config, db: Db, q: Request, ids: Fresh, now: int, d: Db, response: Response)
    requires Refs(db) && q.message.call.HeartbeatCall? && Answers(cfg, db, q, ids, now, d, response)
    ensures Entitled(db, q) && response.HeartbeatReply?
    ensures var s, a, l := q.message.stage, q.message.attempt, q.message.lease;
      && (response.stop == Some(StopCancelled) <==> RunFor(db, q).status == RunCancelling)
      && (response.stop == Some(StopTimeout) <==>
            RunFor(db, q).status != RunCancelling && db.attempts[a].startedAt + db.stages[s].timeout <= now)
      && (response.stop == Some(StopTimeout) ==> Retried(db, d, l, now, AttemptExpired, Count(db, s) < db.stages[s].maxAttempts))
      && (response.stop != Some(StopTimeout) ==>
            response.expiresAt == now + cfg.leaseTtl && Prolonged(db, d, l, response.expiresAt, response.stop == None))
  {
    hide Retried, ExpireAttempt, Count, Touch, Prolonged;
    AnswersPerform(cfg, db, q, ids, now, d, response);
    var l, s := q.message.lease, q.message.stage;
    TouchProlongs(cfg, db, l, now, true, d.requests);
    TouchProlongs(cfg, db, l, now, false, d.requests);
    if RunFor(db, q).status != RunCancelling {
      ExpireRetries(db, l, now);
      RetriedRecords(db, ExpireAttempt(db, l, now), ExpireAttempt(db, l, now).(requests := d.requests), l, now, AttemptExpired,
                     Count(db, s) < db.stages[s].maxAttempts);
    }
  }

  /** Another stage of the run is leased or running. */
  ghost predicate OthersActive(db: Db, r: RunId, s: StageId) {
    exists o :: o in db.stages && o != s && db.stages[o].run == r && db.stages[o].state in {Leased, Running}
  }

  /** The run has ended as cancelled, and none of its stages waits. */
  ghost predicate CalledOff(d: Db, r: RunId) {
    && r in d.runs && d.runs[r].status == RunTerminal && d.runs[r].result == Some(ResultCancelled)
    && forall o :: o in d.stages && d.stages[o].run == r ==> d.stages[o].state !in {Waiting, Queued}
  }

  /** The lease, its attempt and its stage after an acknowledgement, and its run: it has ended unless another
      stage of it is still active. */
  ghost predicate AcknowledgedAs(db: Db, d: Db, l: LeaseId, now: int)
    requires Refs(db) && l in db.leases
  {
    var s, a := db.leases[l].stage, db.leases[l].attempt;
    var r := db.stages[s].run;
    && d.leases == db.leases[l := db.leases[l].(releasedAt := Some(now))]
    && d.attempts == db.attempts[a := db.attempts[a].(state := AttemptCancelled, endedAt := Some(now))]
    && s in d.stages && d.stages[s].state == Cancelled
    && (if OthersActive(db, r, s) then d.runs == db.runs && d.stages - {s} == db.stages - {s} else CalledOff(d, r))
  }

  /** An acknowledgement's answer is the state of the stage and of its run. */
  lemma AcknowledgementMeans(cfg: Config, db: Db, q: Request, ids: Fresh, now: int, d: Db, response: Response)
    requires Refs(db) && q.message.call.AckCall? && Answers(cfg, db, q, ids, now, d, response)
    ensures Entitled(db, q)
    ensures var s, r := q.message.stage, db.stages[q.message.stage].run;
      && AcknowledgedAs(db, d, q.message.lease, now) && r in d.runs && response == AckReply(s, Cancelled, d.runs[r].status)
  {
    hide Acknowledge, AcknowledgedAs;
    AnswersPerform(cfg, db, q, ids, now, d, response);
    AcknowledgeRows(db, q.message.lease, now, d.requests);
  }

  lemma AcknowledgeRows(db: Db, l: LeaseId, now: int, requests: map<(ExecutorId, nat), Record>)
    requires Refs(db) && l in db.leases
    ensures var c, r := Acknowledge(db, l, now), db.stages[db.leases[l].stage].run;
      && AcknowledgedAs(db, c.0.(requests := requests), l, now)
      && r in c.0.runs && c.1 == AckReply(db.leases[l].stage, Cancelled, c.0.runs[r].status)
  {
    hide FinishCancellation;
    var s := db.leases[l].stage;
    var r := db.stages[s].run;
    FinishRows(db, EndLease(db, l, now, AttemptCancelled, Cancelled, Unscheduled(db, l)), r, s);
  }

  lemma FinishRows(db: Db, ended: Db, r: RunId, s: StageId)
    requires Refs(db) && Refs(ended) && r in db.runs && s in db.stages && ended.runs == db.runs
    requires s in ended.stages && ended.stages == db.stages[s := ended.stages[s]] && ended.stages[s].state == Cancelled
    ensures var d := FinishCancellation(ended, r, s);
      && d.leases == ended.leases && d.attempts == ended.attempts && s in d.stages && d.stages[s].state == Cancelled
      && (if OthersActive(db, r, s) then d == ended else CalledOff(d, r))
  {
    forall o | o in db.stages && o != s ensures o in ended.stages && ended.stages[o] == db.stages[o] {}
    if OthersActive(db, r, s) {
      var o :| o in db.stages && o != s && db.stages[o].run == r && db.stages[o].state in {Leased, Running};
      assert ended.stages[o].run == r && Active(ended.stages[o].state);
    }
    if OtherActive(ended, r, s) {
      var o :| o in ended.stages && o != s && ended.stages[o].run == r && Active(ended.stages[o].state);
      assert db.stages[o].run == r && db.stages[o].state in {Leased, Running};
    }
  }

  /** The lease, its attempt, its stage and its run after a completion: the run has ended as unsupported, if the
      platform analysis is, or as completed, if the stage was the report; or it goes on, as partial if the
      stage is. */
  ghost predicate CompletedAs(db: Db, d: Db, l: LeaseId, outcome: StageState, now: int)
    requires Refs(db) && l in db.leases
  {
    var s, a := db.leases[l].stage, db.leases[l].attempt;
    var r, stage := db.stages[s].run, db.stages[s];
    && d.leases == db.leases[l := db.leases[l].(releasedAt := Some(now))]
    && d.attempts == db.attempts[a := db.attempts[a].(state := AttemptCompleted, endedAt := Some(now))]
    && s in d.stages && d.stages[s] == stage.(state := outcome)
    && (forall o :: o in db.stages && o != s ==> o in d.stages && d.stages[o] == db.stages[o])
    && d.runs ==
       (if outcome == Unsupported && stage.kind == PlatformAnalysis then
          db.runs[r := db.runs[r].(status := RunTerminal, result := Some(ResultUnsupported))]
        else if stage.kind == ReportGeneration then
          db.runs[r := db.runs[r].(status := RunTerminal, result := Some(ResultCompleted))]
        else if outcome == Partial then db.runs[r := db.runs[r].(result := Some(ResultPartial))]
        else db.runs)
  }

  /** A completion's answer is the state of the stage and of its run. */
  lemma CompletionMeans(cfg: Config, db: Db, q: Request, ids: Fresh, now: int, d: Db, response: Response)
    requires Refs(db) && q.message.call.CompleteCall? && Answers(cfg, db, q, ids, now, d, response)
    ensures Entitled(db, q) && q.message.call.outcome.Some?
    ensures var s, r, outcome := q.message.stage, db.stages[q.message.stage].run, q.message.call.outcome.value;
      && CompletedAs(db, d, q.message.lease, outcome, now) && r in d.runs
      && response == CompleteReply(s, outcome, d.runs[r].status, d.runs[r].result)
  {
    hide Complete;
    AnswersPerform(cfg, db, q, ids, now, d, response);
    CompleteRows(cfg, db, q.message.lease, q.message.call.outcome.value, ids, now);
  }

  lemma CompleteRows(cfg: Config, db: Db, l: LeaseId, outcome: StageState, ids: Fresh, now: int)
    requires Refs(db) && l in db.leases && Completion(outcome) && Unused(db, ids)
    ensures var c, s := Complete(cfg, db, l, outcome, ids, now), db.leases[l].stage;
      var d, r := c.0, db.stages[s].run;
      && CompletedAs(db, d, l, outcome, now) && r in d.runs
      && c.1 == CompleteReply(s, outcome, d.runs[r].status, d.runs[r].result)
  {
    hide Advance, CompletedAs, OnlyAdds, EndLease;
    var s := db.leases[l].stage;
    var r := db.stages[s].run;
    var ended := EndLease(db, l, now, AttemptCompleted, outcome, Unscheduled(db, l));
    EndedRows(db, l, outcome, now);
    var partial := SetRun(ended, r, db.runs[r].status, Some(ResultPartial));
    AdvanceRows(cfg, ended, s, ids);
    AdvanceRows(cfg, partial, s, ids);
    var reported := db.runs[r].(status := RunTerminal, result := Some(ResultCompleted));
    assert partial.runs[r := reported] == db.runs[r := reported];
    CompletedAddsKept(db, ended, Advance(cfg, ended, s, ids), l, outcome, now);
    CompletedAddsKept(db, partial, Advance(cfg, partial, s, ids), l, outcome, now);
  }

  lemma EndedRows(db: Db, l: LeaseId, outcome: StageState, now: int)
    requires Refs(db) && l in db.leases && Completion(outcome)
    ensures var ended, s := EndLease(db, l, now, AttemptCompleted, outcome, Unscheduled(db, l)), db.leases[l].stage;
      var r, k := db.stages[s].run, db.stages[s].kind;
      && ended.stages.Keys == db.stages.Keys && ended.runs == db.runs && s in ended.stages && ended.stages[s].run == r && ended.stages[s].kind == k
      && (outcome.Unsupported? && k.PlatformAnalysis? ==> CompletedAs(db, SetRun(ended, r, RunTerminal, Some(ResultUnsupported)), l, outcome, now))
      && (k.ReportGeneration? ==>
            CompletedAs(db, ended.(runs := db.runs[r := db.runs[r].(status := RunTerminal, result := Some(ResultCompleted))]), l, outcome, now))
      && (!k.ReportGeneration? && outcome.Partial? ==>
            CompletedAs(db, SetRun(ended, r, db.runs[r].status, Some(ResultPartial)), l, outcome, now))
      && (!k.ReportGeneration? && !outcome.Partial? && !(outcome.Unsupported? && k.PlatformAnalysis?) ==> CompletedAs(db, ended, l, outcome, now))
  {}

  lemma CompletedAddsKept(db: Db, d: Db, e: Db, l: LeaseId, outcome: StageState, now: int)
    requires Refs(db) && l in db.leases
    ensures CompletedAs(db, d, l, outcome, now) && OnlyAdds(d, e) ==> CompletedAs(db, e, l, outcome, now)
  {}

  /** Nothing but stages is added. */
  ghost predicate OnlyAdds(db: Db, d: Db) {
    d == db.(stages := d.stages) && forall o :: o in db.stages ==> o in d.stages && d.stages[o] == db.stages[o]
  }

  lemma CreateNextAdds(cfg: Config, db: Db, id: StageId, r: RunId, k: StageKind)
    requires Refs(db) && r in db.runs && id !in db.stages
    ensures OnlyAdds(db, CreateNext(cfg, db, id, r, k)) && OnlyAdds(db, db)
  {
    hide HasStage;
  }

  lemma OnlyAddsTwice(a: Db, b: Db, c: Db)
    requires OnlyAdds(a, b) && OnlyAdds(b, c)
    ensures OnlyAdds(a, c)
  {}

  lemma AdvanceRows(cfg: Config, db: Db, s: StageId, ids: Fresh)
    requires Refs(db) && s in db.stages && Unused(db, ids)
    ensures var d, r := Advance(cfg, db, s, ids), db.stages[s].run;
      if db.stages[s].kind == ReportGeneration
      then d == db.(runs := db.runs[r := db.runs[r].(status := RunTerminal, result := Some(ResultCompleted))])
      else OnlyAdds(db, d)
  {
    hide OnlyAdds, CreateNext, Adaptations, HasStage;
    var r, k := db.stages[s].run, db.stages[s].kind;
    CreateNextAdds(cfg, db, ids.first, r, C2Analysis);
    CreateNextAdds(cfg, db, ids.first, r, PlatformAdaptation);
    CreateNextAdds(cfg, db, ids.first, r, CaseAggregation);
    CreateNextAdds(cfg, db, ids.first, r, ReportGeneration);
    if k.C2Analysis? {
      var d := CreateNext(cfg, db, ids.first, r, PlatformAdaptation);
      CreateNextStages(cfg, db, ids.first, r, PlatformAdaptation);
      CreateNextAdds(cfg, d, ids.second, r, C2Adaptation);
      OnlyAddsTwice(db, d, Advance(cfg, db, s, ids));
    }
  }

  // ---------- claims and workers ----------

  /** After the sweep, a claim is granted if and only if its stage is queued, due and of a claimable kind; then
      there is one more attempt, with the next number, and its lease, and the run is running. */
  lemma ClaimMeans(cfg: Config, db: Db, order: seq<LeaseId>, g: GrantIds, now: int)
    requires Refs(db)
    ensures var mid, d := Step(cfg, db, SweepLeases(order), now), Step(cfg, db, ClaimStage(order, Some(g)), now);
      if && g.attempt !in mid.attempts && g.lease !in mid.leases && g.stage in mid.stages && mid.stages[g.stage].state == Queued
         && mid.stages[g.stage].kind in cfg.claimable && (mid.stages[g.stage].nextAttemptAt.Some? ==> mid.stages[g.stage].nextAttemptAt.value <= now)
      then
        var stage := mid.stages[g.stage];
        && d.attempts == mid.attempts[g.attempt := Attempt(g.stage, g.executor, Count(mid, g.stage) + 1, AttemptLeased, now, None)]
        && d.leases == mid.leases[g.lease := Lease(g.stage, g.attempt, g.executor, g.token, now + cfg.leaseTtl, None)]
        && d.stages == mid.stages[g.stage := stage.(state := Leased, nextAttemptAt := None)]
        && stage.run in mid.runs && d.runs == mid.runs[stage.run := mid.runs[stage.run].(status := RunRunning)]
        && d.requests == mid.requests
      else d == mid
  {
    hide Sweep, Count;
  }

  /** The report ends its run: by its verdict, and as partial if the run was; a finished aggregation leaves a
      report stage behind. */
  lemma ReportMeans(cfg: Config, db: Db, s: StageId, verdict: Verdict, id: StageId, now: int)
    requires Refs(db) && s in db.stages && db.stages[s].state == Queued && id !in db.stages
    requires db.stages[s].kind in {CaseAggregation, ReportGeneration}
    ensures var d, r := Step(cfg, db, ReportStage([], s, ReportDone(verdict), id), now), db.stages[s].run;
      && s in d.stages && d.stages[s] == db.stages[s].(state := Completed)
      && (db.stages[s].kind == CaseAggregation ==> HasStage(d, r, ReportGeneration) && d.runs == db.runs)
      && (db.stages[s].kind == ReportGeneration ==>
            && r in d.runs && d.runs[r].status == RunTerminal
            && (d.runs[r].result == Some(ResultFailed) <==> verdict == VerdictFailed)
            && (d.runs[r].result == Some(ResultInconclusive) <==> verdict == Inconclusive)
            && (d.runs[r].result == Some(ResultPartial) <==>
                  verdict !in {VerdictFailed, Inconclusive} && db.runs[r].result == Some(ResultPartial))
            && (d.runs[r].result == Some(ResultCompleted) <==>
                  verdict !in {VerdictFailed, Inconclusive} && db.runs[r].result != Some(ResultPartial)))
  {
    hide HasStage, CreateNext;
    if db.stages[s].kind == CaseAggregation {
      CreatedExists(cfg, SetStage(db, s, Completed), id, db.stages[s].run, ReportGeneration);
    }
  }

  /** The adaptation worker's three ends of a queued adaptation; a failure ends the run at once, a rejected bundle
      when the worker finds the failed stage. */
  lemma AdaptationMeans(cfg: Config, db: Db, s: StageId, adapted: AdaptOutcome, now: int)
    requires Refs(db)
    ensures var d := Step(cfg, db, AdaptStage(s, adapted), now);
      if s in db.stages && db.stages[s].kind in {PlatformAdaptation, C2Adaptation} && db.stages[s].state == Queued then
        var r := db.stages[s].run;
        && d.stages == db.stages[s := db.stages[s].(state := if adapted == AdaptDone then Completed else Failed)]
        && r in db.runs && d.attempts == db.attempts && d.leases == db.leases && d.requests == db.requests
        && d.runs == (if adapted == AdaptFailed then db.runs[r := db.runs[r].(status := RunTerminal, result := Some(ResultInconclusive))] else db.runs)
      else d == db
  {}

  /** A new run has its platform analysis queued, when it is submitted or else when it is confirmed, once. */
  lemma ConfirmationMeans(cfg: Config, db: Db, r: RunId, id: StageId, c2: bool, awaiting: bool, now: int)
    requires Refs(db) && id !in db.stages
    ensures r !in db.runs ==>
      var d := Step(cfg, db, SubmitRun(r, c2, awaiting, id), now);
      && r in d.runs && d.runs[r] == Run(if awaiting then RunAwaiting else RunQueued, None, c2)
      && (if awaiting then d.stages == db.stages else StageIs(d, id, r, PlatformAnalysis, Queued))
    ensures r in db.runs ==>
      var d := Step(cfg, db, ConfirmRun(r, id), now);
      if db.runs[r].status == RunAwaiting
      then StageIs(d, id, r, PlatformAnalysis, Queued) && d.runs == db.runs[r := db.runs[r].(status := RunQueued)]
      else d == db
  {}

  // ---------- what a completion is followed by ----------

  /** The stages of these kinds exist in the run. */
  predicate HasBoth(db: Db, r: RunId, j: StageKind, k: StageKind) { HasStage(db, r, j) && HasStage(db, r, k) }

  /** What has to exist once a stage has completed and the run goes on. */
  ghost predicate FollowedUp(d: Db, s: StageId)
    requires Refs(d) && s in d.stages
  {
    var r, k := d.stages[s].run, d.stages[s].kind;
    match k
    case PlatformAnalysis => HasStage(d, r, if d.runs[r].c2Enabled then C2Analysis else PlatformAdaptation)
    case C2Analysis => HasBoth(d, r, PlatformAdaptation, C2Adaptation)
    case CaseAggregation => HasStage(d, r, ReportGeneration)
    case ReportGeneration => d.runs[r].status == RunTerminal
    case _ =>
      if k.PlatformAdaptation? && !d.runs[r].c2Enabled then HasStage(d, r, CaseAggregation)
      else HasStageIn(d, r, PlatformAdaptation, Completed) && HasStageIn(d, r, C2Adaptation, Completed) ==> HasStage(d, r, CaseAggregation)
  }

  lemma CreatedExists(cfg: Config, db: Db, id: StageId, r: RunId, k: StageKind)
    requires Refs(db) && r in db.runs && id !in db.stages
    ensures var d := CreateNext(cfg, db, id, r, k);
      && HasStage(d, r, k) && d == db.(stages := d.stages)
      && (forall s :: s in db.stages ==> s in d.stages && d.stages[s] == db.stages[s])
      && (forall s :: s in d.stages && s !in db.stages ==> s == id && d.stages[s].run == r && d.stages[s].kind == k && d.stages[s].state == Queued)
      && (forall j :: HasStage(db, r, j) ==> HasStage(d, r, j))
  {
    var d := CreateNext(cfg, db, id, r, k);
    if !HasStage(db, r, k) { assert IsStage(d, id, r, k); }
    forall j | HasStage(db, r, j) ensures HasStage(d, r, j) {
      var s :| s in db.stages && IsStage(db, s, r, j);
      assert IsStage(d, s, r, j);
    }
  }

  lemma BothAdapted(db: Db, r: RunId)
    requires UniqueKinds(db) && HasStageIn(db, r, PlatformAdaptation, Completed) && HasStageIn(db, r, C2Adaptation, Completed)
    ensures |Adaptations(db, r)| == 2 && forall a :: a in Adaptations(db, r) ==> db.stages[a].state == Completed
  {
    var p :| p in db.stages && StageIs(db, p, r, PlatformAdaptation, Completed);
    var c :| c in db.stages && StageIs(db, c, r, C2Adaptation, Completed);
    forall a | a in Adaptations(db, r) ensures a in {p, c} {
      assert SameKind(db, a, p) || SameKind(db, a, c);
    }
    assert Adaptations(db, r) == {p, c};
  }

  lemma AdvanceFollowsUp(cfg: Config, db: Db, s: StageId, ids: Fresh)
    requires Refs(db) && UniqueKinds(db) && s in db.stages && Unused(db, ids)
    ensures var d := Advance(cfg, db, s, ids); s in d.stages && FollowedUp(d, s)
  {
    hide HasStage, HasStageIn, CreateNext, UniqueKinds;
    var r, k, d := db.stages[s].run, db.stages[s].kind, Advance(cfg, db, s, ids);
    CreatedExists(cfg, db, ids.first, r, C2Analysis);
    CreatedExists(cfg, db, ids.first, r, PlatformAdaptation);
    CreatedExists(cfg, db, ids.first, r, CaseAggregation);
    CreatedExists(cfg, db, ids.first, r, ReportGeneration);
    if k.C2Analysis? {
      CreatedExists(cfg, CreateNext(cfg, db, ids.first, r, PlatformAdaptation), ids.second, r, C2Adaptation);
    }
    if Adaptation(k) && d == db && HasStageIn(db, r, PlatformAdaptation, Completed) && HasStageIn(db, r, C2Adaptation, Completed) {
      BothAdapted(db, r);
    }
  }

  /** Nothing stalls: after an answered completion that lets the run go on, its next stages exist. */
  lemma CompletionIsFollowed(cfg: Config, db: Db, q: Request, ids: Fresh, now: int, d: Db, response: Response)
    requires Refs(db) && Refs(d) && UniqueKinds(db) && q.message.call.CompleteCall? && Answers(cfg, db, q, ids, now, d, response)
    ensures Entitled(db, q)
    ensures q.message.stage in d.stages
    ensures FollowedUp(d, q.message.stage)
              || (q.message.call.outcome == Some(Unsupported) && db.stages[q.message.stage].kind == PlatformAnalysis)
  {
    hide HasStage, HasStageIn, Complete, UniqueKinds, FollowedUp;
    AnswersPerform(cfg, db, q, ids, now, d, response);
    CompletionMeans(cfg, db, q, ids, now, d, response);
    var s, l, outcome := q.message.stage, q.message.lease, q.message.call.outcome.value;
    if !(outcome.Unsupported? && db.stages[s].kind.PlatformAnalysis?) {
      CompleteFollowsUp(cfg, db, l, outcome, ids, now);
      RecordsFollow(Complete(cfg, db, l, outcome, ids, now).0, d, s);
    }
  }

  lemma CompleteFollowsUp(cfg: Config, db: Db, l: LeaseId, outcome: StageState, ids: Fresh, now: int)
    requires Refs(db) && UniqueKinds(db) && l in db.leases && Completion(outcome) && Unused(db, ids)
    requires !(outcome.Unsupported? && db.stages[db.leases[l].stage].kind.PlatformAnalysis?)
    ensures var d, s := Complete(cfg, db, l, outcome, ids, now).0, db.leases[l].stage; s in d.stages && FollowedUp(d, s)
  {
    hide Advance, UniqueKinds, FollowedUp;
    var s := db.leases[l].stage;
    var r := db.stages[s].run;
    var ended := EndLease(db, l, now, AttemptCompleted, outcome, Unscheduled(db, l));
    var partial := SetRun(ended, r, db.runs[r].status, Some(ResultPartial));
    EndLeaseKinds(db, l, now, AttemptCompleted, outcome, Unscheduled(db, l));
    SameStagesKinds(ended, partial);
    AdvanceFollowsUp(cfg, ended, s, ids);
    AdvanceFollowsUp(cfg, partial, s, ids);
  }

  lemma EndLeaseKinds(db: Db, l: LeaseId, now: int, ended: AttemptState, state: StageState, next: Option<int>)
    requires Refs(db) && UniqueKinds(db) && l in db.leases
    ensures UniqueKinds(EndLease(db, l, now, ended, state, next))
  {
    var d := EndLease(db, l, now, ended, state, next);
    assert forall s, o :: SameKind(d, s, o) ==> SameKind(db, s, o);
  }

  lemma SameStagesKinds(db: Db, d: Db)
    requires UniqueKinds(db) && d.stages == db.stages
    ensures UniqueKinds(d)
  {
    assert forall s, o :: SameKind(d, s, o) ==> SameKind(db, s, o);
  }

  lemma RecordsFollow(db: Db, d: Db, s: StageId)
    requires Refs(db) && Refs(d) && s in db.stages && d == db.(requests := d.requests)
    ensures FollowedUp(db, s) <==> FollowedUp(d, s)
  {
    assert forall r, k :: HasStage(db, r, k) == HasStage(d, r, k);
    assert forall r, k, state :: HasStageIn(db, r, k, state) == HasStageIn(d, r, k, state);
  }
}
