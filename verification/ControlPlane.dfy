/** The handlers as they run: they write the tables row by row. Each is proved to do what its function in
    `Handlers` says, so everything proved about runs of the protocol holds of them. */
module ControlPlane {
  import opened Tables
  import opened Handlers
  import opened Protocol
  import opened LeaseSafety

  class Server {
    const cfg: Config
    var runs: map<RunId, Run>
    var stages: map<StageId, Stage>
    var attempts: map<AttemptId, Attempt>
    var leases: map<LeaseId, Lease>
    var requests: map<(ExecutorId, nat), Record>
    ghost var clock: int // when the last request was handled

    /** The tables satisfy the invariant of the protocol at the time of the last request. */
    ghost predicate Valid()
      reads this
    {
      Invariant(State(), clock)
    }

    constructor (cfg: Config, now: int)
      ensures State() == EMPTY && this.cfg == cfg && clock == now && Valid()
    {
      EmptySound(now);
      this.cfg, clock := cfg, now;
      runs, stages, attempts, leases, requests := map[], map[], map[], map[], map[];
    }

    ghost function State(): Db
      reads this
    {
      Db(runs, stages, attempts, leases, requests)
    }

    method CloseLease(l: LeaseId, now: int, ended: AttemptState, state: StageState, next: Option<int>)
      requires Refs(State()) && l in leases
      modifies this
      ensures State() == EndLease(old(State()), l, now, ended, state, next)
    {
      var lease := leases[l];
      leases := leases[l := lease.(releasedAt := Some(now))];
      attempts := attempts[lease.attempt := attempts[lease.attempt].(state := ended, endedAt := Some(now))];
      stages := stages[lease.stage := stages[lease.stage].(state := state, nextAttemptAt := next)];
    }

    /** The loop over the stages of a run that wait or are queued. */
    method CancelPendingStages(r: RunId)
      requires Refs(State())
      modifies this`stages
      ensures State() == CancelPending(old(State()), r)
    {
      ghost var before := State();
      var todo := set s | s in stages && stages[s].run == r && Pending(stages[s].state);
      while todo != {}
        invariant stages.Keys == before.stages.Keys
        invariant forall s :: s in todo ==> s in stages && before.stages[s].run == r && Pending(before.stages[s].state)
        invariant forall s :: s in stages ==>
                    stages[s] == (if before.stages[s].run == r && Pending(before.stages[s].state) && s !in todo
                                  then before.stages[s].(state := Cancelled) else before.stages[s])
        decreases todo
      {
        var s :| s in todo;
        stages := stages[s := stages[s].(state := Cancelled)];
        todo := todo - {s};
      }
      assert stages == CancelPending(before, r).stages;
    }

    method EndCancelling(r: RunId, s: StageId)
      requires Refs(State()) && r in runs
      modifies this
      ensures State() == FinishCancellation(old(State()), r, s)
    {
      var others := exists o :: o in stages && o != s && stages[o].run == r && Active(stages[o].state);
      if !others {
        CancelPendingStages(r);
        runs := runs[r := runs[r].(status := RunTerminal, result := Some(ResultCancelled))];
      }
    }

    method FailRun(r: RunId, k: StageKind)
      requires Refs(State()) && r in runs
      modifies this
      ensures State() == SetRun(old(State()), r, RunTerminal, Some(FailureResult(k)))
    {
      var result := if k.PlatformAnalysis? then ResultFailed else if k.C2Analysis? then ResultPartial else ResultInconclusive;
      runs := runs[r := runs[r].(status := RunTerminal, result := Some(result))];
    }

    method CountAttempts(s: StageId) returns (n: nat)
      ensures n == Count(State(), s)
    {
      var mine := set a | a in attempts && attempts[a].stage == s;
      assert mine == AttemptsOf(State(), s);
      n := |mine|;
    }

    method Expire(l: LeaseId, now: int)
      requires Refs(State()) && l in leases
      modifies this
      ensures State() == ExpireAttempt(old(State()), l, now)
    {
      var s := leases[l].stage;
      var stage := stages[s];
      var count := CountAttempts(s);
      if runs[stage.run].status == RunCancelling {
        CloseLease(l, now, AttemptCancelled, Cancelled, stage.nextAttemptAt);
        EndCancelling(stage.run, s);
      } else if count < stage.maxAttempts {
        CloseLease(l, now, AttemptExpired, Queued, Some(now + Backoff(count)));
      } else {
        CloseLease(l, now, AttemptExpired, Failed, stage.nextAttemptAt);
        FailRun(stage.run, stage.kind);
      }
    }

    /** The number of leases a sweep over these rows expires. */
    static ghost function ExpiredIn(db: Db, order: seq<LeaseId>, now: int): nat
      requires Refs(db)
      decreases |order|
    {
      if order == [] then 0 else
        (if Live(db, order[0]) && Overdue(db, order[0], now) then 1 else 0)
        + ExpiredIn(SweepOne(db, order[0], now), order[1..], now)
    }

    /** The scheduler's loop over the rows of the query. */
    method ExpireLeases(order: seq<LeaseId>, now: int) returns (expired: nat)
      requires Refs(State())
      modifies this
      ensures State() == Sweep(old(State()), order, now)
      ensures expired == ExpiredIn(old(State()), order, now)
    {
      ghost var before := State();
      expired := 0;
      var i := 0;
      while i < |order|
        invariant 0 <= i <= |order|
        invariant Refs(State())
        invariant Sweep(State(), order[i..], now) == Sweep(before, order, now)
        invariant expired + ExpiredIn(State(), order[i..], now) == ExpiredIn(before, order, now)
      {
        var l := order[i];
        assert order[i..][1..] == order[i + 1..];
        if l in leases && leases[l].releasedAt.None? {
          var deadline := attempts[leases[l].attempt].startedAt + stages[leases[l].stage].timeout;
          if leases[l].expiresAt <= now || deadline <= now {
            Expire(l, now);
            expired := expired + 1;
          }
        }
        i := i + 1;
      }
    }

    /** The rows a granted claim writes. */
    method GrantStage(g: GrantIds, now: int)
      requires Refs(State()) && Grantable(cfg, State(), g, now)
      modifies this
      ensures var before := old(State());
        var r := before.stages[g.stage].run;
        State() == SetRun(Grant(cfg, before, g, now), r, RunRunning, before.runs[r].result)
    {
      var count := CountAttempts(g.stage);
      var r := stages[g.stage].run;
      attempts := attempts[g.attempt := Attempt(g.stage, g.executor, count + 1, AttemptLeased, now, None)];
      leases := leases[g.lease := Lease(g.stage, g.attempt, g.executor, g.token, now + cfg.leaseTtl, None)];
      stages := stages[g.stage := stages[g.stage].(state := Leased, nextAttemptAt := None)];
      runs := runs[r := runs[r].(status := RunRunning)];
    }

    method ClaimStage(order: seq<LeaseId>, pick: Option<GrantIds>, now: int) returns (granted: bool)
      requires Refs(State())
      modifies this
      ensures State() == Claim(cfg, old(State()), order, pick, now)
      ensures granted <==> pick.Some? && Grantable(cfg, Sweep(old(State()), order, now), pick.value, now)
    {
      var expired := ExpireLeases(order, now);
      granted := false;
      if pick.Some? {
        var g := pick.value;
        if && g.stage in stages && g.attempt !in attempts && g.lease !in leases
           && stages[g.stage].state == Queued && stages[g.stage].kind in cfg.claimable
           && (stages[g.stage].nextAttemptAt.Some? ==> stages[g.stage].nextAttemptAt.value <= now)
        {
          GrantStage(g, now);
          granted := true;
        }
      }
    }

    method CreateNextStage(id: StageId, r: RunId, k: StageKind)
      requires Refs(State()) && r in runs && id !in stages
      modifies this
      ensures State() == CreateNext(cfg, old(State()), id, r, k) && runs == old(runs)
    {
      var existing := Exists(r, k);
      if !existing {
        stages := stages[id := Stage(r, k, Queued, cfg.MaxAttempts(k), cfg.Timeout(k), None)];
      }
    }

    method AdvanceWorkflow(s: StageId, ids: Fresh)
      requires Refs(State()) && s in stages && Unused(State(), ids)
      modifies this
      ensures State() == Advance(cfg, old(State()), s, ids) && runs.Keys == old(runs).Keys
    {
      var r := stages[s].run;
      var k := stages[s].kind;
      if k.PlatformAnalysis? {
        CreateNextStage(ids.first, r, if runs[r].c2Enabled then C2Analysis else PlatformAdaptation);
      } else if k.C2Analysis? {
        CreateNextStage(ids.first, r, PlatformAdaptation);
        CreateNextStage(ids.second, r, C2Adaptation);
      } else if k.PlatformAdaptation? && !runs[r].c2Enabled {
        CreateNextStage(ids.first, r, CaseAggregation);
      } else if k.PlatformAdaptation? || k.C2Adaptation? {
        var both := set a | a in stages && stages[a].run == r && (stages[a].kind.PlatformAdaptation? || stages[a].kind.C2Adaptation?);
        assert both == Adaptations(State(), r);
        var done := forall a :: a in both ==> stages[a].state == Completed;
        if |both| == 2 && done {
          CreateNextStage(ids.first, r, CaseAggregation);
        }
      } else if k.CaseAggregation? {
        CreateNextStage(ids.first, r, ReportGeneration);
      } else {
        runs := runs[r := runs[r].(status := RunTerminal, result := Some(ResultCompleted))];
      }
    }

    method HeartbeatStage(l: LeaseId, now: int) returns (response: Response)
      requires Refs(State()) && l in leases
      modifies this
      ensures (State(), response) == Heartbeat(cfg, old(State()), l, now)
    {
      var s, a := leases[l].stage, leases[l].attempt;
      if runs[stages[s].run].status == RunCancelling {
        leases := leases[l := leases[l].(expiresAt := now + cfg.leaseTtl)];
        return HeartbeatReply(now + cfg.leaseTtl, Some(StopCancelled));
      }
      if attempts[a].startedAt + stages[s].timeout <= now {
        Expire(l, now);
        return HeartbeatReply(now, Some(StopTimeout));
      }
      leases := leases[l := leases[l].(expiresAt := now + cfg.leaseTtl)];
      stages := stages[s := stages[s].(state := Running)];
      attempts := attempts[a := attempts[a].(state := AttemptRunning)];
      return HeartbeatReply(now + cfg.leaseTtl, None);
    }

    method CompleteStage(l: LeaseId, outcome: StageState, ids: Fresh, now: int) returns (response: Response)
      requires Refs(State()) && l in leases && Completion(outcome) && Unused(State(), ids)
      modifies this
      ensures (State(), response) == Complete(cfg, old(State()), l, outcome, ids, now)
    {
      var s := leases[l].stage;
      var r := stages[s].run;
      CloseLease(l, now, AttemptCompleted, outcome, stages[s].nextAttemptAt);
      if outcome.Unsupported? && stages[s].kind.PlatformAnalysis? {
        runs := runs[r := runs[r].(status := RunTerminal, result := Some(ResultUnsupported))];
      } else if outcome.Partial? {
        runs := runs[r := runs[r].(result := Some(ResultPartial))];
        AdvanceWorkflow(s, ids);
      } else {
        AdvanceWorkflow(s, ids);
      }
      response := CompleteReply(s, outcome, runs[r].status, runs[r].result);
    }

    method FailStage(l: LeaseId, retryable: bool, now: int) returns (response: Response)
      requires Refs(State()) && l in leases
      modifies this
      ensures (State(), response) == Fail(old(State()), l, retryable, now)
    {
      var s := leases[l].stage;
      var stage := stages[s];
      var count := CountAttempts(s);
      if retryable && count < stage.maxAttempts {
        CloseLease(l, now, AttemptFailed, Queued, Some(now + Backoff(count)));
        response := FailReply(s, Queued, Some(now + Backoff(count)));
      } else {
        CloseLease(l, now, AttemptFailed, Failed, stage.nextAttemptAt);
        FailRun(stage.run, stage.kind);
        response := FailReply(s, Failed, stage.nextAttemptAt);
      }
    }

    method AcknowledgeCancellation(l: LeaseId, now: int) returns (response: Response)
      requires Refs(State()) && l in leases
      modifies this
      ensures (State(), response) == Acknowledge(old(State()), l, now)
    {
      var s := leases[l].stage;
      var r := stages[s].run;
      CloseLease(l, now, AttemptCancelled, Cancelled, stages[s].nextAttemptAt);
      EndCancelling(r, s);
      response := AckReply(s, Cancelled, runs[r].status);
    }

    /** A signed request against a stage; an error leaves every table alone, as the rollback does. */
    method MutateStage(q: Request, signed: bool, ids: Fresh, other: OtherOutcome, now: int) returns (reply: Reply)
      requires Refs(State()) && Unused(State(), ids)
      modifies this
      ensures (State(), reply) == Mutate(cfg, old(State()), q, signed, ids, other, now)
    {
      var k, m := KeyOf(q), q.message;
      if !signed { return Error(401); }
      var replay := k in requests;
      if replay {
        if requests[k].message != m { return Error(409); }
      } else {
        var used := exists j :: j in requests && j.0 == q.executor && requests[j].message.nonce == m.nonce;
        if used { return Error(409); }
      }
      if m.stage !in stages || m.attempt !in attempts || m.lease !in leases { return Error(404); }
      var attempt, lease := attempts[m.attempt], leases[m.lease];
      if || attempt.stage != m.stage || attempt.executor != q.executor
         || lease.attempt != m.attempt || lease.executor != q.executor || lease.stage != m.stage
      { return Error(403); }
      if || (lease.releasedAt.Some? && !replay) || (!replay && lease.expiresAt <= now) || q.token != lease.token
      { return Error(409); }
      if replay && requests[k].response.Some? { return Ok(requests[k].response.value); }
      var response: Option<Response> := None;
      match m.call {
        case HeartbeatCall =>
          var r := HeartbeatStage(m.lease, now);
          response := Some(r);
        case CompleteCall(outcome) =>
          if outcome.None? { return Error(500); }
          if !Completion(outcome.value) { return Error(422); }
          var r := CompleteStage(m.lease, outcome.value, ids, now);
          response := Some(r);
        case FailCall(retryable) =>
          var r := FailStage(m.lease, retryable, now);
          response := Some(r);
        case AckCall =>
          if runs[stages[lease.stage].run].status != RunCancelling { return Error(409); }
          var r := AcknowledgeCancellation(m.lease, now);
          response := Some(r);
        case OtherCall(_) =>
          match other {
            case OtherError(code) => if code != 200 { return Error(code); }
            case OtherCommit(r) => response := r;
          }
      }
      requests := requests[k := Record(m, response)];
      reply := if response.Some? then Ok(response.value) else Error(422);
    }

    method SubmitRun(r: RunId, c2: bool, awaiting: bool, id: StageId)
      requires Refs(State()) && r !in runs && id !in stages
      modifies this
      ensures State() == Submit(cfg, old(State()), r, c2, awaiting, id)
    {
      runs := runs[r := Run(if awaiting then RunAwaiting else RunQueued, None, c2)];
      if !awaiting { CreatePlatformStage(id, r); }
    }

    method CreatePlatformStage(id: StageId, r: RunId)
      requires Refs(State()) && r in runs && id !in stages
      modifies this`stages
      ensures State() == AddStage(cfg, old(State()), id, r, PlatformAnalysis)
    {
      stages := stages[id := Stage(r, PlatformAnalysis, Queued, cfg.MaxAttempts(PlatformAnalysis), cfg.Timeout(PlatformAnalysis), None)];
    }

    method ConfirmRun(r: RunId, id: StageId)
      requires Refs(State()) && r in runs && id !in stages
      modifies this
      ensures State() == Confirm(cfg, old(State()), r, id)
    {
      if runs[r].status == RunAwaiting {
        runs := runs[r := runs[r].(status := RunQueued)];
        CreatePlatformStage(id, r);
      }
    }

    method CancelRun(r: RunId)
      requires Refs(State()) && r in runs
      modifies this
      ensures State() == Cancel(old(State()), r)
    {
      if runs[r].status == RunTerminal { return; }
      var active := exists s :: s in stages && stages[s].run == r && Active(stages[s].state);
      if active {
        runs := runs[r := runs[r].(status := RunCancelling)];
      } else {
        runs := runs[r := runs[r].(status := RunTerminal, result := Some(ResultCancelled))];
        CancelPendingStages(r);
      }
    }

    /** `process_once` of the adaptation worker on the stage it picked. */
    method AdaptOnce(s: StageId, outcome: AdaptOutcome)
      requires Refs(State())
      modifies this
      ensures State() == Adapt(old(State()), s, outcome)
    {
      if !(s in stages && Adaptation(stages[s].kind) && stages[s].state == Queued) { return; }
      if outcome.AdaptDone? {
        stages := stages[s := stages[s].(state := Completed)];
        return;
      }
      stages := stages[s := stages[s].(state := Failed)];
      if outcome.AdaptFailed? {
        var r := stages[s].run;
        runs := runs[r := runs[r].(status := RunTerminal, result := Some(ResultInconclusive))];
      }
    }

    /** The same worker when no adaptation stage is queued. */
    method AdoptOnce(r: RunId)
      requires Refs(State())
      modifies this
      ensures State() == AdoptOrphan(old(State()), r)
    {
      if r in runs && runs[r].status != RunTerminal {
        var failed := exists s :: s in stages && stages[s].run == r && Adaptation(stages[s].kind) && stages[s].state == Failed;
        if failed {
          runs := runs[r := runs[r].(status := RunTerminal, result := Some(ResultInconclusive))];
        }
      }
    }

    method Exists(r: RunId, k: StageKind) returns (found: bool)
      ensures found <==> HasStage(State(), r, k)
    {
      found := exists s :: s in stages && stages[s].run == r && stages[s].kind == k;
      if found {
        ghost var s :| s in stages && stages[s].run == r && stages[s].kind == k;
        assert IsStage(State(), s, r, k);
      }
    }

    method IsCompleted(r: RunId, k: StageKind) returns (completed: bool)
      ensures completed <==> HasStageIn(State(), r, k, Completed)
    {
      completed := exists s :: s in stages && stages[s].run == r && stages[s].kind == k && stages[s].state == Completed;
      if completed {
        ghost var s :| s in stages && stages[s].run == r && stages[s].kind == k && stages[s].state == Completed;
        assert StageIs(State(), s, r, k, Completed);
      }
    }

    /** The report worker's loop over the running runs. */
    method EnsureReadyAggregationStages(ready: seq<(RunId, StageId)>)
      requires Refs(State())
      modifies this`stages
      ensures State() == EnsureAll(cfg, old(State()), ready)
    {
      ghost var before := State();
      var i := 0;
      while i < |ready|
        invariant 0 <= i <= |ready|
        invariant Refs(State())
        invariant EnsureAll(cfg, State(), ready[i..]) == EnsureAll(cfg, before, ready)
      {
        assert ready[i..][1..] == ready[i + 1..];
        EnsureReady(ready[i].0, ready[i].1);
        i := i + 1;
      }
    }

    method EnsureReady(r: RunId, id: StageId)
      requires Refs(State())
      modifies this`stages
      ensures State() == EnsureAggregation(cfg, old(State()), r, id)
    {
      if r !in runs || id in stages || runs[r].status != RunRunning { return; }
      var platform := IsCompleted(r, PlatformAdaptation);
      var c2 := IsCompleted(r, C2Adaptation);
      var existing := Exists(r, CaseAggregation);
      if platform && (runs[r].c2Enabled ==> c2) && !existing {
        stages := stages[id := Stage(r, CaseAggregation, Queued, cfg.MaxAttempts(CaseAggregation), cfg.Timeout(CaseAggregation), None)];
      }
    }

    /** `process_once` of the report worker: a raise rolls every table back before it marks the stage. */
    method ReportOnce(ready: seq<(RunId, StageId)>, s: StageId, outcome: ReportOutcome, id: StageId)
      requires Refs(State())
      modifies this
      ensures State() == Report(cfg, old(State()), ready, s, outcome, id)
    {
      var savedRuns, savedStages := runs, stages;
      EnsureReadyAggregationStages(ready);
      if !(s in stages && (stages[s].kind.CaseAggregation? || stages[s].kind.ReportGeneration?) && stages[s].state == Queued) {
        return;
      }
      if outcome.ReportRaised? {
        runs, stages := savedRuns, savedStages;
        if s in stages { stages := stages[s := stages[s].(state := Failed)]; }
      } else {
        MaterializeReport(s, outcome.verdict, id);
      }
    }

    method MaterializeReport(s: StageId, verdict: Verdict, id: StageId)
      requires Refs(State()) && Reportable(State(), s)
      modifies this
      ensures State() == FinishReport(cfg, old(State()), s, verdict, id)
    {
      var r := stages[s].run;
      if stages[s].kind.CaseAggregation? {
        if id in stages { return; }
        stages := stages[s := stages[s].(state := Completed)];
        CreateNextStage(id, r, ReportGeneration);
      } else {
        stages := stages[s := stages[s].(state := Completed)];
        var result := runs[r].result;
        if verdict.VerdictFailed? {
          result := Some(ResultFailed);
        } else if verdict.Inconclusive? {
          result := Some(ResultInconclusive);
        } else if result != Some(ResultPartial) {
          result := Some(ResultCompleted);
        }
        runs := runs[r := runs[r].(status := RunTerminal, result := result)];
      }
    }

    /** One step of the protocol, by the handler it names. Unless the clock goes back, it keeps the server
        valid and forgets no row. */
    method Handle(act: Action, now: int)
      requires Valid() && clock <= now
      modifies this
      ensures Valid() && clock == now && Grows(old(State()), State())
      ensures State() == Step(cfg, old(State()), act, now)
    {
      hide Step, Invariant, Grows, Refs;
      HasRefs(State(), clock);
      StepSound(cfg, State(), act, now, clock);
      Dispatch(act, now);
      clock := now;
    }

    method Dispatch(act: Action, now: int)
      requires Refs(State())
      modifies this
      ensures State() == Step(cfg, old(State()), act, now)
    {
      hide Submit, Confirm, Cancel, Sweep, Claim, Mutate, Adapt, AdoptOrphan, Report;
      match act {
        case SubmitRun(r, c2, awaiting, id) => if r !in runs && id !in stages { SubmitRun(r, c2, awaiting, id); }
        case ConfirmRun(r, id) => if r in runs && id !in stages { ConfirmRun(r, id); }
        case CancelRun(r) => if r in runs { CancelRun(r); }
        case SweepLeases(order) => var expired := ExpireLeases(order, now);
        case ClaimStage(order, pick) => var granted := ClaimStage(order, pick, now);
        case MutateStage(q, signed, ids, other) =>
          if ids.first !in stages && ids.second !in stages && ids.first != ids.second {
            var reply := MutateStage(q, signed, ids, other, now);
          }
        case AdaptStage(s, adapted) => AdaptOnce(s, adapted);
        case AdoptRun(r) => AdoptOnce(r);
        case ReportStage(ready, s, reported, id) => ReportOnce(ready, s, reported, id);
      }
    }
  }

  /** A server that handles any sequence of events, in the order of their times, has the tables of the
      protocol and is valid after each of them. */
  method Serve(cfg: Config, trace: seq<Event>, start: int) returns (server: Server)
    requires Timely(trace, start)
    ensures fresh(server) && server.Valid() && server.clock == EndOf(trace, start)
    ensures server.State() == Exec(cfg, EMPTY, trace)
  {
    hide Step, Invariant, Refs;
    server := new Server(cfg, start);
    HasRefs(EMPTY, start);
    var i := 0;
    while i < |trace|
      invariant 0 <= i <= |trace| && fresh(server) && server.cfg == cfg && server.Valid()
      invariant server.clock == EndOf(trace[..i], start) && Timely(trace[i..], server.clock)
      invariant Refs(server.State()) && Exec(cfg, server.State(), trace[i..]) == Exec(cfg, EMPTY, trace)
    {
      assert trace[i..][1..] == trace[i + 1..] && trace[..i + 1][i] == trace[i];
      server.Handle(trace[i].act, trace[i].now);
      HasRefs(server.State(), server.clock);
      i := i + 1;
    }
    assert trace[..|trace|] == trace;
  }

  lemma HasRefs(db: Db, t: int)
    requires Invariant(db, t)
    ensures Refs(db)
  {}
}
