/** What holds after every history that starts from empty tables, and what does not: a claim looks at
    the stage and never at the run, so with an unrestricted scope it takes a run out of its end. */
module Histories {
  import opened Tables
  import opened Handlers
  import opened LeaseSafety
  import opened Workflow
  import opened Protocol
  import opened Sweeping

  /** At any moment of any history a leased or running stage has exactly one unreleased lease, that of its
      newest attempt, which is open; its other attempts have ended; any other stage has no lease. */
  lemma LeaseExclusivity(cfg: Config, trace: seq<Event>, t: int, s: StageId)
    requires Timely(trace, t) && s in Exec(cfg, EMPTY, trace).stages
    ensures var db := Exec(cfg, EMPTY, trace);
      && (Active(db.stages[s].state) <==> exists l :: Holds(db, l, s))
      && (forall l, m :: Holds(db, l, s) && Holds(db, m, s) ==> l == m)
      && (forall l, a :: Holds(db, l, s) && a in db.attempts && db.attempts[a].stage == s ==>
            (Open(db.attempts[a].state) <==> a == db.leases[l].attempt)
            && db.attempts[a].number <= db.attempts[db.leases[l].attempt].number)
  {
    hide RoomLeft, DistinctNumbers, Paired, LeasesOpen, OpenNewest, ActiveHeld, Timed, Flow, Recorded, Grows, Exec, Count;
    EmptySound(t);
    RunSound(cfg, EMPTY, trace, t);
    ExactlyOneLease(Exec(cfg, EMPTY, trace), s);
  }

  /** A stage that has ended never changes again, whatever follows. */
  lemma EndedStagesStay(cfg: Config, before: seq<Event>, after: seq<Event>, t: int, s: StageId)
    requires Timely(before + after, t) && s in Exec(cfg, EMPTY, before).stages
    requires Final(Exec(cfg, EMPTY, before).stages[s].state)
    ensures var d := Exec(cfg, EMPTY, before + after);
      s in d.stages && d.stages[s] == Exec(cfg, EMPTY, before).stages[s]
  {
    hide Numbered, Guarded, Timed, Flow, Recorded, Exec, AttemptsKept, LeasesKept, RunsKept, Spent;
    EmptySound(t);
    ExecAppend(cfg, EMPTY, before, after);
    TimelyAppend(before, after, t);
    RunSound(cfg, EMPTY, before, t);
    RunSound(cfg, Exec(cfg, EMPTY, before), after, EndOf(before, t));
  }

  lemma {:induction false} ExecAppend(cfg: Config, db: Db, before: seq<Event>, after: seq<Event>)
    requires Refs(db)
    ensures Exec(cfg, db, before + after) == Exec(cfg, Exec(cfg, db, before), after)
    decreases |before|
  {
    hide Step;
    if before == [] {
      assert before + after == after;
    } else {
      assert (before + after)[1..] == before[1..] + after;
      ExecAppend(cfg, Step(cfg, db, before[0].act, before[0].now), before[1..], after);
    }
  }

  lemma {:induction false} TimelyAppend(before: seq<Event>, after: seq<Event>, t: int)
    requires Timely(before + after, t)
    ensures Timely(before, t) && Timely(after, EndOf(before, t))
    decreases |before|
  {
    if before == [] {
      assert before + after == after;
    } else {
      assert (before + after)[1..] == before[1..] + after;
      TimelyAppend(before[1..], after, before[0].now);
    }
  }

  /** Stages of a run come into being in order, one of each kind; the aggregation of a run with C2
      analysis only after both adaptations completed. */
  lemma WorkflowOrder(cfg: Config, trace: seq<Event>, t: int, s: StageId)
    requires Timely(trace, t) && s in Exec(cfg, EMPTY, trace).stages
    ensures var db := Exec(cfg, EMPTY, trace);
      var r, k := db.stages[s].run, db.stages[s].kind;
      && (forall o :: IsStage(db, o, r, k) ==> o == s)
      && Reached(db, r, k)
      && (k.CaseAggregation? && db.runs[r].c2Enabled ==>
            HasStageIn(db, r, PlatformAdaptation, Completed) && HasStageIn(db, r, C2Adaptation, Completed))
  {
    hide Safe, Unstarted, CancelledFinal, Recorded, Grows, Exec, HasStageIn, Passed, Produced;
    EmptySound(t);
    RunSound(cfg, EMPTY, trace, t);
    var db := Exec(cfg, EMPTY, trace);
    forall o | IsStage(db, o, db.stages[s].run, db.stages[s].kind) ensures o == s { assert SameKind(db, s, o); }
  }

  // ---------- the end of a run is not the end for a claim ----------

  ghost predicate Ended(db: Db, r: RunId) { r in db.runs && db.runs[r].status == RunTerminal }

  lemma ExpireAttemptEnded(db: Db, l: LeaseId, now: int, r: RunId)
    requires Refs(db) && l in db.leases && Ended(db, r)
    ensures Ended(ExpireAttempt(db, l, now), r)
  {
    hide OtherActive, Count, Backoff;
  }

  lemma {:induction false} SweepEnded(db: Db, order: seq<LeaseId>, now: int, r: RunId)
    requires Refs(db) && Ended(db, r)
    ensures Ended(Sweep(db, order, now), r)
    decreases |order|
  {
    hide Ended, ExpireAttempt, Overdue;
    if order != [] {
      if Live(db, order[0]) { ExpireAttemptEnded(db, order[0], now, r); }
      SweepEnded(SweepOne(db, order[0], now), order[1..], now, r);
    }
  }

  lemma AdvanceEnded(cfg: Config, db: Db, s: StageId, ids: Fresh, r: RunId)
    requires Refs(db) && s in db.stages && Unused(db, ids) && Ended(db, r)
    ensures Ended(Advance(cfg, db, s, ids), r)
  {
    hide Adaptations, HasStage;
  }

  lemma CompleteEnded(cfg: Config, db: Db, l: LeaseId, outcome: StageState, ids: Fresh, now: int, r: RunId)
    requires Refs(db) && l in db.leases && Completion(outcome) && Unused(db, ids) && Ended(db, r)
    ensures Ended(Complete(cfg, db, l, outcome, ids, now).0, r)
  {
    hide Advance;
    var s := db.leases[l].stage;
    var ended := EndLease(db, l, now, AttemptCompleted, outcome, Unscheduled(db, l));
    AdvanceEnded(cfg, ended, s, ids, r);
    AdvanceEnded(cfg, SetRun(ended, db.stages[s].run, db.runs[db.stages[s].run].status, Some(ResultPartial)), s, ids, r);
  }

  lemma MutateEnded(cfg: Config, db: Db, q: Request, signed: bool, ids: Fresh, other: OtherOutcome, now: int, r: RunId)
    requires Refs(db) && Unused(db, ids) && Ended(db, r)
    ensures Ended(Mutate(cfg, db, q, signed, ids, other, now).0, r)
  {
    hide NonceUsed, ExpireAttempt, Complete, OtherActive, Count;
    var l := q.message.lease;
    if l in db.leases {
      ExpireAttemptEnded(db, l, now, r);
      match q.message.call
      case CompleteCall(outcome) =>
        if outcome.Some? && Completion(outcome.value) { CompleteEnded(cfg, db, l, outcome.value, ids, now, r); }
      case _ =>
    }
  }

  lemma {:induction false} EnsureAllEnded(cfg: Config, db: Db, ready: seq<(RunId, StageId)>, r: RunId)
    requires Refs(db) && Ended(db, r)
    ensures Ended(EnsureAll(cfg, db, ready), r)
    decreases |ready|
  {
    hide HasStage, HasStageIn;
    if ready != [] { EnsureAllEnded(cfg, EnsureAggregation(cfg, db, ready[0].0, ready[0].1), ready[1..], r); }
  }

  lemma ReportEnded(cfg: Config, db: Db, ready: seq<(RunId, StageId)>, s: StageId, outcome: ReportOutcome, id: StageId, r: RunId)
    requires Refs(db) && Ended(db, r)
    ensures Ended(Report(cfg, db, ready, s, outcome, id), r)
  {
    hide EnsureAll, HasStage;
    EnsureAllEnded(cfg, db, ready, r);
  }

  lemma UserEnded(cfg: Config, db: Db, act: Action, now: int, r: RunId)
    requires Refs(db) && Ended(db, r) && (act.SubmitRun? || act.ConfirmRun? || act.CancelRun? || act.AdaptStage? || act.AdoptRun?)
    ensures Ended(Step(cfg, db, act, now), r)
  {
    hide SomeActive, Sweep, Mutate, Report, Claim;
  }

  /** Only a claim can take a run out of its end. */
  lemma StepEnded(cfg: Config, db: Db, act: Action, now: int, r: RunId)
    requires Refs(db) && Ended(db, r) && !act.ClaimStage?
    ensures Ended(Step(cfg, db, act, now), r)
  {
    hide Submit, Confirm, Cancel, Sweep, Claim, Mutate, Adapt, AdoptOrphan, Report, Ended;
    match act
    case SweepLeases(order) => SweepEnded(db, order, now, r);
    case MutateStage(q, signed, ids, other) => if Unused(db, ids) { MutateEnded(cfg, db, q, signed, ids, other, now, r); }
    case ReportStage(ready, s, reported, id) => ReportEnded(cfg, db, ready, s, reported, id, r);
    case _ => UserEnded(cfg, db, act, now, r);
  }

  /** A sweep leaves a queued stage of an ended run as it is, and what it requeues may not run yet. */
  lemma ExpireAttemptClaims(cfg: Config, db: Db, l: LeaseId, now: int, t: int, g: GrantIds, r: RunId)
    requires Sound(db, t) && t <= now && Live(db, l) && Ended(db, r)
    requires g.stage in db.stages && db.stages[g.stage].run == r
    ensures Grantable(cfg, ExpireAttempt(db, l, now), g, now) <==> Grantable(cfg, db, g, now)
  {
    hide Numbered, LeasesOpen, OpenNewest, ActiveHeld, Timed, Flow, OtherActive, Count;
    LiveLease(db, l);
    BackoffPositive(Count(db, db.leases[l].stage));
  }

  lemma {:induction false} Pow2Positive(n: nat)
    ensures 1 <= Pow2(n)
  {
    if 0 < n { Pow2Positive(n - 1); }
  }

  lemma BackoffPositive(n: nat)
    ensures 1 <= Backoff(n)
  {
    Pow2Positive(n);
  }

  lemma {:induction false} SweepClaims(cfg: Config, db: Db, order: seq<LeaseId>, now: int, t: int, g: GrantIds, r: RunId)
    requires Sound(db, t) && t <= now && Ended(db, r) && g.stage in db.stages && db.stages[g.stage].run == r
    ensures var d := Sweep(db, order, now);
      Grows(db, d) && (Grantable(cfg, d, g, now) <==> Grantable(cfg, db, g, now))
    decreases |order|
  {
    hide Numbered, Guarded, Timed, Flow, Grantable, ExpireAttempt, Overdue, AttemptsKept, LeasesKept, RunsKept, Spent;
    if order == [] {
      GrowsSelf(db);
    } else {
      var d := SweepOne(db, order[0], now);
      SoundLater(db, now, t);
      if Live(db, order[0]) {
        ExpireAttemptSound(db, order[0], now, t);
        ExpireAttemptEnded(db, order[0], now, r);
        ExpireAttemptClaims(cfg, db, order[0], now, t, g, r);
      }
      SweepClaims(cfg, d, order[1..], now, now, g, r);
      GrowsThrough(db, d, Sweep(d, order[1..], now));
    }
  }

  /** With any scope: a step takes a run out of its end exactly when it is a claim that may be granted on a
      stage of that run; nothing in the claim asks for the run's status. */
  lemma ReopenedExactly(cfg: Config, db: Db, act: Action, now: int, t: int, r: RunId)
    requires Invariant(db, t) && t <= now && Ended(db, r)
    ensures var d := Step(cfg, db, act, now);
      r in d.runs
      && (d.runs[r].status != RunTerminal <==>
            act.ClaimStage? && act.pick.Some? && Grantable(cfg, db, act.pick.value, now)
            && db.stages[act.pick.value.stage].run == r)
  {
    hide Numbered, Guarded, Timed, Flow, Recorded, Sweep, AttemptsKept, LeasesKept, RunsKept, Spent, Count;
    if act.ClaimStage? {
      var d := Sweep(db, act.order, now);
      SweepEnded(db, act.order, now, r);
      if act.pick.Some? && act.pick.value.stage in db.stages {
        if db.stages[act.pick.value.stage].run == r {
          SweepClaims(cfg, db, act.order, now, t, act.pick.value, r);
        } else {
          SweepSound(db, act.order, now, t);
        }
      } else if act.pick.Some? {
        SweepStages(db, act.order, now);
      }
    } else {
      StepEnded(cfg, db, act, now, r);
    }
  }

  lemma {:induction false} SweepStages(db: Db, order: seq<LeaseId>, now: int)
    requires Refs(db)
    ensures Sweep(db, order, now).stages.Keys == db.stages.Keys
    decreases |order|
  {
    hide Overdue, OtherActive, Count;
    if order != [] { SweepStages(SweepOne(db, order[0], now), order[1..], now); }
  }

  // ---------- a history in which that happens ----------

  const WIDE := Config(map[], 3, map[], 600, 60, {PlatformAnalysis, C2Analysis, C2Adaptation})

  function StageOf(k: StageKind, state: StageState): Stage { Stage(0, k, state, 3, 600, None) }

  /** The n-th claim of executor 0, and the completion of the stage it was granted. */
  function ClaimOf(stage: StageId, n: nat): Event { At(0, ClaimStage([], Some(GrantIds(stage, n, n, 0, 0)))) }

  function RequestOf(n: nat): Request { Request(0, Message(CompleteCall(Some(Completed)), n, n, n, 0, n, n), 0) }

  function CompletionOf(n: nat, ids: Fresh): Event { At(0, MutateStage(RequestOf(n), true, ids, OtherError(0))) }

  /** A run with C2 analysis: both analyses are claimed and completed, and the worker fails the platform
      adaptation while the C2 adaptation is queued. */
  function Ending(n: nat): seq<Event>
    requires n <= 6
  {
    [At(0, SubmitRun(0, true, false, 0)), ClaimOf(0, 0), CompletionOf(0, Fresh(1, 9)), ClaimOf(1, 1), CompletionOf(1, Fresh(2, 3)),
     At(0, AdaptStage(2, AdaptFailed))][..n]
  }

  /** The tables after the first n of these events. */
  function TablesAfter(n: nat): Db
    requires n <= 6
  {
    Exec(WIDE, EMPTY, Ending(n))
  }

  lemma TablesNext(n: nat)
    requires n < 6
    ensures Refs(TablesAfter(n)) && TablesAfter(n + 1) == Step(WIDE, TablesAfter(n), Ending(6)[n].act, 0) && Ending(6)[n].now == 0
  {
    hide Exec, Step;
    assert Ending(n + 1) == Ending(n) + [Ending(6)[n]];
    ExecNext(WIDE, EMPTY, Ending(n), Ending(6)[n]);
  }

  lemma ExecNext(cfg: Config, db: Db, trace: seq<Event>, e: Event)
    requires Refs(db)
    ensures Exec(cfg, db, trace + [e]) == Step(cfg, Exec(cfg, db, trace), e.act, e.now)
  {
    hide Step;
    ExecAppend(cfg, db, trace, [e]);
    assert [e][1..] == [];
  }

  /** The run, its stages, and rows with the numbers below `claims` and `answers` in the other tables; each of
      the first attempts belongs to the stage of its number. */
  ghost predicate Shows(db: Db, run: Run, stages: map<StageId, Stage>, claims: nat, answers: nat) {
    && Refs(db) && db.runs == map[0 := run] && db.stages == stages
    && (forall a: nat :: a in db.attempts <==> a < claims) && (forall l: nat :: l in db.leases <==> l < claims)
    && (forall a :: a in db.attempts ==> db.attempts[a].stage == a && db.attempts[a].executor == 0)
    && (forall l :: l in db.leases ==>
          && db.leases[l].attempt == l && db.leases[l].stage == l && db.leases[l].executor == 0
          && db.leases[l].token == 0 && db.leases[l].expiresAt == 60)
    && (forall k :: k in db.requests ==> k.1 < answers && db.requests[k].message.nonce < answers)
  }

  /** A claim without a sweep grants the stage it names. */
  lemma ClaimIsGrant(db: Db, g: GrantIds)
    requires Refs(db) && Grantable(WIDE, db, g, 0)
    ensures var r := db.stages[g.stage].run;
      Step(WIDE, db, ClaimStage([], Some(g)), 0) == SetRun(Grant(WIDE, db, g, 0), r, RunRunning, db.runs[r].result)
  {
    hide Grant;
    assert Sweep(db, [], 0) == db;
  }

  lemma GrantShows(db: Db, run: Run, stages: map<StageId, Stage>, n: nat, kind: StageKind)
    requires Shows(db, run, stages, n, n) && n in stages && stages[n] == StageOf(kind, Queued) && kind in WIDE.claimable
    ensures var g := GrantIds(n, n, n, 0, 0);
      Grantable(WIDE, db, g, 0) && 0 in db.runs
      && Shows(Grant(WIDE, db, g, 0), run, stages[n := StageOf(kind, Leased)], n + 1, n) && Live(Grant(WIDE, db, g, 0), n)
  {
    hide Count;
  }

  lemma SetRunShows(db: Db, run: Run, stages: map<StageId, Stage>, claims: nat, answers: nat, status: RunStatus)
    requires Shows(db, run, stages, claims, answers)
    ensures 0 in db.runs && Shows(SetRun(db, 0, status, run.result), run.(status := status), stages, claims, answers)
  {}

  lemma ClaimShows(db: Db, run: Run, stages: map<StageId, Stage>, n: nat, kind: StageKind)
    requires Shows(db, run, stages, n, n) && n in stages && stages[n] == StageOf(kind, Queued) && kind in WIDE.claimable
    ensures var d := Step(WIDE, db, ClaimOf(n, n).act, 0);
      Shows(d, run.(status := RunRunning), stages[n := StageOf(kind, Leased)], n + 1, n) && Live(d, n)
  {
    hide Shows, Step, Grant, Grantable;
    var g := GrantIds(n, n, n, 0, 0);
    ShownRows(db, run, stages, n, n);
    GrantShows(db, run, stages, n, kind);
    ClaimIsGrant(db, g);
    SetRunShows(Grant(WIDE, db, g, 0), run, stages[n := StageOf(kind, Leased)], n + 1, n, RunRunning);
  }

  lemma EndLeaseShows(db: Db, run: Run, stages: map<StageId, Stage>, n: nat, kind: StageKind)
    requires Shows(db, run, stages, n + 1, n) && n in stages && stages[n] == StageOf(kind, Leased)
    ensures n in db.leases
    ensures Shows(EndLease(db, n, 0, AttemptCompleted, Completed, Unscheduled(db, n)), run, stages[n := StageOf(kind, Completed)], n + 1, n)
  {}

  /** A request that is new and whose lease is in order is carried out, and only its record is added. */
  lemma CompletesNew(db: Db, n: nat, ids: Fresh)
    requires Refs(db) && Unused(db, ids) && n in db.leases
    requires KeyOf(RequestOf(n)) !in db.requests && !NonceUsed(db, RequestOf(n)) && LeaseError(db, RequestOf(n), false, 0).None?
    ensures var d := Step(WIDE, db, CompletionOf(n, ids).act, 0);
      var a := Complete(WIDE, db, n, Completed, ids, 0).0;
      && d == a.(requests := d.requests) && KeyOf(RequestOf(n)) in d.requests
      && d.requests == a.requests[KeyOf(RequestOf(n)) := d.requests[KeyOf(RequestOf(n))]]
      && d.requests[KeyOf(RequestOf(n))].message == RequestOf(n).message
  {
    hide Complete, NonceUsed, LeaseError, Unused;
  }

  lemma CompleteAdvances(db: Db, n: nat, ids: Fresh)
    requires Refs(db) && Unused(db, ids) && n in db.leases
    ensures var e := EndLease(db, n, 0, AttemptCompleted, Completed, Unscheduled(db, n));
      && db.leases[n].stage in e.stages && Unused(e, ids)
      && Complete(WIDE, db, n, Completed, ids, 0).0 == Advance(WIDE, e, db.leases[n].stage, ids)
  {
    hide Advance;
  }

  lemma RequestInOrder(db: Db, run: Run, stages: map<StageId, Stage>, n: nat)
    requires Shows(db, run, stages, n + 1, n) && Live(db, n) && n in stages
    ensures KeyOf(RequestOf(n)) !in db.requests && !NonceUsed(db, RequestOf(n)) && LeaseError(db, RequestOf(n), false, 0).None?
  {}

  /** One more stage, and the record of the answered request. */
  lemma MoreShown(db: Db, run: Run, stages: map<StageId, Stage>, n: nat, d: Db)
    requires Shows(db, run, stages, n + 1, n) && Refs(d)
    requires d == db.(requests := d.requests) && KeyOf(RequestOf(n)) in d.requests
    requires d.requests == db.requests[KeyOf(RequestOf(n)) := d.requests[KeyOf(RequestOf(n))]]
    requires d.requests[KeyOf(RequestOf(n))].message == RequestOf(n).message
    ensures Shows(d, run, stages, n + 1, n + 1)
  {}

  lemma AddStageShows(db: Db, run: Run, stages: map<StageId, Stage>, n: nat, id: StageId, k: StageKind)
    requires Shows(db, run, stages, n + 1, n) && id !in stages && forall s :: s in stages ==> stages[s].kind != k
    ensures CreateNext(WIDE, db, id, 0, k) == AddStage(WIDE, db, id, 0, k)
    ensures Shows(AddStage(WIDE, db, id, 0, k), run, stages[id := StageOf(k, Queued)], n + 1, n)
  {}

  const ANALYSED: map<StageId, Stage> := map[0 := StageOf(PlatformAnalysis, Completed)]

  const BOTH_ANALYSED: map<StageId, Stage> := ANALYSED[1 := StageOf(C2Analysis, Completed)]

  const RUNNING := Run(RunRunning, None, true)

  /** What a platform analysis is followed by. */
  function FirstNext(run: Run): StageKind { if run.c2Enabled then C2Analysis else PlatformAdaptation }

  lemma FirstCompletion(db: Db, run: Run)
    requires Shows(db, run, map[0 := StageOf(PlatformAnalysis, Leased)], 1, 0) && Live(db, 0)
    ensures Shows(Step(WIDE, db, CompletionOf(0, Fresh(1, 9)).act, 0), run, ANALYSED[1 := StageOf(FirstNext(run), Queued)], 1, 1)
  {
    hide Shows, Step, Advance, Complete, CreateNext, AddStage, EndLease, Mutate;
    var ids := Fresh(1, 9);
    assert Refs(db) && Unused(db, ids) && 0 in db.leases && db.leases[0].stage == 0 by { ShownRows(db, run, map[0 := StageOf(PlatformAnalysis, Leased)], 1, 0); }
    RequestInOrder(db, run, map[0 := StageOf(PlatformAnalysis, Leased)], 0);
    CompletesNew(db, 0, ids);
    CompleteAdvances(db, 0, ids);
    EndLeaseShows(db, run, map[0 := StageOf(PlatformAnalysis, Leased)], 0, PlatformAnalysis);
    var e := EndLease(db, 0, 0, AttemptCompleted, Completed, Unscheduled(db, 0));
    assert map[0 := StageOf(PlatformAnalysis, Leased)][0 := StageOf(PlatformAnalysis, Completed)] == ANALYSED;
    AdvanceFirst(e, run);
    MoreShown(AddStage(WIDE, e, 1, 0, FirstNext(run)), run, ANALYSED[1 := StageOf(FirstNext(run), Queued)], 0,
              Step(WIDE, db, CompletionOf(0, ids).act, 0));
  }

  lemma ShownRows(db: Db, run: Run, stages: map<StageId, Stage>, claims: nat, answers: nat)
    requires Shows(db, run, stages, claims, answers)
    ensures Refs(db) && db.stages == stages && db.runs == map[0 := run]
    ensures forall l: nat :: l < claims ==> l in db.leases && db.leases[l].stage == l
  {}

  lemma AdvanceFirst(e: Db, run: Run)
    requires Shows(e, run, ANALYSED, 1, 0)
    ensures 0 in e.stages && Unused(e, Fresh(1, 9)) && Refs(e) && 0 in e.runs
    ensures Advance(WIDE, e, 0, Fresh(1, 9)) == AddStage(WIDE, e, 1, 0, FirstNext(run))
    ensures Shows(AddStage(WIDE, e, 1, 0, FirstNext(run)), run, ANALYSED[1 := StageOf(FirstNext(run), Queued)], 1, 0)
  {
    hide Shows, AddStage, CreateNext;
    ShownRows(e, run, ANALYSED, 1, 0);
    AddStageShows(e, run, ANALYSED, 0, 1, FirstNext(run));
  }

  const FIRST_DONE: map<StageId, Stage> := ANALYSED[1 := StageOf(C2Analysis, Queued)]

  const SECOND_LEASED: map<StageId, Stage> := ANALYSED[1 := StageOf(C2Analysis, Leased)]

  const ADAPTING: map<StageId, Stage> :=
    BOTH_ANALYSED[2 := StageOf(PlatformAdaptation, Queued)][3 := StageOf(C2Adaptation, Queued)]

  lemma AdvanceSecond(e: Db)
    requires Shows(e, RUNNING, BOTH_ANALYSED, 2, 1)
    ensures 1 in e.stages && Unused(e, Fresh(2, 3)) && Refs(e) && 0 in e.runs
    ensures 3 !in AddStage(WIDE, e, 2, 0, PlatformAdaptation).stages && 0 in AddStage(WIDE, e, 2, 0, PlatformAdaptation).runs
    ensures Advance(WIDE, e, 1, Fresh(2, 3)) == AddStage(WIDE, AddStage(WIDE, e, 2, 0, PlatformAdaptation), 3, 0, C2Adaptation)
    ensures Shows(AddStage(WIDE, AddStage(WIDE, e, 2, 0, PlatformAdaptation), 3, 0, C2Adaptation), RUNNING, ADAPTING, 2, 1)
  {
    hide Shows, AddStage, CreateNext;
    ShownRows(e, RUNNING, BOTH_ANALYSED, 2, 1);
    AddStageShows(e, RUNNING, BOTH_ANALYSED, 1, 2, PlatformAdaptation);
    var d := AddStage(WIDE, e, 2, 0, PlatformAdaptation);
    ShownRows(d, RUNNING, BOTH_ANALYSED[2 := StageOf(PlatformAdaptation, Queued)], 2, 1);
    AddStageShows(d, RUNNING, BOTH_ANALYSED[2 := StageOf(PlatformAdaptation, Queued)], 1, 3, C2Adaptation);
  }

  lemma SecondCompletion(db: Db)
    requires Shows(db, RUNNING, SECOND_LEASED, 2, 1) && Live(db, 1)
    ensures Shows(Step(WIDE, db, CompletionOf(1, Fresh(2, 3)).act, 0), RUNNING, ADAPTING, 2, 2)
  {
    hide Shows, Step, Advance, Complete, CreateNext, AddStage, EndLease, Mutate;
    var ids := Fresh(2, 3);
    assert Refs(db) && Unused(db, ids) && 1 in db.leases && db.leases[1].stage == 1 by { ShownRows(db, RUNNING, SECOND_LEASED, 2, 1); }
    RequestInOrder(db, RUNNING, SECOND_LEASED, 1);
    CompletesNew(db, 1, ids);
    CompleteAdvances(db, 1, ids);
    EndLeaseShows(db, RUNNING, SECOND_LEASED, 1, C2Analysis);
    var e := EndLease(db, 1, 0, AttemptCompleted, Completed, Unscheduled(db, 1));
    assert SECOND_LEASED[1 := StageOf(C2Analysis, Completed)] == BOTH_ANALYSED;
    AdvanceSecond(e);
    MoreShown(AddStage(WIDE, AddStage(WIDE, e, 2, 0, PlatformAdaptation), 3, 0, C2Adaptation), RUNNING, ADAPTING, 1,
              Step(WIDE, db, CompletionOf(1, ids).act, 0));
  }

  const ENDED_RUN := Run(RunTerminal, Some(ResultInconclusive), true)

  lemma WorkerEnds(db: Db)
    requires Shows(db, RUNNING, ADAPTING, 2, 2)
    ensures Shows(Step(WIDE, db, AdaptStage(2, AdaptFailed), 0), ENDED_RUN, ADAPTING[2 := StageOf(PlatformAdaptation, Failed)], 2, 2)
  {}

  lemma AfterSubmit()
    ensures Shows(TablesAfter(1), Run(RunQueued, None, true), map[0 := StageOf(PlatformAnalysis, Queued)], 0, 0)
  {
    TablesNext(0);
    var d := TablesAfter(1);
    assert TablesAfter(0) == EMPTY;
    assert d.attempts == EMPTY.attempts && d.leases == EMPTY.leases && d.requests == EMPTY.requests;
  }

  lemma AfterFirstClaim()
    ensures Shows(TablesAfter(2), RUNNING, map[0 := StageOf(PlatformAnalysis, Leased)], 1, 0) && Live(TablesAfter(2), 0)
  {
    hide Shows, Step, Exec, Live;
    AfterSubmit();
    TablesNext(1);
    assert map[0 := StageOf(PlatformAnalysis, Queued)][0 := StageOf(PlatformAnalysis, Leased)] == map[0 := StageOf(PlatformAnalysis, Leased)];
    ClaimShows(TablesAfter(1), Run(RunQueued, None, true), map[0 := StageOf(PlatformAnalysis, Queued)], 0, PlatformAnalysis);
  }

  lemma AfterFirstCompletion()
    ensures Shows(TablesAfter(3), RUNNING, FIRST_DONE, 1, 1)
  {
    hide Shows, Step, Exec, Live;
    AfterFirstClaim();
    TablesNext(2);
    FirstCompletion(TablesAfter(2), RUNNING);
  }

  lemma AfterSecondClaim()
    ensures Shows(TablesAfter(4), RUNNING, SECOND_LEASED, 2, 1) && Live(TablesAfter(4), 1)
  {
    hide Shows, Step, Exec, Live;
    AfterFirstCompletion();
    TablesNext(3);
    assert FIRST_DONE[1 := StageOf(C2Analysis, Leased)] == SECOND_LEASED;
    ClaimShows(TablesAfter(3), RUNNING, FIRST_DONE, 1, C2Analysis);
  }

  lemma AfterSecondCompletion()
    ensures Shows(TablesAfter(5), RUNNING, ADAPTING, 2, 2)
  {
    hide Shows, Step, Exec, Live;
    AfterSecondClaim();
    TablesNext(4);
    SecondCompletion(TablesAfter(4));
  }

  lemma AfterWorker()
    ensures Shows(TablesAfter(6), ENDED_RUN, ADAPTING[2 := StageOf(PlatformAdaptation, Failed)], 2, 2)
  {
    hide Shows, Step, Exec;
    AfterSecondCompletion();
    TablesNext(5);
    WorkerEnds(TablesAfter(5));
  }

  lemma ClaimReopens(db: Db, run: Run, stages: map<StageId, Stage>)
    requires Shows(db, run, stages, 2, 2) && 3 in stages && stages[3] == StageOf(C2Adaptation, Queued)
    ensures Step(WIDE, db, ClaimOf(3, 2).act, 0).runs == map[0 := run.(status := RunRunning)]
  {
    hide Count;
    assert Sweep(db, [], 0) == db;
  }

  lemma {:induction false} AllAtZero(trace: seq<Event>)
    requires forall i :: 0 <= i < |trace| ==> trace[i].now == 0
    ensures Timely(trace, 0)
    decreases |trace|
  {
    if trace != [] { AllAtZero(trace[1..]); }
  }

  /** That history ends the run as inconclusive, and one more event, the claim of its other adaptation, makes
      it run again, with its result still in place. */
  lemma EndedRunIsReopened()
    ensures Timely(Ending(6) + [ClaimOf(3, 2)], 0)
    ensures Exec(WIDE, EMPTY, Ending(6)).runs == map[0 := ENDED_RUN]
    ensures Exec(WIDE, EMPTY, Ending(6) + [ClaimOf(3, 2)]).runs == map[0 := ENDED_RUN.(status := RunRunning)]
  {
    hide Step, Exec, Shows;
    AllAtZero(Ending(6) + [ClaimOf(3, 2)]);
    AfterWorker();
    ShownRows(TablesAfter(6), ENDED_RUN, ADAPTING[2 := StageOf(PlatformAdaptation, Failed)], 2, 2);
    ExecNext(WIDE, EMPTY, Ending(6), ClaimOf(3, 2));
    ClaimReopens(TablesAfter(6), ENDED_RUN, ADAPTING[2 := StageOf(PlatformAdaptation, Failed)]);
  }
}
