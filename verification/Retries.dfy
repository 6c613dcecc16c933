/** The arithmetic of retries: attempts of a stage are numbered 1..n without gaps, n never passes the
    allowance, and the waits between them add up. */
module Retries {
  import opened Tables
  import opened Handlers
  import opened LeaseSafety
  import opened Workflow
  import opened Protocol

  function UpTo(n: nat): (r: set<nat>)
    ensures |r| == n && forall k :: k in r <==> 1 <= k <= n
  {
    if n == 0 then {} else UpTo(n - 1) + {n}
  }

  lemma SameSizeSubset(a: set<nat>, b: set<nat>)
    requires a <= b && |a| == |b|
    ensures a == b
  {
    if a != b {
      var x :| x in b && x !in a;
      assert a <= b - {x};
      SubsetSize(a, b - {x});
    }
  }

  ghost function Numbers(db: Db, among: set<AttemptId>): set<nat>
    requires forall a :: a in among ==> a in db.attempts
  {
    set a | a in among :: db.attempts[a].number
  }

  /** Distinct numbers: as many as there are attempts. */
  lemma {:induction false} NumbersSize(db: Db, s: StageId, among: set<AttemptId>)
    requires DistinctNumbers(db) && among <= AttemptsOf(db, s)
    ensures |Numbers(db, among)| == |among|
    decreases among
  {
    if among == {} {
      assert Numbers(db, among) == {};
    } else {
      var a :| a in among;
      NumbersSize(db, s, among - {a});
      forall b | b in among - {a} ensures db.attempts[b].number != db.attempts[a].number {
        assert !SameNumber(db, a, b);
      }
      assert Numbers(db, among) == Numbers(db, among - {a}) + {db.attempts[a].number};
    }
  }

  /** The attempts of a stage are numbered exactly 1..n, and n stays within the allowance, strictly
      below it while the stage is queued. */
  lemma NumberedExactly(db: Db, t: int, s: StageId)
    requires Safe(db, t) && s in db.stages
    ensures Numbers(db, AttemptsOf(db, s)) == UpTo(Count(db, s))
    ensures Count(db, s) <= Allowance(db.stages[s].maxAttempts)
    ensures db.stages[s].state == Queued ==> Count(db, s) < Allowance(db.stages[s].maxAttempts)
  {
    NumbersSize(db, s, AttemptsOf(db, s));
    SameSizeSubset(Numbers(db, AttemptsOf(db, s)), UpTo(Count(db, s)));
  }

  /** Least time from the start of the first to the start of the n-th attempt. */
  function Waits(n: nat): nat { if n <= 1 then 0 else Waits(n - 1) + Backoff(n - 1) }

  lemma {:induction false} Spread(db: Db, t: int, a: AttemptId, b: AttemptId)
    requires Safe(db, t) && a in db.attempts && b in db.attempts && db.attempts[a].stage == db.attempts[b].stage
    requires db.attempts[a].number == 1
    ensures db.attempts[a].startedAt + Waits(db.attempts[b].number) <= db.attempts[b].startedAt
    decreases db.attempts[b].number
  {
    hide RoomLeft, Paired, Guarded, Scheduled, Backoff;
    var n, s := db.attempts[b].number, db.attempts[a].stage;
    if n == 1 {
      assert SameNumber(db, a, b);
    } else {
      assert n - 1 in Numbers(db, AttemptsOf(db, s)) by { NumberedExactly(db, t, s); }
      var p :| p in AttemptsOf(db, s) && db.attempts[p].number == n - 1;
      assert Next(db, p, b);
      Spread(db, t, a, p);
    }
  }

  lemma {:induction false} WaitsClosed(n: nat)
    requires 1 <= n
    ensures Waits(n) == if n <= 9 then Pow2(n) - 2 else 510 + 300 * (n - 9)
  {
    if 1 < n {
      WaitsClosed(n - 1);
      if n <= 9 { BackoffSmall(n - 1); } else { BackoffLarge(n - 1); }
    }
  }

  lemma BackoffSmall(k: nat)
    requires 1 <= k <= 8
    ensures Backoff(k) == Pow2(k)
  {
    assert Pow2(1) == 2 && Pow2(2) == 4 && Pow2(3) == 8 && Pow2(4) == 16;
    assert Pow2(5) == 32 && Pow2(6) == 64 && Pow2(7) == 128 && Pow2(8) == 256;
  }

  lemma {:induction false} BackoffLarge(k: nat)
    requires 9 <= k
    ensures Pow2(k) >= 512 && Backoff(k) == 300
  {
    if k == 9 { BackoffSmall(8); assert Pow2(9) == 2 * Pow2(8); } else { BackoffLarge(k - 1); }
  }

  /** After any run of the protocol: the n-th attempt starts at least 2^n - 2 seconds after the first,
      and from the tenth on 300 seconds later for each further attempt. */
  lemma RetrySpan(cfg: Config, trace: seq<Event>, t: int, a: AttemptId, b: AttemptId)
    requires Timely(trace, t)
    requires var db := Exec(cfg, EMPTY, trace);
      && a in db.attempts && b in db.attempts && db.attempts[a].stage == db.attempts[b].stage
      && db.attempts[a].number == 1
    ensures var db := Exec(cfg, EMPTY, trace);
      var n := db.attempts[b].number;
      && 1 <= n
      && db.attempts[b].startedAt - db.attempts[a].startedAt
         >= if n <= 9 then Pow2(n) - 2 else 510 + 300 * (n - 9)
  {
    EmptySound(t);
    RunSound(cfg, EMPTY, trace, t);
    var db := Exec(cfg, EMPTY, trace);
    Spread(db, EndOf(trace, t), a, b);
    WaitsClosed(db.attempts[b].number);
  }

  // ---------- limits below one ----------

  /** The stage has been granted an attempt. */
  predicate Attempted(db: Db, s: StageId) { 0 < Count(db, s) }

  /** The settings leave the default limit unchecked, and a claim is granted without a comparison. After any
      history a stage that was attempted is within its limit if and only if the limit is at least one, a queued
      stage is below its limit if and only if it is, and no stage is attempted more than once if it is not. */
  lemma WithinLimit(cfg: Config, trace: seq<Event>, t: int, s: StageId)
    requires Timely(trace, t) && s in Exec(cfg, EMPTY, trace).stages
    ensures var db := Exec(cfg, EMPTY, trace);
      var n, limit := Count(db, s), db.stages[s].maxAttempts;
      && (Attempted(db, s) ==> (n <= limit <==> 1 <= limit))
      && (db.stages[s].state == Queued ==> (n < limit <==> 1 <= limit))
      && (limit < 1 ==> n <= 1)
  {
    hide Exec, Count, Guarded, Timed, Flow, Grows, Recorded, Bounded, DistinctNumbers, Paired;
    EmptySound(t);
    RunSound(cfg, EMPTY, trace, t);
  }

  /** All attempted stages of a history are within their limits if and only if all their limits are at least one. */
  lemma AllWithinLimits(cfg: Config, trace: seq<Event>, t: int)
    requires Timely(trace, t)
    ensures var db := Exec(cfg, EMPTY, trace);
      (forall s :: s in db.stages && Attempted(db, s) ==> Count(db, s) <= db.stages[s].maxAttempts)
      <==> (forall s :: s in db.stages && Attempted(db, s) ==> 1 <= db.stages[s].maxAttempts)
  {
    hide Exec, Attempted, Count;
    var db := Exec(cfg, EMPTY, trace);
    forall s | s in db.stages && Attempted(db, s) ensures Count(db, s) <= db.stages[s].maxAttempts <==> 1 <= db.stages[s].maxAttempts {
      WithinLimit(cfg, trace, t, s);
    }
  }

  const NO_ATTEMPTS := Config(map[], 0, map[], 600, 60, {PlatformAnalysis})

  const ONE_CLAIM: seq<Event> := [At(0, SubmitRun(0, false, false, 0)), At(0, ClaimStage([], Some(GrantIds(0, 0, 0, 0, 0))))]

  /** With a default of no attempts, the first claim is granted all the same. */
  lemma FirstClaimPassesLimit()
    ensures Timely(ONE_CLAIM, 0)
    ensures var db := Exec(NO_ATTEMPTS, EMPTY, ONE_CLAIM);
      0 in db.stages && db.stages[0].maxAttempts == 0 && Count(db, 0) == 1 && db.stages[0].state == Leased
  {
    var d := Step(NO_ATTEMPTS, EMPTY, ONE_CLAIM[0].act, 0);
    var g := GrantIds(0, 0, 0, 0, 0);
    assert d.stages == map[0 := Stage(0, PlatformAnalysis, Queued, 0, 600, None)] && d.attempts == EMPTY.attempts && d.leases == EMPTY.leases;
    FirstClaimGranted(d, g);
    assert ONE_CLAIM[1..] == [ONE_CLAIM[1]] && [ONE_CLAIM[1]][1..] == [];
    assert Exec(NO_ATTEMPTS, EMPTY, ONE_CLAIM) == Step(NO_ATTEMPTS, d, ONE_CLAIM[1].act, 0);
  }

  lemma FirstClaimGranted(d: Db, g: GrantIds)
    requires Refs(d) && g == GrantIds(0, 0, 0, 0, 0)
    requires d.stages == map[0 := Stage(0, PlatformAnalysis, Queued, 0, 600, None)] && d.attempts == map[] && d.leases == map[]
    ensures var e := Step(NO_ATTEMPTS, d, ClaimStage([], Some(g)), 0);
      e.stages == map[0 := Stage(0, PlatformAnalysis, Leased, 0, 600, None)] && Count(e, 0) == 1
  {
    assert Sweep(d, [], 0) == d;
    var e := Step(NO_ATTEMPTS, d, ClaimStage([], Some(g)), 0);
    assert e.attempts.Keys == {0} && e.attempts[0].stage == 0;
    assert AttemptsOf(e, 0) == {0};
  }
}
