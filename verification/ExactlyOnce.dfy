/** Idempotency: repeating committed mutations anywhere later in a run changes nothing. */
module ExactlyOnce {
  import opened Tables
  import opened Handlers
  import opened LeaseSafety
  import opened Workflow
  import opened Protocol

  /** The request has been carried out and its answer is on record. */
  ghost predicate Committed(db: Db, q: Request) {
    KeyOf(q) in db.requests && db.requests[KeyOf(q)].message == q.message && db.requests[KeyOf(q)].response.Some?
  }

  /** A repeat leaves every table as it is, and is answered from the record unless its signature or
      its lease is refused. */
  lemma RepeatChangesNothing(cfg: Config, db: Db, q: Request, signed: bool, ids: Fresh, other: OtherOutcome, now: int)
    requires Refs(db) && Unused(db, ids) && Committed(db, q)
    ensures var m := Mutate(cfg, db, q, signed, ids, other, now);
      && m.0 == db
      && m.1 == (if !signed then Error(401)
                 else if LeaseError(db, q, true, now).Some? then Error(LeaseError(db, q, true, now).value)
                 else Ok(db.requests[KeyOf(q)].response.value))
  {}

  ghost predicate RecordsKept(db: Db, d: Db) {
    forall k :: k in db.requests && db.requests[k].response.Some? ==> k in d.requests && d.requests[k] == db.requests[k]
  }

  lemma StepRecordsKept(cfg: Config, db: Db, act: Action, now: int, t: int)
    requires Invariant(db, t) && t <= now
    ensures RecordsKept(db, Step(cfg, db, act, now))
  {
    hide Numbered, Guarded, Timed, Flow, Grows, Mutate;
    if act.MutateStage? {
      if Unused(db, act.ids) { MutateRecordsKept(cfg, db, act.request, act.signed, act.ids, act.other, now, t); }
    } else {
      StepRecords(cfg, db, act, now, t);
    }
  }

  lemma MutateRecordsKept(cfg: Config, db: Db, q: Request, signed: bool, ids: Fresh, other: OtherOutcome, now: int, t: int)
    requires Invariant(db, t) && t <= now && Unused(db, ids)
    ensures RecordsKept(db, Mutate(cfg, db, q, signed, ids, other, now).0)
  {
    hide Numbered, Guarded, Timed, Flow, Grows, Perform, NonceUsed;
    if q.message.lease in db.leases && (q.message.call.OtherCall? || Live(db, q.message.lease)) {
      PerformSound(cfg, db, q, ids, other, now, t);
    } else {
      MutateReaches(cfg, db, q, signed, ids, other, now);
    }
  }

  /** A successful answer of one of the four stage endpoints leaves its request committed. */
  lemma AnsweredIsCommitted(cfg: Config, db: Db, q: Request, signed: bool, ids: Fresh, other: OtherOutcome, now: int, t: int)
    requires Invariant(db, t) && t <= now && Unused(db, ids) && !q.message.call.OtherCall?
    ensures var m := Mutate(cfg, db, q, signed, ids, other, now);
      m.1.Ok? ==> Committed(m.0, q) && m.0.requests[KeyOf(q)].response == Some(m.1.response)
  {
    hide Numbered, Guarded, Timed, Flow, Perform, NonceUsed;
  }

  // ---------- whole runs ----------

  /** An event, marked when it is a repeat of a request answered before it. */
  datatype Marked = Marked(event: Event, repeat: bool)

  function Events(trace: seq<Marked>): seq<Event>
    decreases |trace|
  {
    if trace == [] then [] else [trace[0].event] + Events(trace[1..])
  }

  function Originals(trace: seq<Marked>): seq<Event>
    decreases |trace|
  {
    if trace == [] then []
    else if trace[0].repeat then Originals(trace[1..])
    else [trace[0].event] + Originals(trace[1..])
  }

  /** The answer this event gets for a stage request, if it gets one. */
  function Answered(cfg: Config, db: Db, e: Event): map<Request, Response>
    requires Refs(db)
  {
    if e.act.MutateStage? && Unused(db, e.act.ids) && !e.act.request.message.call.OtherCall? then
      var reply := ReplyTo(cfg, db, e);
      if reply.Ok? then map[e.act.request := reply.response] else map[]
    else map[]
  }

  function ReplyTo(cfg: Config, db: Db, e: Event): Reply
    requires Refs(db) && e.act.MutateStage? && Unused(db, e.act.ids)
  {
    Mutate(cfg, db, e.act.request, e.act.signed, e.act.ids, e.act.other, e.now).1
  }

  /** Every marked event re-sends a request that an earlier unmarked event got answered. */
  ghost predicate OnlyRepeats(cfg: Config, db: Db, trace: seq<Marked>, answers: map<Request, Response>)
    requires Refs(db)
    decreases |trace|
  {
    trace == [] ||
    var e := trace[0].event;
    if trace[0].repeat then e.act.MutateStage? && e.act.request in answers && OnlyRepeats(cfg, db, trace[1..], answers)
    else OnlyRepeats(cfg, Step(cfg, db, e.act, e.now), trace[1..], answers + Answered(cfg, db, e))
  }

  /** Every marked event gets the answer that its original got, or an error. */
  ghost predicate AnsweredAlike(cfg: Config, db: Db, trace: seq<Marked>, answers: map<Request, Response>)
    requires Refs(db)
    decreases |trace|
  {
    trace == [] ||
    var e := trace[0].event;
    var d := Step(cfg, db, e.act, e.now);
    if trace[0].repeat then
      && e.act.MutateStage? && e.act.request in answers
      && (Unused(db, e.act.ids) ==> ReplyTo(cfg, db, e) == Ok(answers[e.act.request]) || ReplyTo(cfg, db, e).Error?)
      && AnsweredAlike(cfg, d, trace[1..], answers)
    else AnsweredAlike(cfg, d, trace[1..], answers + Answered(cfg, db, e))
  }

  /** The answers are on record. */
  ghost predicate OnRecord(db: Db, answers: map<Request, Response>) {
    forall q :: q in answers ==> Committed(db, q) && db.requests[KeyOf(q)].response == Some(answers[q])
  }

  /** Any number of repeats, inserted anywhere after their originals, leave the final tables identical, and
      each is answered as its original was, or with an error. */
  lemma {:induction false} RepeatsAreInvisible(cfg: Config, db: Db, trace: seq<Marked>, answers: map<Request, Response>, t: int)
    requires Invariant(db, t) && Timely(Events(trace), t)
    requires OnlyRepeats(cfg, db, trace, answers) && OnRecord(db, answers)
    ensures Exec(cfg, db, Events(trace)) == Exec(cfg, db, Originals(trace))
    ensures AnsweredAlike(cfg, db, trace, answers)
    decreases |trace|
  {
    hide Numbered, Guarded, Timed, Flow, Recorded, Grows, Mutate, KeyOf, Committed, OnRecord, Answered, ReplyTo;
    if trace != [] {
      var e := trace[0].event;
      var d := Step(cfg, db, e.act, e.now);
      assert Events(trace)[1..] == Events(trace[1..]);
      StepSound(cfg, db, e.act, e.now, t);
      if trace[0].repeat {
        RepeatAnswered(cfg, db, e, answers);
        RepeatsAreInvisible(cfg, db, trace[1..], answers, e.now);
      } else {
        assert Originals(trace)[1..] == Originals(trace[1..]);
        RecordedAfter(cfg, db, e, answers, t);
        RepeatsAreInvisible(cfg, d, trace[1..], answers + Answered(cfg, db, e), e.now);
      }
    }
  }

  lemma RepeatAnswered(cfg: Config, db: Db, e: Event, answers: map<Request, Response>)
    requires Refs(db) && OnRecord(db, answers) && e.act.MutateStage? && e.act.request in answers
    ensures Step(cfg, db, e.act, e.now) == db
    ensures Unused(db, e.act.ids) ==> ReplyTo(cfg, db, e) == Ok(answers[e.act.request]) || ReplyTo(cfg, db, e).Error?
  {
    hide Mutate, KeyOf, Unused;
    if Unused(db, e.act.ids) { RepeatChangesNothing(cfg, db, e.act.request, e.act.signed, e.act.ids, e.act.other, e.now); }
  }

  lemma RecordedAfter(cfg: Config, db: Db, e: Event, answers: map<Request, Response>, t: int)
    requires Invariant(db, t) && t <= e.now && OnRecord(db, answers)
    ensures OnRecord(Step(cfg, db, e.act, e.now), answers + Answered(cfg, db, e))
  {
    hide Numbered, Guarded, Timed, Flow, Recorded, Grows, Mutate, KeyOf;
    StepRecordsKept(cfg, db, e.act, e.now, t);
    if e.act.MutateStage? && Unused(db, e.act.ids) && !e.act.request.message.call.OtherCall? {
      AnsweredIsCommitted(cfg, db, e.act.request, e.act.signed, e.act.ids, e.act.other, e.now, t);
    }
  }
}
