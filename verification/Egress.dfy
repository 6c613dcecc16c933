/** The egress broker: leases, the kernel's policy sets, the gateway captures, and the order in which
    they are touched. A moment is recorded at every nft command and at every signal to a capture. */
module Egress {
  import opened Tables

  datatype Guest = Guest(platform: Platform, ip: nat)

  datatype Endpoint = Endpoint(ip: nat, port: nat)

  /** The first 24 bits of the two guest networks. */
  const WINDOWS_NETWORK: nat := 0x0A4200
  const ANDROID_NETWORK: nat := 0x0A4400

  const SCOPED_ENDPOINTS: seq<Endpoint> := [Endpoint(0x25788D8C, 7775)]

  predicate Inside(g: Guest) {
    g.ip / 256 == match g.platform case Windows => WINDOWS_NETWORK case Android => ANDROID_NETWORK
  }

  /** A set element with its timeout and its byte counter. */
  datatype Element = Element(addedAt: int, ttl: nat, bytes: nat)

  type CaptureId = nat

  datatype CaptureState = Capturing | Exited | Stopped

  datatype LeaseRequest = LeaseRequest(run: RunId, guest: Guest, ttl: nat)

  datatype ActiveLease = ActiveLease(request: LeaseRequest, capture: CaptureId, bytes: nat)

  datatype Snapshot = Snapshot(
    leases: map<RunId, ActiveLease>, source: map<Guest, Element>, scoped: map<(Guest, Endpoint), Element>,
    captures: map<CaptureId, CaptureState>, authorising: Option<ActiveLease>)

  predicate Ended(captures: map<CaptureId, CaptureState>, c: CaptureId) { c in captures && captures[c] != Capturing }

  // ---------- what fails closed ----------

  predicate Covers(x: Snapshot, lease: ActiveLease, g: Guest) {
    lease.request.guest == g && lease.capture in x.captures && x.captures[lease.capture] != Stopped
  }

  /** A lease for the guest is recorded, or is being authorised, and its capture was not stopped. */
  ghost predicate Watched(x: Snapshot, g: Guest) {
    || (x.authorising.Some? && Covers(x, x.authorising.value, g))
    || exists r :: r in x.leases && Covers(x, x.leases[r], g)
  }

  ghost predicate Listed(order: seq<RunId>, leases: map<RunId, ActiveLease>) { forall r :: r in order <==> r in leases }

  /** The scoped tuples of a guest. */
  function Tuples(g: Guest): set<(Guest, Endpoint)> {
    if g.platform.Android? then set e | e in SCOPED_ENDPOINTS :: (g, e) else {}
  }

  function TuplesUpTo(g: Guest, i: nat): (r: set<(Guest, Endpoint)>)
    requires i <= |SCOPED_ENDPOINTS|
    ensures i == 0 ==> r == {}
    ensures 0 < i ==> r == TuplesUpTo(g, i - 1) + {(g, SCOPED_ENDPOINTS[i - 1])}
    ensures g.platform.Android? ==> r <= Tuples(g) && (i == |SCOPED_ENDPOINTS| ==> r == Tuples(g))
  {
    set k | 0 <= k < i :: (g, SCOPED_ENDPOINTS[k])
  }

  ghost predicate ScopedFor(x: Snapshot, g: Guest) {
    g.platform.Android? ==> forall e :: e in SCOPED_ENDPOINTS ==> (g, e) in x.scoped
  }

  ghost predicate ClosedBut(x: Snapshot, h: Option<Guest>) {
    forall g :: g in x.source && h != Some(g) ==> Watched(x, g) && Inside(g) && ScopedFor(x, g)
  }

  /** Every guest in a source set is watched, is inside its network and has its scoped tuples. */
  ghost predicate Closed(x: Snapshot) { ClosedBut(x, None) }

  datatype Command = AddSource(guest: Guest) | AddScoped | DeleteSource(guest: Guest) | DeleteScoped | StopCapture(guest: Guest)
    | Expire

  datatype Moment = Moment(command: Command, after: Snapshot)

  /** At a stop nothing is being authorised: every authorised guest has a recorded lease whose own capture
      has not been stopped. */
  ghost predicate FailsClosed(m: Moment) {
    Closed(m.after) && (m.command.StopCapture? ==> m.after.authorising == None)
  }

  /** A capture is stopped while its guest is authorised. */
  predicate Breach(m: Moment) { m.command.StopCapture? && m.command.guest in m.after.source }

  /** The log only grew, and without a breach. */
  ghost predicate Calm(before: seq<Moment>, after: seq<Moment>) {
    before <= after && forall i :: |before| <= i < |after| ==> !Breach(after[i])
  }

  lemma CalmSelf(log: seq<Moment>)
    ensures Calm(log, log)
  {}

  lemma CalmThrough(a: seq<Moment>, b: seq<Moment>, c: seq<Moment>)
    requires Calm(a, b) && Calm(b, c)
    ensures Calm(a, c)
  {
    hide Breach;
    forall i | |a| <= i < |c| ensures !Breach(c[i]) { if i < |b| { assert c[i] == b[i]; } }
  }

  lemma CalmOnly(a: seq<Moment>, b: seq<Moment>, c: seq<Moment>)
    requires a <= b <= c && !Calm(b, c)
    ensures !Calm(a, c)
  {}

  lemma CalmNext(a: seq<Moment>, b: seq<Moment>, m: Moment)
    requires Calm(a, b)
    ensures Calm(a, b + [m]) <==> !Breach(m)
  {
    hide Breach;
    var c := b + [m];
    assert c[|b|] == m && forall i :: 0 <= i < |b| ==> c[i] == b[i];
  }

  ghost predicate AllClosed(log: seq<Moment>) { forall i :: 0 <= i < |log| ==> FailsClosed(log[i]) }

  /** An element that is there before and after was not prolonged. */
  ghost predicate SameTimeout(a: map<Guest, Element>, b: map<Guest, Element>) {
    forall g :: g in a && g in b ==> b[g].addedAt == a[g].addedAt && b[g].ttl == a[g].ttl
  }

  ghost predicate NeverProlonged(log: seq<Moment>) {
    forall i :: 0 < i < |log| ==> SameTimeout(log[i - 1].after.source, log[i].after.source)
  }

  /** No element outlives its timeout: it was added, with its whole timeout, at most that long ago. */
  ghost predicate InTime(source: map<Guest, Element>, clock: int) {
    forall g :: g in source ==> source[g].addedAt <= clock <= source[g].addedAt + source[g].ttl
  }

  ghost predicate SameCapture(leases: map<RunId, ActiveLease>, r: RunId, s: RunId) {
    r in leases && s in leases && leases[r].capture == leases[s].capture
  }

  /** The recorded history fails closed, and the kernel has not moved since but for its counters. */
  ghost predicate History(log: seq<Moment>, source: map<Guest, Element>) {
    && AllClosed(log) && NeverProlonged(log)
    && (log != [] ==> log[|log| - 1].after.source.Keys == source.Keys && SameTimeout(log[|log| - 1].after.source, source))
  }

  lemma HistoryGrows(log: seq<Moment>, m: Moment)
    requires AllClosed(log) && NeverProlonged(log) && FailsClosed(m)
    requires log != [] ==> SameTimeout(log[|log| - 1].after.source, m.after.source)
    ensures AllClosed(log + [m]) && NeverProlonged(log + [m])
  {
    hide FailsClosed, SameTimeout;
    forall i | 0 < i < |log + [m]| ensures SameTimeout((log + [m])[i - 1].after.source, (log + [m])[i].after.source) {
      if i < |log| { assert (log + [m])[i - 1] == log[i - 1] && (log + [m])[i] == log[i]; }
    }
  }

  /** No other run holds a lease for the guest. */
  predicate Unleased(leases: map<RunId, ActiveLease>, g: Guest, run: RunId) {
    forall r :: r in leases && leases[r].request.guest == g ==> r == run
  }

  /** How the wait for a capture's writer ends: with a valid file, at its deadline, or with a dead process. */
  datatype Writer = Writing | Silent | Died

  /** What goes well: finalising an earlier capture, starting one, its writer, and that many nft adds. */
  datatype Faults = Faults(finalised: bool, started: Option<CaptureId>, writer: Writer, adds: nat)

  function AddsNeeded(g: Guest): nat { if g.platform.Android? then |SCOPED_ENDPOINTS| + 1 else 1 }

  datatype AcquireOutcome = Acquired | Refused | RevocationFailed | StartFailed | CaptureFailed | AuthorizationFailed

  /** The first thing that goes wrong in an acquire. */
  function FirstTrouble(leases: map<RunId, ActiveLease>, request: LeaseRequest, ready: bool, faults: Faults): AcquireOutcome {
    if !ready || !Inside(request.guest) then Refused
    else if request.run in leases && !faults.finalised then RevocationFailed
    else if faults.started.None? then StartFailed
    else if !faults.writer.Writing? then CaptureFailed
    else if faults.adds < AddsNeeded(request.guest) then AuthorizationFailed
    else Acquired
  }

  /** When an acquire stops a capture whose guest is authorised: the wait for its writer runs out, and the
      guest is in a source set under another lease than the one that this acquire revokes. */
  predicate StopsAuthorised(leases: map<RunId, ActiveLease>, source: map<Guest, Element>, request: LeaseRequest, ready: bool, faults: Faults) {
    && ready && Inside(request.guest) && (request.run in leases ==> faults.finalised)
    && faults.started.Some? && faults.writer.Silent?
    && request.guest in source && !(request.run in leases && leases[request.run].request.guest == request.guest)
  }

  /** Then another run holds a lease for the guest, with a capture that was not stopped. */
  lemma HeldElsewhere(x: Snapshot, request: LeaseRequest, ready: bool, faults: Faults)
    requires Closed(x) && x.authorising == None && StopsAuthorised(x.leases, x.source, request, ready, faults)
    ensures exists r :: r in x.leases && r != request.run && Covers(x, x.leases[r], request.guest)
  {
    assert Watched(x, request.guest);
  }

  /** Each lease has a capture of its own, which the broker has not stopped. */
  ghost predicate Owned(leases: map<RunId, ActiveLease>, captures: map<CaptureId, CaptureState>) {
    && (forall r :: r in leases ==>
          leases[r].request.run == r && leases[r].capture in captures && captures[leases[r].capture] != Stopped)
    && (forall r, s :: SameCapture(leases, r, s) ==> r == s)
  }

  ghost predicate SameGuest(leases: map<RunId, ActiveLease>, r: RunId, s: RunId) {
    r in leases && s in leases && leases[r].request.guest == leases[s].request.guest
  }

  /** No two leases share a guest, and nothing an authorised guest sent is lost: what its lease has noted
      and what the kernel still counts add up to all of it. */
  ghost predicate Conserved(leases: map<RunId, ActiveLease>, source: map<Guest, Element>, carried: map<RunId, nat>) {
    && (forall r, s :: SameGuest(leases, r, s) ==> r == s)
    && (forall r :: r in leases && leases[r].request.guest in source ==>
          r in carried && carried[r] == leases[r].bytes + source[leases[r].request.guest].bytes)
  }

  // ---------- single updates ----------

  lemma PopClosed(x: Snapshot, run: RunId)
    requires Closed(x) && run in x.leases
    ensures ClosedBut(x.(leases := x.leases - {run}), Some(x.leases[run].request.guest))
  {
    hide Inside;
    var y := x.(leases := x.leases - {run});
    forall g | g in x.source && g != x.leases[run].request.guest ensures Watched(y, g) {
      if !(x.authorising.Some? && Covers(x, x.authorising.value, g)) {
        var r :| r in x.leases && Covers(x, x.leases[r], g);
        assert Covers(y, y.leases[r], g);
      }
    }
  }

  lemma PopKeeps(leases: map<RunId, ActiveLease>, captures: map<CaptureId, CaptureState>, run: RunId)
    requires Owned(leases, captures) && run in leases
    ensures Owned(leases - {run}, captures) && leases[run].capture in captures
    ensures forall r :: r in leases - {run} ==> leases[r].capture != leases[run].capture
  {
    assert forall r, s :: SameCapture(leases - {run}, r, s) ==> SameCapture(leases, r, s);
    forall r | r in leases - {run} ensures leases[r].capture != leases[run].capture { assert !SameCapture(leases, r, run); }
  }

  lemma AddClosed(x: Snapshot, g: Guest, e: Element)
    requires Closed(x) && Watched(x, g) && Inside(g) && ScopedFor(x, g)
    ensures Closed(x.(source := x.source[g := e]))
  {
    hide Inside;
    var y := x.(source := x.source[g := e]);
    forall h | h in y.source ensures Watched(y, h) {
      if !(x.authorising.Some? && Covers(x, x.authorising.value, h)) {
        var r :| r in x.leases && Covers(x, x.leases[r], h);
        assert Covers(y, y.leases[r], h);
      }
    }
  }

  lemma StopClosed(x: Snapshot, c: CaptureId)
    requires Closed(x) && x.authorising == None && c in x.captures
    requires forall r :: r in x.leases && x.leases[r].capture == c ==> x.leases[r].request.guest !in x.source
    ensures Closed(x.(captures := x.captures[c := Stopped]))
  {
    hide Inside;
    var y := x.(captures := x.captures[c := Stopped]);
    forall g | g in x.source ensures Watched(y, g) {
      var r :| r in x.leases && Covers(x, x.leases[r], g);
      assert Covers(y, y.leases[r], g);
    }
  }

  lemma StopOwned(leases: map<RunId, ActiveLease>, captures: map<CaptureId, CaptureState>, c: CaptureId)
    requires Owned(leases, captures) && forall r :: r in leases ==> leases[r].capture != c
    ensures Owned(leases, captures[c := Stopped])
  {}

  function Halted(captures: map<CaptureId, CaptureState>, c: CaptureId): map<CaptureId, CaptureState> {
    if c in captures && captures[c].Capturing? then captures[c := Stopped] else captures
  }

  lemma HaltOwned(leases: map<RunId, ActiveLease>, captures: map<CaptureId, CaptureState>, c: CaptureId)
    requires Owned(leases, captures) && c in captures && forall r :: r in leases ==> leases[r].capture != c
    ensures Owned(leases, Halted(captures, c)) && Ended(Halted(captures, c), c) && Halted(captures, c).Keys == captures.Keys
  {}

  lemma ExitOwned(leases: map<RunId, ActiveLease>, captures: map<CaptureId, CaptureState>, c: CaptureId)
    requires Owned(leases, captures) && c in captures
    ensures Owned(leases, captures[c := Exited])
  {}

  lemma StartKeeps(x: Snapshot, c: CaptureId)
    requires Closed(x) && Owned(x.leases, x.captures) && c !in x.captures
    ensures Closed(x.(captures := x.captures[c := Capturing])) && Owned(x.leases, x.captures[c := Capturing])
    ensures forall r :: r in x.leases ==> x.leases[r].capture != c
  {
    hide Inside;
    var y := x.(captures := x.captures[c := Capturing]);
    forall g | g in x.source ensures Watched(y, g) {
      if !(x.authorising.Some? && Covers(x, x.authorising.value, g)) {
        var r :| r in x.leases && Covers(x, x.leases[r], g);
        assert Covers(y, y.leases[r], g);
      }
    }
  }

  /** Whether a lease is being authorised matters only to its own guest. */
  lemma AuthorisingClosed(x: Snapshot, lease: ActiveLease)
    requires Closed(x) && x.authorising == None && Covers(x, lease, lease.request.guest)
    ensures Closed(x.(authorising := Some(lease))) && Watched(x.(authorising := Some(lease)), lease.request.guest)
  {
    hide Inside;
    var y := x.(authorising := Some(lease));
    forall g | g in x.source ensures Watched(y, g) {
      var r :| r in x.leases && Covers(x, x.leases[r], g);
      assert Covers(y, y.leases[r], g);
    }
  }

  lemma DeniedClosed(x: Snapshot)
    requires Closed(x) && x.authorising.Some? && x.authorising.value.request.guest !in x.source
    ensures Closed(x.(authorising := None))
  {
    hide Inside;
    var y := x.(authorising := None);
    forall g | g in x.source ensures Watched(y, g) {
      var r :| r in x.leases && Covers(x, x.leases[r], g);
      assert Covers(y, y.leases[r], g);
    }
  }

  lemma RecordClosed(x: Snapshot, lease: ActiveLease, run: RunId)
    requires Closed(x) && x.authorising == Some(lease) && run !in x.leases && Covers(x, lease, lease.request.guest)
    ensures Closed(x.(leases := x.leases[run := lease], authorising := None))
  {
    hide Inside;
    var y := x.(leases := x.leases[run := lease], authorising := None);
    forall g | g in x.source ensures Watched(y, g) {
      if g == lease.request.guest {
        assert Covers(y, y.leases[run], g);
      } else {
        var r :| r in x.leases && Covers(x, x.leases[r], g);
        assert Covers(y, y.leases[r], g);
      }
    }
  }

  lemma RecordKeeps(leases: map<RunId, ActiveLease>, captures: map<CaptureId, CaptureState>, lease: ActiveLease, run: RunId)
    requires Owned(leases, captures) && run !in leases && lease.request.run == run
    requires lease.capture in captures && captures[lease.capture] != Stopped
    requires forall r :: r in leases ==> leases[r].capture != lease.capture
    ensures Owned(leases[run := lease], captures)
  {
    var all := leases[run := lease];
    forall r, s | SameCapture(all, r, s) ensures r == s {
      if r != run && s != run { assert SameCapture(leases, r, s); }
    }
  }

  lemma RecordConserved(leases: map<RunId, ActiveLease>, source: map<Guest, Element>, carried: map<RunId, nat>, lease: ActiveLease, run: RunId, e: Element)
    requires Conserved(leases, source, carried) && run !in leases && e.bytes == 0 && lease.bytes == 0
    requires forall r :: r in leases ==> leases[r].request.guest != lease.request.guest
    ensures Conserved(leases[run := lease], source[lease.request.guest := e], carried[run := 0])
  {
    var all := leases[run := lease];
    forall r, s | SameGuest(all, r, s) ensures r == s {
      if r != run && s != run { assert SameGuest(leases, r, s); }
    }
  }

  lemma ClosedForAnother(x: Snapshot, g: Guest)
    requires Closed(x)
    ensures ClosedBut(x, Some(g))
  {}

  lemma ClosedAgain(x: Snapshot, g: Guest)
    requires ClosedBut(x, Some(g)) && g !in x.source
    ensures Closed(x)
  {}

  lemma BytesKeep(x: Snapshot, run: RunId, bytes: nat)
    requires Closed(x) && x.authorising == None && Owned(x.leases, x.captures) && run in x.leases
    ensures var leases := x.leases[run := x.leases[run].(bytes := bytes)];
      && Closed(x.(leases := leases)) && Owned(leases, x.captures) && Watched(x.(leases := leases), x.leases[run].request.guest)
      && (x.leases[run].request.guest in x.source ==> Inside(x.leases[run].request.guest))
  {
    hide Inside;
    var y := x.(leases := x.leases[run := x.leases[run].(bytes := bytes)]);
    forall g | g in x.source ensures Watched(y, g) {
      var r :| r in x.leases && Covers(x, x.leases[r], g);
      assert Covers(y, y.leases[r], g);
    }
    assert forall r, s :: SameCapture(y.leases, r, s) ==> SameCapture(x.leases, r, s);
    assert Covers(y, y.leases[run], y.leases[run].request.guest);
  }

  lemma OwnedWatches(x: Snapshot, run: RunId)
    requires Owned(x.leases, x.captures) && run in x.leases
    ensures Watched(x, x.leases[run].request.guest)
    ensures forall r :: r in x.leases && x.leases[r].capture == x.leases[run].capture ==> r == run
  {
    assert Covers(x, x.leases[run], x.leases[run].request.guest);
    forall r | r in x.leases && x.leases[r].capture == x.leases[run].capture ensures r == run {
      assert SameCapture(x.leases, r, run);
    }
  }

  lemma RefreshConserved(leases: map<RunId, ActiveLease>, source: map<Guest, Element>, carried: map<RunId, nat>, run: RunId, e: Element)
    requires Conserved(leases, source, carried) && run in leases && leases[run].request.guest in source && e.bytes == 0
    ensures var g, lease := leases[run].request.guest, leases[run];
      && Conserved(leases[run := lease.(bytes := lease.bytes + source[g].bytes)], source[g := e], carried)
      && run in carried && carried[run] == lease.bytes + source[g].bytes
  {
    var g, lease := leases[run].request.guest, leases[run];
    var all := leases[run := lease.(bytes := lease.bytes + source[g].bytes)];
    assert forall r, s :: SameGuest(all, r, s) ==> SameGuest(leases, r, s);
    forall r | r in all && all[r].request.guest == g ensures r == run { assert SameGuest(leases, r, run); }
  }

  lemma ShrinkConserved(leases: map<RunId, ActiveLease>, source: map<Guest, Element>, carried: map<RunId, nat>, g: Guest)
    requires Conserved(leases, source, carried)
    ensures Conserved(leases, source - {g}, carried)
  {}

  /** The elements still in force at a time, having counted what was sent. */
  function Aged(source: map<Guest, Element>, clock: int, sent: map<Guest, nat>): map<Guest, Element> {
    map g | g in source && clock < source[g].addedAt + source[g].ttl ::
      source[g].(bytes := source[g].bytes + if g in sent then sent[g] else 0)
  }

  lemma AgedHistory(log: seq<Moment>, source: map<Guest, Element>, clock: int, sent: map<Guest, nat>)
    requires History(log, source)
    ensures AllClosed(log) && NeverProlonged(log)
    ensures log != [] ==> SameTimeout(log[|log| - 1].after.source, Aged(source, clock, sent))
  {
    hide AllClosed, NeverProlonged;
  }

  lemma InTimeChanges(source: map<Guest, Element>, clock: int, g: Guest, ttl: nat)
    requires InTime(source, clock)
    ensures InTime(source[g := Element(clock, ttl, 0)], clock) && InTime(source - {g}, clock)
  {}

  lemma AgedInTime(source: map<Guest, Element>, before: int, clock: int, sent: map<Guest, nat>)
    requires InTime(source, before) && before <= clock
    ensures InTime(Aged(source, clock, sent), clock) && Aged(source, clock, sent).Keys <= source.Keys
  {}

  /** What the guest of a run's lease sends: only an authorised guest can. */
  function SentBy(leases: map<RunId, ActiveLease>, source: map<Guest, Element>, run: RunId, sent: map<Guest, nat>): nat {
    if run in leases && leases[run].request.guest in source && leases[run].request.guest in sent then sent[leases[run].request.guest] else 0
  }

  /** What each lease's guest has sent in all. */
  function Charged(leases: map<RunId, ActiveLease>, source: map<Guest, Element>, carried: map<RunId, nat>, sent: map<Guest, nat>): map<RunId, nat> {
    map r | r in carried :: carried[r] + SentBy(leases, source, r, sent)
  }

  lemma AgedConserved(leases: map<RunId, ActiveLease>, source: map<Guest, Element>, carried: map<RunId, nat>, clock: int, sent: map<Guest, nat>)
    requires Conserved(leases, source, carried)
    ensures Conserved(leases, Aged(source, clock, sent), Charged(leases, source, carried, sent))
  {
    hide SameGuest;
  }

  lemma FewerClosed(x: Snapshot, y: Snapshot)
    requires Closed(x) && y == x.(source := y.source) && y.source.Keys <= x.source.Keys
    ensures Closed(y)
  {
    hide Inside;
    forall g | g in y.source ensures Watched(y, g) {
      if !(x.authorising.Some? && Covers(x, x.authorising.value, g)) {
        var r :| r in x.leases && Covers(x, x.leases[r], g);
        assert Covers(y, y.leases[r], g);
      }
    }
  }

  lemma ExitClosed(x: Snapshot, c: CaptureId)
    requires Closed(x) && x.authorising == None && c in x.captures
    ensures Closed(x.(captures := x.captures[c := Exited]))
  {
    hide Inside;
    var y := x.(captures := x.captures[c := Exited]);
    forall g | g in x.source ensures Watched(y, g) {
      var r :| r in x.leases && Covers(x, x.leases[r], g);
      assert Covers(y, y.leases[r], g);
    }
  }

  lemma WatchedStill(x: Snapshot, y: Snapshot, g: Guest)
    requires Watched(x, g) && y == x.(scoped := y.scoped)
    ensures Watched(y, g)
  {
    if r :| r in x.leases && Covers(x, x.leases[r], g) { assert Covers(y, y.leases[r], g); }
  }

  lemma NothingLeased(x: Snapshot)
    requires Closed(x) && x.authorising == None
    ensures x.leases == map[] ==> x.source == map[]
  {
    if x.leases == map[] { assert forall g :: g in x.source ==> Watched(x, g); }
  }

  lemma UnleasedAbsent(x: Snapshot, g: Guest)
    requires Closed(x) && x.authorising == None && forall r :: r in x.leases ==> x.leases[r].request.guest != g
    ensures g !in x.source
  {}

  datatype HeartbeatOutcome = Refreshed | NotActive | Unreadable | CeilingExceeded | RefreshFailed

  // ---------- what each request does ----------

  /** The broker and what it moves; `order` is the order of the dictionary of leases, `carried` what the guest
      of each lease has sent since it was acquired. */
  datatype State = State(
    leases: map<RunId, ActiveLease>, order: seq<RunId>, source: map<Guest, Element>, scoped: map<(Guest, Endpoint), Element>,
    captures: map<CaptureId, CaptureState>, clock: int, carried: map<RunId, nat>)

  const NEW := State(map[], [], map[], map[], map[], 0, map[])

  function Without(order: seq<RunId>, run: RunId): (r: seq<RunId>)
    ensures forall x :: x in r <==> x in order && x != run
    ensures |r| <= |order| && (run in order ==> |r| < |order|)
  {
    if order == [] then [] else (if order[0] == run then [] else [order[0]]) + Without(order[1..], run)
  }

  lemma ListedChanges(order: seq<RunId>, leases: map<RunId, ActiveLease>, run: RunId, lease: ActiveLease)
    requires Listed(order, leases)
    ensures Listed(Without(order, run), leases - {run})
    ensures Listed(order + [run], leases[run := lease])
    ensures run in leases ==> Listed(order, leases[run := lease])
  {}

  /** Scoped tuples that are there stay as they are. */
  function Given(scoped: map<(Guest, Endpoint), Element>, tuples: set<(Guest, Endpoint)>, clock: int, ttl: nat): map<(Guest, Endpoint), Element> {
    map t | t in scoped.Keys + tuples :: if t in scoped then scoped[t] else Element(clock, ttl, 0)
  }

  function RevokeOn(x: State, run: RunId): State {
    if run !in x.leases then x else
      var g := x.leases[run].request.guest;
      x.(leases := x.leases - {run}, order := Without(x.order, run), source := x.source - {g}, scoped := x.scoped - Tuples(g),
         captures := Halted(x.captures, x.leases[run].capture), carried := x.carried - {run})
  }

  lemma GivenNext(scoped: map<(Guest, Endpoint), Element>, first: set<(Guest, Endpoint)>, more: set<(Guest, Endpoint)>, clock: int, ttl: nat)
    ensures Given(Given(scoped, first, clock, ttl), more, clock, ttl) == Given(scoped, first + more, clock, ttl)
    ensures Given(scoped, {}, clock, ttl) == scoped && Given(scoped, first, clock, ttl).Keys == scoped.Keys + first
    ensures first <= more ==> Given(scoped, first, clock, ttl) - more == scoped - more
  {}

  function AdmitOn(x: State, lease: ActiveLease, adds: nat): State {
    var g, run := lease.request.guest, lease.request.run;
    if adds < AddsNeeded(g) then
      x.(source := x.source - {g}, scoped := x.scoped - Tuples(g), captures := x.captures[lease.capture := Stopped])
    else
      x.(leases := x.leases[run := lease], order := x.order + [run], carried := x.carried[run := 0],
         source := if g in x.source then x.source else x.source[g := Element(x.clock, lease.request.ttl, 0)],
         scoped := Given(x.scoped, Tuples(g), x.clock, lease.request.ttl))
  }

  function InstallOn(x: State, request: LeaseRequest, faults: Faults): State {
    if faults.started.None? then x else
      var c := faults.started.value;
      match faults.writer
      case Writing => AdmitOn(x.(captures := x.captures[c := Capturing]), ActiveLease(request, c, 0), faults.adds)
      case Silent => x.(captures := x.captures[c := Stopped])
      case Died => x.(captures := x.captures[c := Exited])
  }

  function AcquireOn(x: State, request: LeaseRequest, ready: bool, faults: Faults): State {
    if !ready || !Inside(request.guest) then x
    else if request.run in x.leases && !faults.finalised then RevokeOn(x, request.run)
    else InstallOn(RevokeOn(x, request.run), request, faults)
  }

  /** All that the lease's guest has sent, as far as the broker and the kernel know. */
  function KnownBytes(x: State, run: RunId): nat
    requires run in x.leases
  {
    var lease := x.leases[run];
    lease.bytes + if lease.request.guest in x.source then x.source[lease.request.guest].bytes else 0
  }

  function HeartbeatTrouble(x: State, maxBytes: nat, run: RunId, readable: bool, adds: nat): HeartbeatOutcome {
    if run !in x.leases || x.leases[run].capture !in x.captures || !x.captures[x.leases[run].capture].Capturing? then NotActive
    else if !readable || x.leases[run].request.guest !in x.source then Unreadable
    else if KnownBytes(x, run) > maxBytes then CeilingExceeded
    else if adds < AddsNeeded(x.leases[run].request.guest) then RefreshFailed
    else Refreshed
  }

  function HeartbeatOn(x: State, maxBytes: nat, run: RunId, ttl: nat, readable: bool, adds: nat): State {
    match HeartbeatTrouble(x, maxBytes, run, readable, adds)
    case NotActive => x
    case Unreadable => x
    case CeilingExceeded => RevokeOn(x, run)
    case RefreshFailed => RevokeOn(x, run)
    case Refreshed => RefreshOn(x, run, ttl)
  }

  function RefreshOn(x: State, run: RunId, ttl: nat): State
    requires run in x.leases
  {
    var g := x.leases[run].request.guest;
    x.(leases := x.leases[run := x.leases[run].(bytes := KnownBytes(x, run))], source := x.source[g := Element(x.clock, ttl, 0)],
       scoped := Given(x.scoped - Tuples(g), Tuples(g), x.clock, ttl))
  }

  /** `close` goes through the leases in the dictionary's order, up to a capture that cannot be finalised. */
  function CloseOn(x: State, finalised: set<RunId>): State
    decreases |x.order|
  {
    if x.order == [] || x.order[0] !in x.leases then x else
      var run := x.order[0];
      if run in finalised then CloseOn(RevokeOn(x, run), finalised) else RevokeOn(x, run)
  }

  function PassOn(x: State, seconds: nat, sent: map<Guest, nat>): State {
    x.(clock := x.clock + seconds, source := Aged(x.source, x.clock + seconds, sent),
       carried := Charged(x.leases, x.source, x.carried, sent))
  }

  function ExitOn(x: State, c: CaptureId): State {
    if c in x.captures && x.captures[c].Capturing? then x.(captures := x.captures[c := Exited]) else x
  }

  class EgressManager {
    const maxBytes: nat
    var leases: map<RunId, ActiveLease>
    var order: seq<RunId> // the order of the dictionary
    var source: map<Guest, Element>
    var scoped: map<(Guest, Endpoint), Element>
    var captures: map<CaptureId, CaptureState>
    var clock: int
    ghost var authorising: Option<ActiveLease>
    ghost var log: seq<Moment>
    ghost var carried: map<RunId, nat> // what the guest of a lease has sent since it was acquired

    ghost function Now(): Snapshot
      reads this
    {
      Snapshot(leases, source, scoped, captures, authorising)
    }

    ghost function Current(): State
      reads this
    {
      State(leases, order, source, scoped, captures, clock, carried)
    }

    ghost predicate Valid()
      reads this
    {
      && authorising == None && Closed(Now()) && Listed(order, leases) && Owned(leases, captures) && History(log, source) && carried.Keys == leases.Keys
      && InTime(source, clock)
    }

    constructor (maxBytes: nat)
      requires 0 < maxBytes
      ensures Valid() && this.maxBytes == maxBytes && Current() == NEW && log == []
    {
      this.maxBytes := maxBytes;
      leases, order, source, scoped, captures, clock := map[], [], map[], map[], map[], 0;
      authorising, log, carried := None, [], map[];
    }

    // ---------- the kernel and the captures ----------

    ghost method Note(command: Command)
      requires AllClosed(log) && NeverProlonged(log) && FailsClosed(Moment(command, Now()))
      requires log != [] ==> SameTimeout(log[|log| - 1].after.source, source)
      modifies this`log
      ensures History(log, source) && log == old(log) + [Moment(command, Now())]
    {
      HistoryGrows(log, Moment(command, Now()));
      log := log + [Moment(command, Now())];
    }

    /** `nft add element` on a source set: it may fail, and an element that is there stays as it is. */
    method NftAddSource(g: Guest, ttl: nat, ok: bool)
      requires Closed(Now()) && History(log, source) && Watched(Now(), g) && Inside(g) && ScopedFor(Now(), g)
      modifies this`source, this`log
      ensures Closed(Now()) && History(log, source) && Calm(old(log), log)
      ensures source == if ok && g !in old(source) then old(source)[g := Element(clock, ttl, 0)] else old(source)
      ensures ok ==> g in source
    {
      hide ClosedBut, Closed, Watched, Inside, ScopedFor, AllClosed, NeverProlonged;
      if ok && g !in source {
        AddClosed(Now(), g, Element(clock, ttl, 0));
        source := source[g := Element(clock, ttl, 0)];
      }
      CalmNext(log, log, Moment(AddSource(g), Now()));
      Note(AddSource(g));
    }

    method NftAddScoped(g: Guest, e: Endpoint, ttl: nat, ok: bool)
      requires Closed(Now()) && History(log, source)
      modifies this`scoped, this`log
      ensures Closed(Now()) && History(log, source) && Calm(old(log), log)
      ensures scoped == if ok then Given(old(scoped), {(g, e)}, clock, ttl) else old(scoped)
    {
      if ok && (g, e) !in scoped { scoped := scoped[(g, e) := Element(clock, ttl, 0)]; }
      Note(AddScoped);
    }

    /** Deletes are not checked by the broker; they are taken to succeed. */
    method NftDeleteSource(g: Guest)
      requires ClosedBut(Now(), Some(g)) && History(log, source)
      modifies this`source, this`log
      ensures Closed(Now()) && History(log, source) && Calm(old(log), log) && source == old(source) - {g}
    {
      source := source - {g};
      Note(DeleteSource(g));
    }

    method NftDeleteScoped(g: Guest, e: Endpoint)
      requires Closed(Now()) && History(log, source) && g !in source
      modifies this`scoped, this`log
      ensures Closed(Now()) && History(log, source) && Calm(old(log), log) && scoped == old(scoped) - {(g, e)}
    {
      scoped := scoped - {(g, e)};
      Note(DeleteScoped);
    }

    /** `_stop_capture`: a signal, if the capture is still running. */
    method Stop(lease: ActiveLease)
      requires Closed(Now()) && History(log, source) && authorising == None && lease.capture in captures
      requires forall r :: r in leases && leases[r].capture == lease.capture ==> leases[r].request.guest !in source
      modifies this`captures, this`log
      ensures Closed(Now()) && History(log, source)
      ensures captures == Halted(old(captures), lease.capture)
      ensures log == if old(captures)[lease.capture].Capturing? then old(log) + [Moment(StopCapture(lease.request.guest), Now())] else old(log)
      ensures Calm(old(log), log) <==> !old(captures)[lease.capture].Capturing? || lease.request.guest !in source
    {
      if captures[lease.capture].Capturing? {
        StopClosed(Now(), lease.capture);
        captures := captures[lease.capture := Stopped];
        CalmNext(log, log, Moment(StopCapture(lease.request.guest), Now()));
        Note(StopCapture(lease.request.guest));
      }
    }

    // ---------- the broker ----------

    /** `_authorize_lease`: the scoped tuples first, the source last. */
    method Authorize(g: Guest, ttl: nat, adds: nat) returns (ok: bool)
      requires Closed(Now()) && History(log, source) && Watched(Now(), g) && Inside(g)
      modifies this`source, this`scoped, this`log
      ensures Closed(Now()) && History(log, source) && Calm(old(log), log)
      ensures ok <==> AddsNeeded(g) <= adds
      ensures source == if ok && g !in old(source) then old(source)[g := Element(clock, ttl, 0)] else old(source)
      ensures ok ==> scoped == Given(old(scoped), Tuples(g), clock, ttl)
      ensures scoped - Tuples(g) == old(scoped) - Tuples(g)
    {
      hide Given, Closed, History, Watched, Inside, Calm, InTime;
      var i := 0;
      CalmSelf(log);
      GivenNext(scoped, {}, {}, clock, ttl);
      if g.platform.Android? {
        while i < |SCOPED_ENDPOINTS|
          invariant 0 <= i <= |SCOPED_ENDPOINTS| && i <= adds
          invariant Closed(Now()) && History(log, source) && Watched(Now(), g) && Calm(old(log), log) && source == old(source)
          invariant scoped == Given(old(scoped), TuplesUpTo(g, i), clock, ttl)
        {
          ghost var before, x := log, Now();
          NftAddScoped(g, SCOPED_ENDPOINTS[i], ttl, i < adds);
          WatchedStill(x, Now(), g);
          CalmThrough(old(log), before, log);
          GivenNext(old(scoped), TuplesUpTo(g, i), Tuples(g), clock, ttl);
          GivenNext(old(scoped), TuplesUpTo(g, i), {(g, SCOPED_ENDPOINTS[i])}, clock, ttl);
          if adds <= i { return false; }
          i := i + 1;
        }
      }
      assert TuplesUpTo(g, i) == Tuples(g);
      GivenNext(old(scoped), Tuples(g), Tuples(g), clock, ttl);
      ghost var before := log;
      NftAddSource(g, ttl, i < adds);
      CalmThrough(old(log), before, log);
      ok := i < adds;
    }

    /** `_deauthorize_lease`: the source first. */
    method Deauthorize(g: Guest)
      requires ClosedBut(Now(), Some(g)) && History(log, source)
      modifies this`source, this`scoped, this`log
      ensures Closed(Now()) && History(log, source) && Calm(old(log), log) && source == old(source) - {g}
      ensures scoped == old(scoped) - Tuples(g)
    {
      NftDeleteSource(g);
      if g.platform.Android? {
        for i := 0 to |SCOPED_ENDPOINTS|
          invariant Closed(Now()) && History(log, source) && Calm(old(log), log) && source == old(source) - {g}
          invariant scoped == old(scoped) - (set e | e in SCOPED_ENDPOINTS[..i] :: (g, e))
        {
          assert SCOPED_ENDPOINTS[..i + 1] == SCOPED_ENDPOINTS[..i] + [SCOPED_ENDPOINTS[i]];
          NftDeleteScoped(g, SCOPED_ENDPOINTS[i]);
        }
        assert SCOPED_ENDPOINTS[..|SCOPED_ENDPOINTS|] == SCOPED_ENDPOINTS;
      }
    }

    /** `_revoke_unlocked`. A capture without a complete packet makes it raise after everything else is done. */
    method RevokeUnlocked(run: RunId, finalised: bool) returns (raised: bool)
      requires Valid()
      modifies this
      ensures Valid() && Calm(old(log), log)
      ensures Current() == RevokeOn(old(Current()), run)
      ensures raised <==> run in old(leases) && !finalised
      ensures run in old(leases) ==> captures.Keys == old(captures).Keys && Ended(captures, old(leases)[run].capture)
    {
      hide ClosedBut, Closed, Owned, History, InTime, Tuples, Listed, Halted, Ended;
      if run !in leases { return false; }
      var lease := leases[run];
      InTimeChanges(source, clock, lease.request.guest, 0);
      PopClosed(Now(), run);
      PopKeeps(leases, captures, run);
      ListedChanges(order, leases, run, lease);
      leases, order, carried := leases - {run}, Without(order, run), carried - {run};
      Deauthorize(lease.request.guest);
      HaltOwned(leases, captures, lease.capture);
      Stop(lease);
      raised := !finalised;
    }

    method Revoke(run: RunId, finalised: bool) returns (raised: bool)
      requires Valid()
      modifies this
      ensures Valid() && Calm(old(log), log) && Current() == RevokeOn(old(Current()), run)
      ensures raised <==> run in old(leases) && !finalised
    {
      hide RevokeOn, Calm, Closed, Owned, History, InTime, Listed;
      raised := RevokeUnlocked(run, finalised);
    }

    /** `close`: a capture that cannot be finalised stops the loop, and the leases after it remain. */
    method Close(finalised: set<RunId>) returns (raised: bool)
      requires Valid()
      modifies this
      ensures Valid() && Calm(old(log), log)
      ensures leases.Keys <= old(leases).Keys && forall r :: r in leases ==> leases[r] == old(leases)[r]
      ensures raised <==> exists r :: r in old(leases) && r !in leases && r !in finalised
      ensures !raised ==> leases == map[] && source == map[]
      ensures Current() == CloseOn(old(Current()), finalised)
    {
      hide Calm, Closed, Owned, History, InTime, Halted, Tuples, Without;
      CalmSelf(log);
      raised := false;
      while order != [] && !raised
        invariant Valid() && Calm(old(log), log)
        invariant leases.Keys <= old(leases).Keys && forall r :: r in leases ==> leases[r] == old(leases)[r]
        invariant raised <==> exists r :: r in old(leases) && r !in leases && r !in finalised
        invariant CloseOn(old(Current()), finalised) == if raised then Current() else CloseOn(Current(), finalised)
        decreases |order|
      {
        var run := order[0];
        ghost var before := log;
        raised := RevokeUnlocked(run, run in finalised);
        CalmThrough(old(log), before, log);
      }
      NothingLeased(Now());
      assert !raised ==> leases.Keys == {};
    }

    /** A guest whose capture is running is authorised, and its lease recorded last. */
    method Admit(lease: ActiveLease, adds: nat) returns (ok: bool)
      requires Valid() && Inside(lease.request.guest) && lease.request.run !in leases
      requires lease.capture in captures && captures[lease.capture] == Capturing
      requires forall r :: r in leases ==> leases[r].capture != lease.capture
      modifies this
      ensures Valid() && Calm(old(log), log)
      ensures ok <==> AddsNeeded(lease.request.guest) <= adds
      ensures Current() == AdmitOn(old(Current()), lease, adds)
    {
      hide ClosedBut, Closed, Owned, History, InTime, Inside, Watched, AddsNeeded, Tuples, Listed, Given;
      var g, run := lease.request.guest, lease.request.run;
      InTimeChanges(source, clock, g, lease.request.ttl);
      AuthorisingClosed(Now(), lease);
      ListedChanges(order, leases, run, lease);
      authorising := Some(lease);
      ok := Authorize(g, lease.request.ttl, adds);
      if ok {
        RecordClosed(Now(), lease, run);
        RecordKeeps(leases, captures, lease, run);
        leases, order, carried := leases[run := lease], order + [run], carried[run := 0];
        authorising := None;
      } else {
        ClosedForAnother(Now(), g);
        Deauthorize(g);
        DeniedClosed(Now());
        authorising := None;
        StopOwned(leases, captures, lease.capture);
        Stop(lease);
      }
    }

    /** The rest of `acquire` once the run's previous lease is revoked: the capture first. */
    method Install(request: LeaseRequest, faults: Faults) returns (outcome: AcquireOutcome)
      requires Valid() && Inside(request.guest) && request.run !in leases
      requires faults.started.Some? ==> faults.started.value !in captures
      modifies this
      ensures Valid() && old(log) <= log
      ensures outcome == FirstTrouble(old(leases), request, true, faults)
      ensures Current() == InstallOn(old(Current()), request, faults)
      ensures Calm(old(log), log) <==> !(outcome.CaptureFailed? && faults.writer.Silent? && request.guest in old(source))
    {
      hide ClosedBut, Closed, Owned, History, InTime, Inside, Watched, AddsNeeded, Tuples, AdmitOn, Listed;
      if faults.started.None? { return StartFailed; }
      var lease := ActiveLease(request, faults.started.value, 0);
      StartKeeps(Now(), lease.capture);
      captures := captures[lease.capture := Capturing];
      if faults.writer.Died? {
        ExitClosed(Now(), lease.capture);
        ExitOwned(leases, captures, lease.capture);
        captures := captures[lease.capture := Exited];
      }
      if !faults.writer.Writing? {
        StopOwned(leases, captures, lease.capture);
        Stop(lease);
        return CaptureFailed;
      }
      var ok := Admit(lease, faults.adds);
      outcome := if ok then Acquired else AuthorizationFailed;
    }

    method Acquire(request: LeaseRequest, ready: bool, faults: Faults) returns (outcome: AcquireOutcome)
      requires Valid() && (faults.started.Some? ==> faults.started.value !in captures)
      modifies this
      ensures Valid() && old(log) <= log
      ensures outcome == FirstTrouble(old(leases), request, ready, faults)
      ensures Current() == AcquireOn(old(Current()), request, ready, faults)
      ensures Calm(old(log), log) <==> !StopsAuthorised(old(leases), old(source), request, ready, faults)
    {
      hide ClosedBut, Closed, Owned, History, InTime, Inside, Watched, AddsNeeded, Tuples, InstallOn, Halted, Listed, Without;
      if !ready || !Inside(request.guest) { return Refused; }
      var raised := RevokeUnlocked(request.run, faults.finalised);
      if raised { return RevocationFailed; }
      ghost var log0 := log;
      outcome := Install(request, faults);
      if Calm(log0, log) { CalmThrough(old(log), log0, log); } else { CalmOnly(old(log), log0, log); }
    }

    method Heartbeat(run: RunId, ttl: nat, readable: bool, adds: nat, finalised: bool) returns (outcome: HeartbeatOutcome)
      requires Valid()
      modifies this
      ensures Valid() && Calm(old(log), log)
      ensures outcome == HeartbeatTrouble(old(Current()), maxBytes, run, readable, adds)
      ensures Current() == HeartbeatOn(old(Current()), maxBytes, run, ttl, readable, adds)
    {
      hide ClosedBut, Closed, Owned, History, InTime, Inside, Watched, AddsNeeded, Tuples, Given, Halted, Listed, Without;
      if run !in leases { return NotActive; }
      var lease := leases[run];
      PopKeeps(leases, captures, run);
      if captures[lease.capture] != Capturing { return NotActive; }
      var g := lease.request.guest;
      if !readable || g !in source { return Unreadable; }
      var total := lease.bytes + source[g].bytes;
      BytesKeep(Now(), run, total);
      ListedChanges(order, leases, run, lease.(bytes := total));
      leases := leases[run := lease.(bytes := total)];
      assert leases - {run} == old(leases) - {run};
      if total > maxBytes {
        var raised := RevokeUnlocked(run, finalised);
        return CeilingExceeded;
      }
      var ok := Refresh(run, ttl, adds);
      outcome := if ok then Refreshed else RefreshFailed;
    }

    /** The kernel has no atomic refresh: the authorisation is removed, and then given again. */
    method Refresh(run: RunId, ttl: nat, adds: nat) returns (ok: bool)
      requires Valid() && run in leases && leases[run].request.guest in source && captures[leases[run].capture] == Capturing
      modifies this
      ensures Valid() && Calm(old(log), log)
      ensures ok <==> AddsNeeded(old(leases)[run].request.guest) <= adds
      ensures var x, g := old(Current()), old(leases)[run].request.guest;
        Current() == if !ok then RevokeOn(x, run) else
          x.(source := x.source[g := Element(clock, ttl, 0)], scoped := Given(x.scoped - Tuples(g), Tuples(g), clock, ttl))
    {
      hide ClosedBut, Closed, Owned, History, InTime, Inside, Watched, AddsNeeded, Tuples, Calm, Listed, Given, Without, Halted, Ended;
      var g := leases[run].request.guest;
      InTimeChanges(source, clock, g, ttl);
      BytesKeep(Now(), run, leases[run].bytes);
      ClosedForAnother(Now(), g);
      Deauthorize(g);
      OwnedWatches(Now(), run);
      ghost var denied := log;
      ok := Authorize(g, ttl, adds);
      CalmThrough(old(log), denied, log);
      ghost var tried := log;
      if ok {
        assert source == old(source)[g := Element(clock, ttl, 0)];
      } else {
        Abandon(run);
        CalmThrough(old(log), tried, log);
        assert source == old(source) - {g};
      }
    }

    /** What a failed refresh ends with: the capture is stopped before the lease is dropped. */
    method Abandon(run: RunId)
      requires Valid() && run in leases
      modifies this
      ensures Valid() && Calm(old(log), log) && Current() == RevokeOn(old(Current()), run)
    {
      hide ClosedBut, Closed, Owned, History, InTime, Inside, Watched, AddsNeeded, Tuples, Calm, Listed, Given, Without, Halted, Ended;
      var lease := leases[run];
      var g := lease.request.guest;
      InTimeChanges(source, clock, g, 0);
      OwnedWatches(Now(), run);
      PopKeeps(leases, captures, run);
      ListedChanges(order, leases, run, lease);
      ClosedForAnother(Now(), g);
      Deauthorize(g);
      ghost var denied := log;
      Stop(lease);
      CalmThrough(old(log), denied, log);
      PopClosed(Now(), run);
      HaltOwned(leases - {run}, old(captures), lease.capture);
      leases, order, carried := leases - {run}, Without(order, run), carried - {run};
      ClosedAgain(Now(), g);
    }

    // ---------- what happens around it ----------

    /** Time passes, guests send, and elements whose timeout is over disappear. Scoped tuples are only
        recorded as installed: one that has timed out lets nothing through. */
    method Pass(seconds: nat, sent: map<Guest, nat>)
      requires Valid()
      modifies this`clock, this`source, this`carried, this`log
      ensures Valid() && Calm(old(log), log) && Current() == PassOn(old(Current()), seconds, sent)
    {
      hide ClosedBut, Closed, Owned, History, AllClosed, NeverProlonged, SameTimeout, Watched, InTime, Aged, SentBy, Listed;
      clock := clock + seconds;
      AgedInTime(source, old(clock), clock, sent);
      AgedHistory(log, source, clock, sent);
      ghost var before := Now();
      carried := Charged(leases, source, carried, sent);
      source := Aged(source, clock, sent);
      FewerClosed(before, Now());
      Note(Expire);
    }

    /** A capture process ends without being told to. */
    method Exit(c: CaptureId)
      requires Valid()
      modifies this`captures
      ensures Valid() && Current() == ExitOn(old(Current()), c)
    {
      if c in captures && captures[c].Capturing? {
        ExitClosed(Now(), c);
        captures := captures[c := Exited];
      }
    }
  }

  // ---------- any sequence of requests ----------

  datatype Operation =
    | DoAcquire(request: LeaseRequest, ready: bool, faults: Faults)
    | DoHeartbeat(run: RunId, ttl: nat, readable: bool, adds: nat, finalised: bool)
    | DoRevoke(run: RunId, finalised: bool)
    | DoClose(complete: set<RunId>)
    | DoPass(seconds: nat, sent: map<Guest, nat>)
    | DoExit(capture: CaptureId)

  datatype Answer = Acquisition(acquired: AcquireOutcome) | Beat(beat: HeartbeatOutcome) | Raised(raised: bool) | Silence

  /** A process that is started is none of the earlier ones. */
  predicate Possible(x: State, op: Operation) {
    op.DoAcquire? && op.faults.started.Some? ==> op.faults.started.value !in x.captures
  }

  function Step(maxBytes: nat, x: State, op: Operation): State {
    if !Possible(x, op) then x else
      match op
      case DoAcquire(request, ready, faults) => AcquireOn(x, request, ready, faults)
      case DoHeartbeat(run, ttl, readable, adds, finalised) => HeartbeatOn(x, maxBytes, run, ttl, readable, adds)
      case DoRevoke(run, finalised) => RevokeOn(x, run)
      case DoClose(finalised) => CloseOn(x, finalised)
      case DoPass(seconds, sent) => PassOn(x, seconds, sent)
      case DoExit(c) => ExitOn(x, c)
  }

  function AnswerTo(maxBytes: nat, x: State, op: Operation): Answer {
    if !Possible(x, op) then Silence else
      match op
      case DoAcquire(request, ready, faults) => Acquisition(FirstTrouble(x.leases, request, ready, faults))
      case DoHeartbeat(run, ttl, readable, adds, finalised) => Beat(HeartbeatTrouble(x, maxBytes, run, readable, adds))
      case DoRevoke(run, finalised) => Raised(run in x.leases && !finalised)
      case DoClose(finalised) => Raised(exists r :: r in x.leases && r !in CloseOn(x, finalised).leases && r !in finalised)
      case DoPass(_, _) => Silence
      case DoExit(_) => Silence
  }

  function Run(maxBytes: nat, operations: seq<Operation>): State
    decreases |operations|
  {
    if operations == [] then NEW else
      Step(maxBytes, Run(maxBytes, operations[..|operations| - 1]), operations[|operations| - 1])
  }

  function Answers(maxBytes: nat, operations: seq<Operation>): (r: seq<Answer>)
    ensures |r| == |operations|
    ensures forall i :: 0 <= i < |r| ==> r[i] == AnswerTo(maxBytes, Run(maxBytes, operations[..i]), operations[i])
  {
    seq(|operations|, i requires 0 <= i < |operations| => AnswerTo(maxBytes, Run(maxBytes, operations[..i]), operations[i]))
  }

  /** The i-th request is an acquire that stops a capture whose guest is authorised. */
  predicate Stops(maxBytes: nat, operations: seq<Operation>, i: nat) {
    && i < |operations| && operations[i].DoAcquire?
    && var x, op := Run(maxBytes, operations[..i]), operations[i];
       Possible(x, op) && StopsAuthorised(x.leases, x.source, op.request, op.ready, op.faults)
  }

  lemma CalmGrows(before: seq<Moment>, after: seq<Moment>)
    ensures Calm(before, after) ==> before <= after
  {}

  lemma CalmSplits(before: seq<Moment>, after: seq<Moment>)
    requires before <= after
    ensures Calm([], after) <==> Calm([], before) && Calm(before, after)
  {
    if Calm([], after) {
      forall i | 0 <= i < |before| ensures !Breach(before[i]) { assert before[i] == after[i]; }
    } else if Calm([], before) && Calm(before, after) {
      CalmThrough([], before, after);
    }
  }

  /** Whatever is asked of the broker and whatever fails, it answers and ends as specified; at every command
      it issues it fails closed, and a capture was stopped while its guest was authorised if and only if one
      of the requests is an acquire that does so. */
  method Serve(operations: seq<Operation>, maxBytes: nat) returns (broker: EgressManager, answers: seq<Answer>)
    requires 0 < maxBytes
    ensures fresh(broker) && broker.Valid()
    ensures broker.Current() == Run(maxBytes, operations) && answers == Answers(maxBytes, operations)
    ensures AllClosed(broker.log) && NeverProlonged(broker.log)
    ensures forall g :: g in broker.source ==> exists r :: r in broker.leases && Covers(broker.Now(), broker.leases[r], g)
    ensures InTime(broker.source, broker.clock)
    ensures Calm([], broker.log) <==> forall i: nat :: i < |operations| ==> !Stops(maxBytes, operations, i)
  {
    hide Closed, Owned, History, InTime, Calm, Stops, Step, AnswerTo, Listed, AllClosed, NeverProlonged, Conserved;
    broker := new EgressManager(maxBytes);
    answers := [];
    CalmSelf([]);
    for i := 0 to |operations|
      invariant fresh(broker) && broker.Valid() && broker.maxBytes == maxBytes
      invariant broker.Current() == Run(maxBytes, operations[..i]) && answers == Answers(maxBytes, operations)[..i]
      invariant Calm([], broker.log) <==> forall j: nat :: j < i ==> !Stops(maxBytes, operations, j)
    {
      ghost var before := broker.log;
      var answer := Handle(broker, operations[i]);
      CalmSplits(before, broker.log);
      answers := answers + [answer];
      StopsNext(maxBytes, operations, i);
      assert operations[..i + 1][..i] == operations[..i];
    }
    assert operations[..|operations|] == operations;
    ServedSafely(broker);
  }

  lemma StopsNext(maxBytes: nat, operations: seq<Operation>, i: nat)
    requires i < |operations|
    ensures var x, op := Run(maxBytes, operations[..i]), operations[i];
      Stops(maxBytes, operations, i) <==>
        op.DoAcquire? && Possible(x, op) && StopsAuthorised(x.leases, x.source, op.request, op.ready, op.faults)
  {
    hide StopsAuthorised, Run;
  }

  lemma ServedSafely(broker: EgressManager)
    requires broker.Valid()
    ensures AllClosed(broker.log) && NeverProlonged(broker.log) && InTime(broker.source, broker.clock)
    ensures forall g :: g in broker.source ==> exists r :: r in broker.leases && Covers(broker.Now(), broker.leases[r], g)
  {
    hide AllClosed, NeverProlonged, InTime, Owned;
    forall g | g in broker.source ensures exists r :: r in broker.leases && Covers(broker.Now(), broker.leases[r], g) {
      assert Watched(broker.Now(), g);
    }
  }

  method Handle(broker: EgressManager, op: Operation) returns (answer: Answer)
    requires broker.Valid()
    modifies broker
    ensures broker.Valid() && old(broker.log) <= broker.log
    ensures broker.Current() == Step(broker.maxBytes, old(broker.Current()), op)
    ensures answer == AnswerTo(broker.maxBytes, old(broker.Current()), op)
    ensures Calm(old(broker.log), broker.log) <==>
              !(op.DoAcquire? && Possible(old(broker.Current()), op)
                && StopsAuthorised(old(broker.leases), old(broker.source), op.request, op.ready, op.faults))
  {
    hide Closed, Owned, History, InTime, Calm, StopsAuthorised, Listed, AcquireOn, HeartbeatOn, RevokeOn, CloseOn, PassOn, ExitOn,
      HeartbeatTrouble, FirstTrouble;
    CalmSelf(broker.log);
    answer := Silence;
    match op {
      case DoAcquire(request, ready, faults) =>
        if faults.started.Some? ==> faults.started.value !in broker.captures {
          var outcome := broker.Acquire(request, ready, faults);
          answer := Acquisition(outcome);
        }
      case DoHeartbeat(run, ttl, readable, adds, finalised) =>
        var outcome := broker.Heartbeat(run, ttl, readable, adds, finalised);
        answer := Beat(outcome);
      case DoRevoke(run, finalised) =>
        var raised := broker.Revoke(run, finalised);
        answer := Raised(raised);
      case DoClose(finalised) =>
        var raised := broker.Close(finalised);
        answer := Raised(raised);
      case DoPass(seconds, sent) => broker.Pass(seconds, sent);
      case DoExit(c) => broker.Exit(c);
    }
    CalmGrows(old(broker.log), broker.log);
  }

  // ---------- every byte is noted ----------

  /** What a run's guest has sent since the run's last acquire. */
  function SentSince(maxBytes: nat, operations: seq<Operation>, run: RunId): nat
    decreases |operations|
  {
    if operations == [] then 0 else
      var before, op := operations[..|operations| - 1], operations[|operations| - 1];
      var x := Run(maxBytes, before);
      if AnswerTo(maxBytes, x, op) == Acquisition(Acquired) && op.request.run == run then 0
      else SentSince(maxBytes, before, run) + if op.DoPass? then SentBy(x.leases, x.source, run, op.sent) else 0
  }

  /** The guests in a source set have leases. */
  ghost predicate Backed(x: State) {
    forall g :: g in x.source ==> exists r :: r in x.leases && x.leases[r].request.guest == g
  }

  /** Fewer leases, and nothing else for those that remain. */
  ghost predicate Fewer(x: State, y: State) {
    && y.leases.Keys <= x.leases.Keys && (forall r :: r in y.leases ==> y.leases[r] == x.leases[r])
    && y.carried.Keys <= x.carried.Keys && (forall r :: r in y.carried ==> y.carried[r] == x.carried[r])
    && (x.carried.Keys == x.leases.Keys ==> y.carried.Keys == y.leases.Keys)
  }

  lemma RevokeKeeps(x: State, run: RunId)
    requires Backed(x)
    ensures Backed(RevokeOn(x, run)) && Fewer(x, RevokeOn(x, run)) && run !in RevokeOn(x, run).leases
    ensures Conserved(x.leases, x.source, x.carried) ==>
              Conserved(RevokeOn(x, run).leases, RevokeOn(x, run).source, RevokeOn(x, run).carried)
  {
    hide Halted, Tuples, Without;
    var y := RevokeOn(x, run);
    forall g | g in y.source ensures exists r :: r in y.leases && y.leases[r].request.guest == g {
      var r :| r in x.leases && x.leases[r].request.guest == g;
      assert r in y.leases;
    }
    assert forall r, s :: SameGuest(y.leases, r, s) ==> SameGuest(x.leases, r, s);
  }

  lemma {:induction false} CloseKeeps(x: State, finalised: set<RunId>)
    requires Backed(x)
    ensures Backed(CloseOn(x, finalised)) && Fewer(x, CloseOn(x, finalised))
    ensures Conserved(x.leases, x.source, x.carried) ==>
              Conserved(CloseOn(x, finalised).leases, CloseOn(x, finalised).source, CloseOn(x, finalised).carried)
    decreases |x.order|
  {
    hide Backed, Conserved, Halted, Tuples, Without;
    if x.order != [] && x.order[0] in x.leases {
      RevokeKeeps(x, x.order[0]);
      if x.order[0] in finalised { CloseKeeps(RevokeOn(x, x.order[0]), finalised); }
    }
  }

  lemma AdmitKeeps(x: State, lease: ActiveLease, adds: nat)
    requires Backed(x) && lease.request.run !in x.leases && lease.bytes == 0
    ensures var y, run := AdmitOn(x, lease, adds), lease.request.run;
      && Backed(y)
      && (if adds < AddsNeeded(lease.request.guest) then y.leases == x.leases && y.carried == x.carried
          else y.leases == x.leases[run := lease] && y.carried == x.carried[run := 0])
      && (Conserved(x.leases, x.source, x.carried) && Unleased(x.leases, lease.request.guest, run) ==> Conserved(y.leases, y.source, y.carried))
  {
    hide Conserved, AddsNeeded, Tuples, Given;
    var y, g, run := AdmitOn(x, lease, adds), lease.request.guest, lease.request.run;
    forall h | h in y.source ensures exists r :: r in y.leases && y.leases[r].request.guest == h {
      if h in x.source && !(adds < AddsNeeded(g)) {
        var r :| r in x.leases && x.leases[r].request.guest == h;
        assert r in y.leases && y.leases[r].request.guest == h;
      } else if !(adds < AddsNeeded(g)) {
        assert y.leases[run].request.guest == h;
      }
    }
    if Conserved(x.leases, x.source, x.carried) && Unleased(x.leases, g, run) {
      assert g !in x.source;
      if adds < AddsNeeded(g) {
        ShrinkConserved(x.leases, x.source, x.carried, g);
      } else {
        RecordConserved(x.leases, x.source, x.carried, lease, run, Element(x.clock, lease.request.ttl, 0));
      }
    }
  }

  lemma AcquireKeeps(x: State, request: LeaseRequest, ready: bool, faults: Faults)
    requires Backed(x)
    ensures var y, run := AcquireOn(x, request, ready, faults), request.run;
      && Backed(y) && (x.carried.Keys == x.leases.Keys ==> y.carried.Keys == y.leases.Keys)
      && (forall r :: r in y.leases && r != run ==> r in x.leases && y.leases[r] == x.leases[r])
      && (forall r :: r in y.carried && r != run ==> r in x.carried && y.carried[r] == x.carried[r])
      && (run in y.carried ==>
            if FirstTrouble(x.leases, request, ready, faults).Acquired? then y.carried[run] == 0
            else run in x.carried && y.carried[run] == x.carried[run])
      && (Conserved(x.leases, x.source, x.carried) && Unleased(x.leases, request.guest, run) ==> Conserved(y.leases, y.source, y.carried))
  {
    hide Backed, Conserved, AddsNeeded, AdmitOn, RevokeOn, Inside;
    RevokeKeeps(x, request.run);
    var y := RevokeOn(x, request.run);
    if ready && Inside(request.guest) && (request.run in x.leases ==> faults.finalised) && faults.started.Some? {
      var c := faults.started.value;
      if faults.writer.Writing? {
        BackedSame(y, y.(captures := y.captures[c := Capturing]));
        AdmitKeeps(y.(captures := y.captures[c := Capturing]), ActiveLease(request, c, 0), faults.adds);
      } else {
        BackedSame(y, InstallOn(y, request, faults));
      }
    }
  }

  lemma BackedSame(x: State, y: State)
    requires Backed(x) && x.leases == y.leases && y.source == x.source
    ensures Backed(y)
  {}

  lemma HeartbeatKeeps(x: State, maxBytes: nat, run: RunId, ttl: nat, readable: bool, adds: nat)
    requires Backed(x)
    ensures var y := HeartbeatOn(x, maxBytes, run, ttl, readable, adds);
      && Backed(y) && (x.carried.Keys == x.leases.Keys ==> y.carried.Keys == y.leases.Keys)
      && y.carried.Keys <= x.carried.Keys && (forall r :: r in y.carried ==> y.carried[r] == x.carried[r])
      && (Conserved(x.leases, x.source, x.carried) ==> Conserved(y.leases, y.source, y.carried))
  {
    hide Conserved, AddsNeeded, RevokeOn, Tuples, Given;
    if HeartbeatTrouble(x, maxBytes, run, readable, adds).Refreshed? {
      var y := RefreshOn(x, run, ttl);
      assert Backed(y) by {
        forall g | g in y.source ensures exists r :: r in y.leases && y.leases[r].request.guest == g {
          var r :| r in x.leases && x.leases[r].request.guest == g;
          assert r in y.leases && y.leases[r].request.guest == g;
        }
      }
      if Conserved(x.leases, x.source, x.carried) {
        RefreshConserved(x.leases, x.source, x.carried, run, Element(x.clock, ttl, 0));
      }
    } else if run in x.leases {
      RevokeKeeps(x, run);
    }
  }

  lemma PassKeeps(x: State, seconds: nat, sent: map<Guest, nat>)
    requires Backed(x)
    ensures Backed(PassOn(x, seconds, sent))
    ensures var y := PassOn(x, seconds, sent);
      Conserved(x.leases, x.source, x.carried) ==> Conserved(y.leases, y.source, y.carried)
  {
    hide Conserved;
    if Conserved(x.leases, x.source, x.carried) { AgedConserved(x.leases, x.source, x.carried, x.clock + seconds, sent); }
  }

  /** The books that are kept of a state: guests are backed by leases, and each lease has its count. */
  ghost predicate Kept(x: State) { Backed(x) && x.carried.Keys == x.leases.Keys }

  predicate Alone(x: State, op: Operation) { op.DoAcquire? ==> Unleased(x.leases, op.request.guest, op.request.run) }

  lemma StepKeeps(maxBytes: nat, x: State, op: Operation)
    requires Kept(x)
    ensures var y := Step(maxBytes, x, op);
      && Kept(y)
      && (Alone(x, op) && Conserved(x.leases, x.source, x.carried) ==> Conserved(y.leases, y.source, y.carried))
      && forall r :: r in y.carried ==>
           if AnswerTo(maxBytes, x, op) == Acquisition(Acquired) && op.request.run == r then y.carried[r] == 0
           else r in x.carried && y.carried[r] == x.carried[r] + if op.DoPass? then SentBy(x.leases, x.source, r, op.sent) else 0
  {
    hide Backed, Conserved, AcquireOn, RevokeOn, CloseOn, HeartbeatOn, FirstTrouble, HeartbeatTrouble, Aged, SentBy, Unleased;
    if Possible(x, op) {
      match op
      case DoAcquire(request, ready, faults) => AcquireKeeps(x, request, ready, faults);
      case DoHeartbeat(run, ttl, readable, adds, _) => HeartbeatKeeps(x, maxBytes, run, ttl, readable, adds);
      case DoRevoke(run, _) => RevokeKeeps(x, run);
      case DoClose(finalised) => CloseKeeps(x, finalised);
      case DoPass(seconds, sent) => PassKeeps(x, seconds, sent);
      case DoExit(c) => BackedSame(x, ExitOn(x, c));
    }
  }

  /** After any requests, what is carried for a lease is what its guest has sent since its last acquire. */
  lemma {:induction false} CarriedIsSent(maxBytes: nat, operations: seq<Operation>)
    ensures var x := Run(maxBytes, operations);
      Kept(x) && forall r :: r in x.leases ==> x.carried[r] == SentSince(maxBytes, operations, r)
    decreases |operations|
  {
    hide Step, AnswerTo, SentBy, Backed;
    if operations == [] {
      NothingKept();
    } else {
      var n := |operations| - 1;
      CarriedIsSent(maxBytes, operations[..n]);
      StepKeeps(maxBytes, Run(maxBytes, operations[..n]), operations[n]);
    }
  }

  lemma NothingKept()
    ensures Kept(NEW) && Conserved(NEW.leases, NEW.source, NEW.carried)
  {}

  /** No run asks for a guest that another run holds. */
  ghost predicate Distinct(maxBytes: nat, operations: seq<Operation>) {
    forall i: nat :: i < |operations| ==> Alone(Run(maxBytes, operations[..i]), operations[i])
  }

  lemma DistinctUpTo(maxBytes: nat, operations: seq<Operation>, n: nat)
    requires Distinct(maxBytes, operations) && n <= |operations|
    ensures Distinct(maxBytes, operations[..n])
  {
    hide Alone, Run;
    forall i: nat | i < n ensures Alone(Run(maxBytes, operations[..n][..i]), operations[..n][i]) {
      assert operations[..n][..i] == operations[..i];
    }
  }

  lemma {:induction false} DistinctConserved(maxBytes: nat, operations: seq<Operation>)
    requires Distinct(maxBytes, operations)
    ensures var x := Run(maxBytes, operations); Kept(x) && Conserved(x.leases, x.source, x.carried)
    decreases |operations|
  {
    hide Step, Conserved, Alone, Kept;
    NothingKept();
    if operations != [] {
      var n := |operations| - 1;
      DistinctUpTo(maxBytes, operations, n);
      DistinctConserved(maxBytes, operations[..n]);
      StepKeeps(maxBytes, Run(maxBytes, operations[..n]), operations[n]);
    }
  }

  /** A heartbeat of a run that has its lease and whose counter can be read. */
  predicate Heard(maxBytes: nat, operations: seq<Operation>, i: nat) {
    && i < |operations| && operations[i].DoHeartbeat?
    && Answers(maxBytes, operations)[i] !in {Beat(NotActive), Beat(Unreadable)}
  }

  /** Where no run asks for a guest that another run holds, no byte is lost: a heartbeat that is heard hits the
      ceiling if and only if the guest has sent more than that since the run's acquire, and a refreshed one has
      noted all of it; no acquire stops a capture whose guest is authorised. */
  lemma EveryByteNoted(maxBytes: nat, operations: seq<Operation>, i: nat)
    requires Distinct(maxBytes, operations) && i < |operations|
    ensures !Stops(maxBytes, operations, i)
    ensures Heard(maxBytes, operations, i) ==>
      var run, sent, answer := operations[i].run, SentSince(maxBytes, operations[..i], operations[i].run), Answers(maxBytes, operations)[i];
      && (answer == Beat(CeilingExceeded) <==> sent > maxBytes)
      && (answer == Beat(Refreshed) ==>
            var after := Run(maxBytes, operations[..i + 1]); run in after.leases && after.leases[run].bytes == sent)
  {
    hide Conserved, Backed, Unleased, StopsAuthorised, Run;
    var x, op := Run(maxBytes, operations[..i]), operations[i];
    assert Alone(x, op);
    DistinctUpTo(maxBytes, operations, i);
    DistinctConserved(maxBytes, operations[..i]);
    CarriedIsSent(maxBytes, operations[..i]);
    if op.DoAcquire? { DistinctIsCalm(x, op.request, op.ready, op.faults); }
    if Heard(maxBytes, operations, i) {
      KnownIsCarried(x, op.run);
      RunNext(maxBytes, operations, i);
    }
  }

  lemma RunNext(maxBytes: nat, operations: seq<Operation>, i: nat)
    requires i < |operations|
    ensures Run(maxBytes, operations[..i + 1]) == Step(maxBytes, Run(maxBytes, operations[..i]), operations[i])
  {
    assert operations[..i + 1][..i] == operations[..i];
  }

  lemma KnownIsCarried(x: State, run: RunId)
    requires Conserved(x.leases, x.source, x.carried)
    ensures run in x.leases && x.leases[run].request.guest in x.source ==> run in x.carried && KnownBytes(x, run) == x.carried[run]
  {}

  lemma DistinctIsCalm(x: State, request: LeaseRequest, ready: bool, faults: Faults)
    requires Backed(x) && Unleased(x.leases, request.guest, request.run)
    ensures !StopsAuthorised(x.leases, x.source, request, ready, faults)
  {}

  /** Nothing but these guests and this run differs. */
  ghost predicate Touched(x: State, y: State, guests: set<Guest>, run: RunId) {
    && y.source - guests == x.source - guests && y.leases - {run} == x.leases - {run} && y.carried - {run} == x.carried - {run}
    && y.clock == x.clock
  }

  lemma TouchedThrough(x: State, y: State, z: State, a: set<Guest>, b: set<Guest>, run: RunId)
    requires Touched(x, y, a, run) && Touched(y, z, b, run)
    ensures Touched(x, z, a + b, run)
  {
    assert forall s: map<Guest, Element> :: s - (a + b) == (s - a) - b;
    assert forall s: map<Guest, Element> :: (s - a) - b == (s - b) - a;
  }

  /** An acquire leaves every other guest and every other run alone. */
  lemma AcquireFrame(x: State, request: LeaseRequest, ready: bool, faults: Faults)
    ensures var g, run := request.guest, request.run;
      Touched(x, AcquireOn(x, request, ready, faults), (if run in x.leases then {x.leases[run].request.guest} else {}) + {g}, run)
  {
    hide Inside, AddsNeeded, RevokeOn, AdmitOn;
    var run, y := request.run, RevokeOn(x, request.run);
    RevokeFrame(x, run);
    var z := InstallOn(y, request, faults);
    if faults.started.Some? {
      AdmitFrame(y.(captures := y.captures[faults.started.value := Capturing]), ActiveLease(request, faults.started.value, 0), faults.adds);
    }
    TouchedThrough(x, y, z, if run in x.leases then {x.leases[run].request.guest} else {}, {request.guest}, run);
  }

  lemma RevokeFrame(x: State, run: RunId)
    ensures var y := RevokeOn(x, run);
      && y.source == x.source - (if run in x.leases then {x.leases[run].request.guest} else {})
      && y.leases == x.leases - {run} && y.carried - {run} == x.carried - {run} && y.clock == x.clock && y.captures.Keys == x.captures.Keys
  {
    hide Tuples, Without;
  }

  lemma AdmitFrame(x: State, lease: ActiveLease, adds: nat)
    ensures var y, g, run := AdmitOn(x, lease, adds), lease.request.guest, lease.request.run;
      Touched(x, y, {g}, run)
  {
    hide AddsNeeded, Tuples, Given;
  }

  /** What a failing acquire comes to. */
  lemma AcquireFails(x: State, request: LeaseRequest, ready: bool, faults: Faults)
    ensures var y, g, run := AcquireOn(x, request, ready, faults), request.guest, request.run;
      match FirstTrouble(x.leases, request, ready, faults)
      case Refused => y == x
      case RevocationFailed => run !in y.leases && x.leases[run].request.guest !in y.source
      case StartFailed => run !in y.leases && y.captures.Keys == x.captures.Keys
      case CaptureFailed =>
        && run !in y.leases && Ended(y.captures, faults.started.value)
        && (g in y.source <==> g in x.source && !(run in x.leases && x.leases[run].request.guest == g))
      case AuthorizationFailed =>
        && run !in y.leases && Ended(y.captures, faults.started.value) && g !in y.source && Tuples(g) !! y.scoped.Keys
      case Acquired => true
  {
    hide Inside, AddsNeeded, Tuples, Without, Halted, Given, RevokeOn, AdmitOn;
    RevokeFrame(x, request.run);
    if faults.started.Some? { Admitting(x, request, faults); }
  }

  lemma Admitting(x: State, request: LeaseRequest, faults: Faults)
    requires faults.started.Some?
    ensures var y, c := RevokeOn(x, request.run), faults.started.value;
      var admitted := AdmitOn(y.(captures := y.captures[c := Capturing]), ActiveLease(request, c, 0), faults.adds);
      && (faults.adds < AddsNeeded(request.guest) ==>
            && request.run !in admitted.leases && request.guest !in admitted.source
            && Tuples(request.guest) !! admitted.scoped.Keys && Ended(admitted.captures, c))
  {
    hide AddsNeeded, Tuples, Given, RevokeOn, AdmitOn, Ended;
    var y, c := RevokeOn(x, request.run), faults.started.value;
    RevokeFrame(x, request.run);
    AdmitOutcomes(y.(captures := y.captures[c := Capturing]), ActiveLease(request, c, 0), faults.adds);
  }

  /** What is in force after an acquire that succeeds. */
  lemma AcquireGrants(x: State, request: LeaseRequest, ready: bool, faults: Faults)
    requires Backed(x) && FirstTrouble(x.leases, request, ready, faults).Acquired?
    ensures var y, g, run, c := AcquireOn(x, request, ready, faults), request.guest, request.run, faults.started.value;
      && run in y.leases && y.leases[run] == ActiveLease(request, c, 0) && run in y.carried && y.carried[run] == 0
      && c in y.captures && y.captures[c] == Capturing
      && g in y.source && Tuples(g) <= y.scoped.Keys
      && (Unleased(x.leases, g, run) ==> y.source[g] == Element(x.clock, request.ttl, 0))
  {
    hide Inside, AddsNeeded, Tuples, Without, Halted, Given, RevokeOn, AdmitOn, Backed, Unleased, Ended;
    var y, c := RevokeOn(x, request.run), faults.started.value;
    RevokeFrame(x, request.run);
    if Unleased(x.leases, request.guest, request.run) { UnleasedGone(x, request.guest, request.run); }
    AdmitOutcomes(y.(captures := y.captures[c := Capturing]), ActiveLease(request, c, 0), faults.adds);
  }

  lemma AdmitOutcomes(x: State, lease: ActiveLease, adds: nat)
    ensures var y, g, run := AdmitOn(x, lease, adds), lease.request.guest, lease.request.run;
      if adds < AddsNeeded(g) then
        y.leases == x.leases && g !in y.source && Tuples(g) !! y.scoped.Keys && Ended(y.captures, lease.capture)
      else
        && run in y.leases && y.leases[run] == lease && run in y.carried && y.carried[run] == 0 && y.captures == x.captures
        && g in y.source && Tuples(g) <= y.scoped.Keys
        && (g !in x.source ==> y.source[g] == Element(x.clock, lease.request.ttl, 0))
  {
    hide AddsNeeded, Tuples;
  }

  /** A guest that no other run holds is not authorised once the run is revoked. */
  lemma UnleasedGone(x: State, g: Guest, run: RunId)
    requires Backed(x) && Unleased(x.leases, g, run)
    ensures g !in RevokeOn(x, run).source
  {
    hide Halted, Tuples, Without;
  }

  /** An acquire succeeds if and only if everything is in order. */
  lemma AcquiredExactly(leases: map<RunId, ActiveLease>, request: LeaseRequest, ready: bool, faults: Faults)
    ensures FirstTrouble(leases, request, ready, faults).Acquired? <==>
              && ready && request.guest.ip / 256 == (if request.guest.platform.Windows? then WINDOWS_NETWORK else ANDROID_NETWORK)
              && (request.run in leases ==> faults.finalised) && faults.started.Some? && faults.writer == Writing
              && (if request.guest.platform.Android? then |SCOPED_ENDPOINTS| else 0) < faults.adds
  {}

  /** A heartbeat refreshes if and only if the run's capture runs, its guest is still authorised, the counter can be
      read, the bytes are within the ceiling and every add succeeds. */
  lemma RefreshedExactly(x: State, maxBytes: nat, run: RunId, readable: bool, adds: nat)
    ensures HeartbeatTrouble(x, maxBytes, run, readable, adds).Refreshed? <==>
              && run in x.leases && x.leases[run].capture in x.captures && x.captures[x.leases[run].capture] == Capturing
              && readable && x.leases[run].request.guest in x.source
              && x.leases[run].bytes + x.source[x.leases[run].request.guest].bytes <= maxBytes
              && (if x.leases[run].request.guest.platform.Android? then |SCOPED_ENDPOINTS| else 0) < adds
  {}

  /** A revocation denies the guest, takes its tuples away, ends its capture and forgets the lease, and touches no
      other guest's element and no other guest's tuples. */
  lemma RevokeMeans(x: State, run: RunId)
    requires run in x.leases && x.leases[run].capture in x.captures
    ensures var y, g, c := RevokeOn(x, run), x.leases[run].request.guest, x.leases[run].capture;
      && run !in y.leases && run !in y.order && y.leases == x.leases - {run}
      && g !in y.source && y.source == x.source - {g}
      && (g.platform.Android? ==> forall e :: e in SCOPED_ENDPOINTS ==> (g, e) !in y.scoped)
      && (forall t :: t in x.scoped && t.0 != g ==> t in y.scoped && y.scoped[t] == x.scoped[t])
      && c in y.captures && y.captures[c] in {Exited, Stopped} && y.captures - {c} == x.captures - {c}
  {}

  /** A refreshed lease has its guest in its source set, with its tuples, for the whole timeout from now on and with
      a counter that starts again. */
  lemma RefreshMeans(x: State, run: RunId, ttl: nat)
    requires run in x.leases
    ensures var y, g := RefreshOn(x, run, ttl), x.leases[run].request.guest;
      && g in y.source && y.source[g] == Element(x.clock, ttl, 0) && y.source - {g} == x.source - {g}
      && (g.platform.Android? ==>
            forall e :: e in SCOPED_ENDPOINTS ==> (g, e) in y.scoped && y.scoped[(g, e)] == Element(x.clock, ttl, 0))
      && run in y.leases && y.leases - {run} == x.leases - {run} && y.captures == x.captures
  {}

  // ---------- how long a guest is authorised ----------

  function ClockAfter(operations: seq<Operation>): int
    decreases |operations|
  {
    if operations == [] then 0 else
      var op := operations[|operations| - 1];
      ClockAfter(operations[..|operations| - 1]) + if op.DoPass? then op.seconds else 0
  }

  /** When the timeout ends that the run last asked for with success. */
  function Until(maxBytes: nat, operations: seq<Operation>, run: RunId): int
    decreases |operations|
  {
    if operations == [] then 0 else
      var before, op := operations[..|operations| - 1], operations[|operations| - 1];
      var answer := AnswerTo(maxBytes, Run(maxBytes, before), op);
      if answer == Acquisition(Acquired) && op.request.run == run then ClockAfter(before) + op.request.ttl
      else if answer == Beat(Refreshed) && op.run == run then ClockAfter(before) + op.ttl
      else Until(maxBytes, before, run)
  }

  /** No timeout is zero. */
  predicate Lasting(op: Operation) { (op.DoAcquire? ==> 0 < op.request.ttl) && (op.DoHeartbeat? ==> 0 < op.ttl) }

  /** While the run has its lease, its guest is authorised up to this time, and not longer. */
  ghost predicate KeptUntil(x: State, run: RunId, until: int) {
    run in x.leases ==>
      var g := x.leases[run].request.guest;
      (g in x.source <==> x.clock < until) && (g in x.source ==> x.source[g].addedAt + x.source[g].ttl == until)
  }

  ghost predicate OneEach(leases: map<RunId, ActiveLease>) { forall r, s :: SameGuest(leases, r, s) ==> r == s }

  lemma RevokeUntil(x: State, gone: RunId, run: RunId, until: int)
    requires OneEach(x.leases) && KeptUntil(x, run, until)
    ensures KeptUntil(RevokeOn(x, gone), run, until) && OneEach(RevokeOn(x, gone).leases)
  {
    hide Halted, Tuples, Without;
    var y := RevokeOn(x, gone);
    assert forall r, s :: SameGuest(y.leases, r, s) ==> SameGuest(x.leases, r, s);
    if run in y.leases && gone in x.leases { assert !SameGuest(x.leases, run, gone); }
  }

  lemma {:induction false} CloseUntil(x: State, complete: set<RunId>, run: RunId, until: int)
    requires OneEach(x.leases) && KeptUntil(x, run, until)
    ensures KeptUntil(CloseOn(x, complete), run, until)
    decreases |x.order|
  {
    hide KeptUntil, OneEach, Halted, Tuples, Without;
    if x.order != [] && x.order[0] in x.leases {
      RevokeUntil(x, x.order[0], run, until);
      RevokeShorter(x, x.order[0]);
      if x.order[0] in complete { CloseUntil(RevokeOn(x, x.order[0]), complete, run, until); }
    }
  }

  lemma RevokeShorter(x: State, run: RunId)
    requires run in x.order && run in x.leases
    ensures |RevokeOn(x, run).order| < |x.order|
  {}

  lemma AcquireUntil(x: State, request: LeaseRequest, ready: bool, faults: Faults, run: RunId, until: int)
    requires Backed(x) && OneEach(x.leases) && KeptUntil(x, run, until) && Unleased(x.leases, request.guest, request.run) && 0 < request.ttl
    ensures var acquired := FirstTrouble(x.leases, request, ready, faults).Acquired?;
      KeptUntil(AcquireOn(x, request, ready, faults), run, if acquired && request.run == run then x.clock + request.ttl else until)
  {
    hide Backed, AcquireOn, FirstTrouble, Tuples, Ended;
    var y := AcquireOn(x, request, ready, faults);
    AcquireFrame(x, request, ready, faults);
    AcquireFails(x, request, ready, faults);
    if FirstTrouble(x.leases, request, ready, faults).Acquired? { AcquireGrants(x, request, ready, faults); }
    if run != request.run { OtherUntil(x, y, request, run, until); }
  }

  lemma OtherUntil(x: State, y: State, request: LeaseRequest, run: RunId, until: int)
    requires OneEach(x.leases) && KeptUntil(x, run, until) && Unleased(x.leases, request.guest, request.run) && run != request.run
    requires Touched(x, y, (if request.run in x.leases then {x.leases[request.run].request.guest} else {}) + {request.guest}, request.run)
    ensures KeptUntil(y, run, until)
  {
    if run in y.leases {
      assert run in y.leases - {request.run};
      var g := x.leases[run].request.guest;
      assert !SameGuest(x.leases, run, request.run);
      var mine := (if request.run in x.leases then {x.leases[request.run].request.guest} else {}) + {request.guest};
      assert g in y.source <==> g in y.source - mine;
      assert g in x.source <==> g in x.source - mine;
    }
  }

  lemma HeartbeatUntil(x: State, maxBytes: nat, beating: RunId, ttl: nat, readable: bool, adds: nat, run: RunId, until: int)
    requires OneEach(x.leases) && KeptUntil(x, run, until) && 0 < ttl
    ensures var refreshed := HeartbeatTrouble(x, maxBytes, beating, readable, adds).Refreshed?;
      KeptUntil(HeartbeatOn(x, maxBytes, beating, ttl, readable, adds), run, if refreshed && beating == run then x.clock + ttl else until)
  {
    hide RevokeOn, Given, Tuples, AddsNeeded;
    RevokeUntil(x, beating, run, until);
    if run in x.leases && beating in x.leases && run != beating { assert !SameGuest(x.leases, run, beating); }
  }

  lemma PassUntil(x: State, seconds: nat, sent: map<Guest, nat>, run: RunId, until: int)
    requires KeptUntil(x, run, until)
    ensures KeptUntil(PassOn(x, seconds, sent), run, until)
  {}

  lemma StepUntil(maxBytes: nat, x: State, op: Operation, run: RunId, until: int)
    requires Backed(x) && OneEach(x.leases) && KeptUntil(x, run, until) && Alone(x, op) && Lasting(op)
    ensures var answer := AnswerTo(maxBytes, x, op);
      KeptUntil(Step(maxBytes, x, op), run,
                if answer == Acquisition(Acquired) && op.request.run == run then x.clock + op.request.ttl
                else if answer == Beat(Refreshed) && op.run == run then x.clock + op.ttl else until)
  {
    hide Backed, KeptUntil, OneEach, AcquireOn, HeartbeatOn, RevokeOn, CloseOn, PassOn, FirstTrouble, HeartbeatTrouble, Unleased;
    match op
    case DoAcquire(request, ready, faults) => AcquireUntil(x, request, ready, faults, run, until);
    case DoHeartbeat(beating, ttl, readable, adds, _) => HeartbeatUntil(x, maxBytes, beating, ttl, readable, adds, run, until);
    case DoRevoke(gone, _) => RevokeUntil(x, gone, run, until);
    case DoClose(complete) => CloseUntil(x, complete, run, until);
    case DoPass(seconds, sent) => PassUntil(x, seconds, sent, run, until);
    case DoExit(c) => ExitUntil(x, c, run, until);
  }

  lemma ExitUntil(x: State, c: CaptureId, run: RunId, until: int)
    requires KeptUntil(x, run, until)
    ensures KeptUntil(ExitOn(x, c), run, until)
  {}

  lemma StepClock(maxBytes: nat, x: State, op: Operation)
    ensures Step(maxBytes, x, op).clock == x.clock + if op.DoPass? then op.seconds else 0
  {
    hide RevokeOn, Touched, AcquireOn, RefreshOn, Inside;
    match op
    case DoAcquire(request, ready, faults) =>
      AcquireFrame(x, request, ready, faults);
      AcquireClock(x, request, ready, faults);
    case DoHeartbeat(run, ttl, _, _, _) =>
      RevokeFrame(x, run);
      if run in x.leases { RefreshClock(x, run, ttl); }
    case DoRevoke(run, _) => RevokeFrame(x, run);
    case DoClose(complete) => CloseClock(x, complete);
    case DoPass(_, _) =>
    case DoExit(_) =>
  }

  lemma RefreshClock(x: State, run: RunId, ttl: nat)
    requires run in x.leases
    ensures RefreshOn(x, run, ttl).clock == x.clock
  {}

  lemma AcquireClock(x: State, request: LeaseRequest, ready: bool, faults: Faults)
    ensures AcquireOn(x, request, ready, faults).clock == x.clock
  {
    hide AcquireOn;
    AcquireFrame(x, request, ready, faults);
  }

  lemma {:induction false} CloseClock(x: State, complete: set<RunId>)
    ensures CloseOn(x, complete).clock == x.clock
    decreases |x.order|
  {
    hide RevokeOn;
    if x.order != [] && x.order[0] in x.leases {
      RevokeFrame(x, x.order[0]);
      RevokeShorter(x, x.order[0]);
      if x.order[0] in complete { CloseClock(RevokeOn(x, x.order[0]), complete); }
    }
  }

  lemma {:induction false} ClockIsSum(maxBytes: nat, operations: seq<Operation>)
    ensures Run(maxBytes, operations).clock == ClockAfter(operations)
    decreases |operations|
  {
    hide Step;
    if operations != [] {
      var n := |operations| - 1;
      ClockIsSum(maxBytes, operations[..n]);
      StepClock(maxBytes, Run(maxBytes, operations[..n]), operations[n]);
    }
  }

  /** Where no run asks for a guest that another holds, the guest of a lease is authorised exactly as long as the
      timeout lasts that its run last asked for with success, in an acquire or a heartbeat. */
  lemma {:induction false} AuthorisedExactly(maxBytes: nat, operations: seq<Operation>, run: RunId)
    requires Distinct(maxBytes, operations) && forall op :: op in operations ==> Lasting(op)
    ensures var x := Run(maxBytes, operations);
      run in x.leases ==>
        (x.leases[run].request.guest in x.source <==> ClockAfter(operations) < Until(maxBytes, operations, run))
    ensures KeptUntil(Run(maxBytes, operations), run, Until(maxBytes, operations, run))
    decreases |operations|
  {
    hide Step, Kept, Backed, Conserved, Alone, Lasting, Distinct, AnswerTo;
    ClockIsSum(maxBytes, operations);
    if operations != [] {
      var n := |operations| - 1;
      var x := Run(maxBytes, operations[..n]);
      DistinctUpTo(maxBytes, operations, n);
      assert forall op :: op in operations[..n] ==> op in operations;
      AuthorisedExactly(maxBytes, operations[..n], run);
      ClockIsSum(maxBytes, operations[..n]);
      DistinctConserved(maxBytes, operations[..n]);
      BooksKept(x);
      assert Alone(x, operations[n]) by { AloneAt(maxBytes, operations, n); }
      assert operations[n] in operations;
      StepUntil(maxBytes, x, operations[n], run, Until(maxBytes, operations[..n], run));
    }
  }

  lemma BooksKept(x: State)
    requires Kept(x) && Conserved(x.leases, x.source, x.carried)
    ensures Backed(x) && OneEach(x.leases)
  {}

  lemma AloneAt(maxBytes: nat, operations: seq<Operation>, i: nat)
    requires Distinct(maxBytes, operations) && i < |operations|
    ensures Alone(Run(maxBytes, operations[..i]), operations[i])
  {}

  /** Two runs ask for one guest, and the wait for the second capture's writer runs out: a capture is stopped
      while its guest is authorised, under the lease of the first run, whose own capture goes on. */
  method SharedGuest() returns (broker: EgressManager)
    ensures broker.Valid() && !Calm([], broker.log)
  {
    var guest := Guest(Windows, WINDOWS_NETWORK * 256 + 7);
    broker := new EgressManager(1000);
    var first := broker.Acquire(LeaseRequest(1, guest, 90), true, Faults(true, Some(1), Writing, 1));
    ghost var before := broker.log;
    var second := broker.Acquire(LeaseRequest(2, guest, 90), true, Faults(true, Some(2), Silent, 0));
    CalmOnly([], before, broker.log);
  }
}
