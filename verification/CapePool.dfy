/** The pool of CAPE machines: records, guest addresses, DHCP reservations and domains. Every command may fail
    while a machine is made; the commands that clean up are taken to succeed. */
module CapePool {
  import opened Tables

  type ProfileId = nat
  type Label = string

  datatype Machine = Machine(name: Label, ip: int, mac: string)

  datatype Reservation = Reservation(mac: string, name: Label, ip: int)

  /** `name` is the label that is made of the profile's name and the first eight digits of its id. */
  datatype Profile = Profile(id: ProfileId, name: Label, template: string, windowsVersion: string, diskGb: int)

  datatype Configuration = Configuration(
    templates: set<string>, windowsVersion: string, baseSize: int, addressStart: int, addressEnd: int,
    mac: Label -> string, wellNamed: Label -> bool)

  datatype Step =
    | Convert | Resize | Permit | Define | Reserve | Start | Customize | Snapshot | Shut | WriteConf | WriteRecord

  datatype CreateOutcome =
    | Existing(name: Label) | Created(name: Label) | NotApproved | WrongVersion | IllNamed | TooSmall | Exhausted | Aborted(step: Step)

  datatype DeleteOutcome = Deleted | Outside | Unknown | InUse

  function ReservationOf(m: Machine): Reservation { Reservation(m.mac, m.name, m.ip) }

  function AddressesOf(records: map<ProfileId, Machine>): set<int> { set p | p in records :: records[p].ip }

  function ReservationsOf(records: map<ProfileId, Machine>): set<Reservation> { set p | p in records :: ReservationOf(records[p]) }

  function LabelsOf(records: map<ProfileId, Machine>): set<Label> { set p | p in records :: records[p].name }

  ghost predicate SameAddress(records: map<ProfileId, Machine>, p: ProfileId, q: ProfileId) {
    p in records && q in records && records[p].ip == records[q].ip
  }

  ghost predicate SameLabel(records: map<ProfileId, Machine>, p: ProfileId, q: ProfileId) {
    p in records && q in records && records[p].name == records[q].name
  }

  ghost predicate Distinct(records: map<ProfileId, Machine>) {
    && (forall p, q :: SameAddress(records, p, q) ==> p == q)
    && (forall p, q :: SameLabel(records, p, q) ==> p == q)
  }

  function Range(lo: int, hi: int): (r: set<int>)
    ensures |r| == if lo <= hi then hi - lo + 1 else 0
    ensures forall x :: x in r <==> lo <= x <= hi
    decreases hi - lo + 1
  {
    if hi < lo then {} else Range(lo, hi - 1) + {hi}
  }

  lemma OneMore(records: map<ProfileId, Machine>, p: ProfileId, m: Machine)
    requires p !in records
    ensures AddressesOf(records[p := m]) == AddressesOf(records) + {m.ip}
    ensures ReservationsOf(records[p := m]) == ReservationsOf(records) + {ReservationOf(m)}
    ensures LabelsOf(records[p := m]) == LabelsOf(records) + {m.name}
  {
    var more := records[p := m];
    forall q | q in records ensures more[q] == records[q] {}
    assert more[p] == m;
    forall q | q in records
      ensures records[q].ip in AddressesOf(more) && ReservationOf(records[q]) in ReservationsOf(more) && records[q].name in LabelsOf(more)
    {
      assert q in more && more[q] == records[q];
    }
    assert p in more;
  }

  lemma Unreserved(records: map<ProfileId, Machine>, m: Machine)
    requires m.name !in LabelsOf(records)
    ensures ReservationOf(m) !in ReservationsOf(records)
  {}

  /** As many addresses as machines, because no two machines share one. */
  lemma {:induction false} AddressCount(records: map<ProfileId, Machine>)
    requires Distinct(records)
    ensures |AddressesOf(records)| == |records|
    decreases |records|
  {
    if records == map[] {
      assert AddressesOf(records) == {};
    } else {
      var p :| p in records;
      var rest := records - {p};
      assert forall x, y :: SameAddress(rest, x, y) ==> SameAddress(records, x, y);
      assert forall x, y :: SameLabel(rest, x, y) ==> SameLabel(records, x, y);
      AddressCount(rest);
      forall q | q in rest ensures rest[q].ip != records[p].ip { assert !SameAddress(records, q, p); }
      OneMore(rest, p, records[p]);
      assert records == rest[p := records[p]];
      assert records.Keys == rest.Keys + {p};
    }
  }

  /** The machines never outnumber the addresses of the range. */
  lemma PoolBound(records: map<ProfileId, Machine>, lo: int, hi: int)
    requires Distinct(records) && forall p :: p in records ==> lo <= records[p].ip <= hi
    ensures |records| <= if lo <= hi then hi - lo + 1 else 0
  {
    AddressCount(records);
    SubsetSize(AddressesOf(records), Range(lo, hi));
  }

  /** The first guard of `create` that settles the request, if one does. */
  function Screened(cfg: Configuration, records: map<ProfileId, Machine>, profile: Profile): Option<CreateOutcome> {
    if profile.template !in cfg.templates then Some(NotApproved)
    else if profile.windowsVersion != cfg.windowsVersion then Some(WrongVersion)
    else if profile.id in records then Some(Existing(records[profile.id].name))
    else if !cfg.wellNamed(profile.name) then Some(IllNamed)
    else if profile.diskGb < cfg.baseSize then Some(TooSmall)
    else if Range(cfg.addressStart, cfg.addressEnd) <= AddressesOf(records) then Some(Exhausted)
    else None
  }

  /** The first command that fails; a taken label makes the definition of the domain fail. */
  function FirstFault(failing: set<Step>, taken: bool): Option<Step> {
    if Convert in failing then Some(Convert)
    else if Resize in failing then Some(Resize)
    else if Permit in failing then Some(Permit)
    else if Define in failing || taken then Some(Define)
    else if Reserve in failing then Some(Reserve)
    else if Start in failing then Some(Start)
    else if Customize in failing then Some(Customize)
    else if Snapshot in failing then Some(Snapshot)
    else if Shut in failing then Some(Shut)
    else if WriteConf in failing then Some(WriteConf)
    else if WriteRecord in failing then Some(WriteRecord)
    else None
  }

  lemma TakenFaults(failing: set<Step>)
    ensures FirstFault(failing, true).Some?
  {}

  /** The lowest address from `lo` on that is not used. */
  function LowestFree(used: set<int>, lo: int, hi: int): (ip: Option<int>)
    ensures ip.Some? ==> lo <= ip.value <= hi && ip.value !in used && forall x :: lo <= x < ip.value ==> x in used
    ensures ip.None? <==> forall x :: lo <= x <= hi ==> x in used
    decreases hi - lo + 1
  {
    if hi < lo then None else if lo !in used then Some(lo) else LowestFree(used, lo + 1, hi)
  }

  datatype State = State(
    records: map<ProfileId, Machine>, reservations: set<Reservation>, domains: set<Label>, conf: map<Label, int>, disks: set<Label>)

  const NO_MACHINES := State(map[], {}, {}, map[], {})

  function CreateOutcomeOn(cfg: Configuration, x: State, profile: Profile, failing: set<Step>): CreateOutcome {
    var screened := Screened(cfg, x.records, profile);
    var fault := FirstFault(failing, profile.name in x.domains);
    if screened.Some? then screened.value else if fault.None? then Created(profile.name) else Aborted(fault.value)
  }

  function CreateOn(cfg: Configuration, x: State, profile: Profile, failing: set<Step>): State {
    var free := LowestFree(AddressesOf(x.records), cfg.addressStart, cfg.addressEnd);
    var outcome := CreateOutcomeOn(cfg, x, profile, failing);
    if free.None? then x
    else if outcome.Created? then
      var m := Machine(profile.name, free.value, cfg.mac(profile.name));
      State(x.records[profile.id := m], x.reservations + {ReservationOf(m)}, x.domains + {m.name}, x.conf[m.name := m.ip], x.disks + {m.name})
    else if outcome.Aborted? then
      x.(disks := x.disks - {profile.name},
         conf := if outcome.step == WriteRecord then x.conf[profile.name := free.value] else x.conf)
    else x
  }

  function DeleteOutcomeOn(cfg: Configuration, x: State, name: Label, running: bool, taken: bool): DeleteOutcome {
    if !cfg.wellNamed(name) then Outside
    else if name !in LabelsOf(x.records) then Unknown
    else if running || taken then InUse
    else Deleted
  }

  /** Nothing of that label is left. */
  function DeleteOn(cfg: Configuration, x: State, name: Label, running: bool, taken: bool): State {
    if !DeleteOutcomeOn(cfg, x, name, running, taken).Deleted? then x else
      State(map p | p in x.records && x.records[p].name != name :: x.records[p], (set r | r in x.reservations && r.name != name),
            x.domains - {name}, x.conf - {name}, x.disks - {name})
  }

  /** An address of the range that no machine has. */
  predicate Unused(cfg: Configuration, records: map<ProfileId, Machine>, ip: int) {
    cfg.addressStart <= ip <= cfg.addressEnd && forall p :: p in records ==> records[p].ip != ip
  }

  /** A machine is created if and only if its profile is approved and new, its label is well-formed and free, its
      disk is large enough, an address of the range is free and no command fails. */
  lemma CreatedExactly(cfg: Configuration, x: State, profile: Profile, failing: set<Step>)
    ensures CreateOutcomeOn(cfg, x, profile, failing).Created? <==>
              && profile.template in cfg.templates && profile.windowsVersion == cfg.windowsVersion && profile.id !in x.records
              && cfg.wellNamed(profile.name) && profile.name !in x.domains && cfg.baseSize <= profile.diskGb
              && (exists ip :: Unused(cfg, x.records, ip))
              && failing == {}
  {
    hide FirstFault;
    AllSteps(failing);
    TakenFaults(failing);
    forall ip ensures Unused(cfg, x.records, ip) <==> ip in Range(cfg.addressStart, cfg.addressEnd) && ip !in AddressesOf(x.records) {}
    if Range(cfg.addressStart, cfg.addressEnd) <= AddressesOf(x.records) {
      assert forall ip :: !Unused(cfg, x.records, ip);
    } else {
      var ip :| ip in Range(cfg.addressStart, cfg.addressEnd) && ip !in AddressesOf(x.records);
      assert Unused(cfg, x.records, ip);
    }
  }

  lemma AllSteps(failing: set<Step>)
    ensures FirstFault(failing, false).None? <==> failing == {}
  {
    if FirstFault(failing, false).None? {
      forall step: Step ensures step !in failing {
        match step { case Convert => case Resize => case Permit => case Define => case Reserve => case Start => case Customize =>
                     case Snapshot => case Shut => case WriteConf => case WriteRecord => }
      }
    }
  }

  class Manager {
    const cfg: Configuration
    var records: map<ProfileId, Machine>
    var reservations: set<Reservation>
    var domains: set<Label>
    var conf: map<Label, int> // the machines listed for CAPE
    var disks: set<Label>

    ghost predicate Valid()
      reads this
    {
      && Distinct(records)
      && (forall p :: p in records ==> cfg.addressStart <= records[p].ip <= cfg.addressEnd)
      && reservations == ReservationsOf(records)
      && domains == LabelsOf(records)
      && domains <= conf.Keys
      && (forall name :: name in domains ==> cfg.wellNamed(name))
    }

    /** Every recorded machine has its disk. */
    ghost predicate Equipped()
      reads this
    {
      LabelsOf(records) <= disks
    }

    ghost function Current(): State
      reads this
    {
      State(records, reservations, domains, conf, disks)
    }

    constructor (cfg: Configuration)
      ensures Valid() && Equipped() && this.cfg == cfg && Current() == NO_MACHINES
    {
      this.cfg := cfg;
      records, reservations, domains, conf, disks := map[], {}, {}, map[], {};
    }

    /** `_allocate_ip`: the lowest address that no record uses; none exactly when all are used. */
    method AllocateIp() returns (ip: Option<int>)
      ensures ip.Some? ==>
                && cfg.addressStart <= ip.value <= cfg.addressEnd && ip.value !in AddressesOf(records)
                && forall x :: cfg.addressStart <= x < ip.value ==> x in AddressesOf(records)
      ensures ip.None? <==> Range(cfg.addressStart, cfg.addressEnd) <= AddressesOf(records)
      ensures ip == LowestFree(AddressesOf(records), cfg.addressStart, cfg.addressEnd)
    {
      var used := AddressesOf(records);
      var candidate := cfg.addressStart;
      while candidate <= cfg.addressEnd
        invariant cfg.addressStart <= candidate
        invariant forall x :: cfg.addressStart <= x < candidate ==> x in used
        invariant LowestFree(used, cfg.addressStart, cfg.addressEnd) == LowestFree(used, candidate, cfg.addressEnd)
      {
        if candidate !in used { return Some(candidate); }
        candidate := candidate + 1;
      }
      return None;
    }

    /** `create`; `failing` are the commands that fail. A label that is taken makes its domain's definition fail. */
    method Create(profile: Profile, failing: set<Step>) returns (outcome: CreateOutcome)
      requires Valid()
      modifies this
      ensures Valid()
      ensures outcome == CreateOutcomeOn(cfg, old(Current()), profile, failing)
      ensures Current() == CreateOn(cfg, old(Current()), profile, failing)
      ensures disks == if outcome.Created? then old(disks) + {profile.name} else if outcome.Aborted? then old(disks) - {profile.name} else old(disks)
      // A machine loses its disk exactly when another is made under its label.
      ensures old(Equipped()) ==> (Equipped() <==> !(Screened(cfg, old(records), profile).None? && profile.name in old(domains)))
      ensures outcome.Created? ==>
                && profile.id !in old(records) && outcome.name == profile.name && profile.id in records
                && records == old(records)[profile.id := records[profile.id]]
                && records[profile.id].name == profile.name && records[profile.id].ip !in AddressesOf(old(records))
                && records[profile.id].mac == cfg.mac(profile.name)
                && conf == old(conf)[profile.name := records[profile.id].ip]
      ensures !outcome.Created? ==> records == old(records) && reservations == old(reservations) && domains == old(domains)
      // The entry in CAPE's own configuration is not taken back when the record cannot be written.
      ensures outcome == Aborted(WriteRecord) ==> profile.name in conf && conf == old(conf)[profile.name := conf[profile.name]]
      ensures !outcome.Created? && outcome != Aborted(WriteRecord) ==> conf == old(conf)
    {
      hide Distinct, AddressesOf, ReservationsOf, LabelsOf, FirstFault;
      if profile.template !in cfg.templates { return NotApproved; }
      if profile.windowsVersion != cfg.windowsVersion { return WrongVersion; }
      if profile.id in records { return Existing(records[profile.id].name); }
      if !cfg.wellNamed(profile.name) { return IllNamed; }
      if profile.diskGb < cfg.baseSize { return TooSmall; }
      var ip := AllocateIp();
      if ip.None? { return Exhausted; }
      var machine := Machine(profile.name, ip.value, cfg.mac(profile.name));
      TakenFaults(failing);
      var failed := Attempt(profile.id, machine, failing);
      outcome := if failed.None? then Created(profile.name) else Aborted(failed.value);
    }

    /** The try block and its handler: all of the machine, or nothing of it. */
    method Attempt(id: ProfileId, m: Machine, failing: set<Step>) returns (failed: Option<Step>)
      requires Valid() && id !in records && m.ip !in AddressesOf(records) && cfg.addressStart <= m.ip <= cfg.addressEnd
      requires cfg.wellNamed(m.name)
      modifies this
      ensures Valid()
      ensures failed == FirstFault(failing, m.name in old(domains))
      ensures disks == if failed.None? then old(disks) + {m.name} else old(disks) - {m.name}
      ensures failed.None? ==> LabelsOf(records) == LabelsOf(old(records)) + {m.name}
      ensures records == if failed.None? then old(records)[id := m] else old(records)
      ensures failed.None? ==> reservations == old(reservations) + {ReservationOf(m)} && domains == old(domains) + {m.name}
      ensures failed.Some? ==> reservations == old(reservations) && domains == old(domains)
      ensures conf == if failed == None || failed == Some(WriteRecord) then old(conf)[m.name := m.ip] else old(conf)
    {
      hide Distinct, AddressesOf, ReservationsOf, LabelsOf;
      var domain, reserved;
      failed, domain, reserved := Make(id, m, failing);
      if domain { Unreserved(old(records), m); }
      if failed.None? {
        KeepDistinct(id, m, old(records));
        OneMore(old(records), id, m);
      } else {
        if domain { domains := domains - {m.name}; }
        if reserved { reservations := reservations - {ReservationOf(m)}; }
        disks := disks - {m.name};
      }
    }

    /** The try block: how far it gets. */
    method Make(id: ProfileId, m: Machine, failing: set<Step>) returns (failed: Option<Step>, domain: bool, reserved: bool)
      modifies this
      ensures failed == FirstFault(failing, m.name in old(domains))
      ensures disks == if failed == Some(Convert) then old(disks) else old(disks) + {m.name}
      ensures domain ==> m.name !in old(domains)
      ensures reserved ==> domain
      ensures failed == None ==> domain && reserved
      ensures domains == if domain then old(domains) + {m.name} else old(domains)
      ensures reservations == if reserved then old(reservations) + {ReservationOf(m)} else old(reservations)
      ensures records == if failed.None? then old(records)[id := m] else old(records)
      ensures conf == if failed == None || failed == Some(WriteRecord) then old(conf)[m.name := m.ip] else old(conf)
    {
      domain, reserved := false, false;
      if Convert in failing { return Some(Convert), domain, reserved; }
      disks := disks + {m.name};
      if Resize in failing { return Some(Resize), domain, reserved; }
      if Permit in failing { return Some(Permit), domain, reserved; }
      if Define in failing || m.name in domains { return Some(Define), domain, reserved; }
      domains, domain := domains + {m.name}, true;
      if Reserve in failing { return Some(Reserve), domain, reserved; }
      reservations, reserved := reservations + {ReservationOf(m)}, true;
      if Start in failing { return Some(Start), domain, reserved; }
      if Customize in failing { return Some(Customize), domain, reserved; }
      if Snapshot in failing { return Some(Snapshot), domain, reserved; }
      if Shut in failing { return Some(Shut), domain, reserved; }
      if WriteConf in failing { return Some(WriteConf), domain, reserved; }
      conf := conf[m.name := m.ip];
      if WriteRecord in failing { return Some(WriteRecord), domain, reserved; }
      records := records[id := m];
      failed := None;
    }

    lemma KeepDistinct(id: ProfileId, m: Machine, before: map<ProfileId, Machine>)
      requires Distinct(before) && id !in before && m.ip !in AddressesOf(before)
      requires m.name !in LabelsOf(before)
      ensures Distinct(before[id := m])
    {
      var after := before[id := m];
      forall p, q | SameAddress(after, p, q) ensures p == q {
        if p != id && q != id { assert SameAddress(before, p, q); }
      }
      forall p, q | SameLabel(after, p, q) ensures p == q {
        if p != id && q != id { assert SameLabel(before, p, q); }
      }
    }

    /** `delete`, of a machine that is shut off and not assigned to an analysis. */
    method Delete(name: Label, running: bool, taken: bool) returns (outcome: DeleteOutcome)
      requires Valid()
      modifies this
      ensures Valid()
      ensures outcome == DeleteOutcomeOn(cfg, old(Current()), name, running, taken)
      ensures outcome.Outside? <==> !cfg.wellNamed(name)
      ensures outcome.Unknown? <==> cfg.wellNamed(name) && forall p :: p in old(records) ==> old(records)[p].name != name
      ensures outcome.InUse? <==> !outcome.Outside? && !outcome.Unknown? && (running || taken)
      ensures Current() == DeleteOn(cfg, old(Current()), name, running, taken)
      ensures old(Equipped()) ==> Equipped()
      ensures !outcome.Deleted? ==>
                && records == old(records) && reservations == old(reservations) && domains == old(domains)
                && conf == old(conf) && disks == old(disks)
      ensures outcome.Deleted? ==>
                && conf == old(conf) - {name} && disks == old(disks) - {name} && domains == old(domains) - {name}
                && exists p :: p in old(records) && old(records)[p].name == name && records == old(records) - {p}
    {
      if !cfg.wellNamed(name) { return Outside; }
      var known := exists p :: p in records && records[p].name == name;
      if !known { return Unknown; }
      var p :| p in records && records[p].name == name;
      if running || taken { return InUse; }
      var machine := records[p];
      conf := conf - {name};
      domains := domains - {name};
      reservations := reservations - {ReservationOf(machine)};
      disks := disks - {name};
      records := records - {p};
      assert forall x, y :: SameAddress(records, x, y) ==> SameAddress(old(records), x, y);
      assert forall x, y :: SameLabel(records, x, y) ==> SameLabel(old(records), x, y);
      forall q | q in records ensures records[q].name != name { assert !SameLabel(old(records), q, p); }
      OneMore(records, p, machine);
      assert old(records) == records[p := machine];
      return Deleted;
    }
  }

  datatype Operation =
    | DoCreate(profile: Profile, failing: set<Step>)
    | DoDelete(name: Label, running: bool, taken: bool)

  datatype Answer = OfCreate(created: CreateOutcome) | OfDelete(deleted: DeleteOutcome)

  function Do(cfg: Configuration, x: State, op: Operation): (State, Answer) {
    match op
    case DoCreate(profile, failing) => (CreateOn(cfg, x, profile, failing), OfCreate(CreateOutcomeOn(cfg, x, profile, failing)))
    case DoDelete(name, running, taken) =>
      (DeleteOn(cfg, x, name, running, taken), OfDelete(DeleteOutcomeOn(cfg, x, name, running, taken)))
  }

  function Run(cfg: Configuration, operations: seq<Operation>): State
    decreases |operations|
  {
    if operations == [] then NO_MACHINES else
      Do(cfg, Run(cfg, operations[..|operations| - 1]), operations[|operations| - 1]).0
  }

  function Answers(cfg: Configuration, operations: seq<Operation>): (r: seq<Answer>)
    ensures |r| == |operations|
    ensures forall i :: 0 <= i < |r| ==> r[i] == Do(cfg, Run(cfg, operations[..i]), operations[i]).1
  {
    seq(|operations|, i requires 0 <= i < |operations| => Do(cfg, Run(cfg, operations[..i]), operations[i]).1)
  }

  /** After any creations, successful or not, and any deletions, each answered as specified: distinct addresses
      inside the range, no more machines than addresses, and exactly the reservations of the recorded machines. */
  method Serve(cfg: Configuration, operations: seq<Operation>) returns (pool: Manager, answers: seq<Answer>)
    ensures fresh(pool) && pool.cfg == cfg && pool.Valid()
    ensures pool.Current() == Run(cfg, operations) && answers == Answers(cfg, operations)
    ensures |pool.records| <= if cfg.addressStart <= cfg.addressEnd then cfg.addressEnd - cfg.addressStart + 1 else 0
    ensures |pool.reservations| == |pool.records|
  {
    hide Do, Distinct;
    pool := new Manager(cfg);
    answers := [];
    for i := 0 to |operations|
      invariant fresh(pool) && pool.cfg == cfg && pool.Valid()
      invariant pool.Current() == Run(cfg, operations[..i]) && answers == Answers(cfg, operations)[..i]
    {
      var answer := Handle(pool, operations[i]);
      answers := answers + [answer];
      assert operations[..i + 1][..i] == operations[..i];
    }
    assert operations[..|operations|] == operations;
    PoolBound(pool.records, cfg.addressStart, cfg.addressEnd);
    OneReservationEach(pool.records);
  }

  method Handle(pool: Manager, op: Operation) returns (answer: Answer)
    requires pool.Valid()
    modifies pool
    ensures pool.Valid() && (pool.Current(), answer) == Do(pool.cfg, old(pool.Current()), op)
  {
    hide CreateOn, DeleteOn, CreateOutcomeOn, DeleteOutcomeOn, Distinct, LabelsOf, AddressesOf, ReservationsOf;
    match op {
      case DoCreate(profile, failing) =>
        var outcome := pool.Create(profile, failing);
        answer := OfCreate(outcome);
      case DoDelete(name, running, taken) =>
        var outcome := pool.Delete(name, running, taken);
        answer := OfDelete(outcome);
    }
  }

  /** Distinct machines have distinct reservations. */
  lemma {:induction false} OneReservationEach(records: map<ProfileId, Machine>)
    requires Distinct(records)
    ensures |ReservationsOf(records)| == |records|
    decreases |records|
  {
    if records == map[] {
      assert ReservationsOf(records) == {};
    } else {
      var p :| p in records;
      var rest := records - {p};
      assert forall x, y :: SameAddress(rest, x, y) ==> SameAddress(records, x, y);
      assert forall x, y :: SameLabel(rest, x, y) ==> SameLabel(records, x, y);
      OneReservationEach(rest);
      forall q | q in rest ensures ReservationOf(rest[q]) != ReservationOf(records[p]) { assert !SameAddress(records, q, p); }
      OneMore(rest, p, records[p]);
      assert records == rest[p := records[p]];
      assert records.Keys == rest.Keys + {p};
    }
  }

  lemma RoomForTwo(cfg: Configuration, records: map<ProfileId, Machine>)
    requires Distinct(records) && |records| <= 1 && cfg.addressStart < cfg.addressEnd
    ensures !(Range(cfg.addressStart, cfg.addressEnd) <= AddressesOf(records))
  {
    AddressCount(records);
    if Range(cfg.addressStart, cfg.addressEnd) <= AddressesOf(records) {
      SubsetSize(Range(cfg.addressStart, cfg.addressEnd), AddressesOf(records));
    }
  }

  /** Two profiles with one label: the second is not made, and its cleanup takes the disk of the first. */
  method TakenLabel(cfg: Configuration, first: Profile, second: Profile) returns (pool: Manager, outcome: CreateOutcome)
    requires first.name == second.name && first.id != second.id && cfg.addressStart < cfg.addressEnd
    requires Screened(cfg, map[], first).None? && Screened(cfg, map[], second).None?
    ensures fresh(pool) && pool.Valid() && outcome == Aborted(Define)
    ensures first.id in pool.records && pool.records[first.id].name == first.name && first.name !in pool.disks
  {
    hide CreateOn, Distinct, ReservationsOf;
    pool := new Manager(cfg);
    outcome := pool.Create(first, {});
    RoomForTwo(cfg, pool.records);
    assert first.name in LabelsOf(pool.records);
    outcome := pool.Create(second, {});
  }
}
