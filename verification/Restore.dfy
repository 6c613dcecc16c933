/** Restoring a backup and rolling a restore back, with a fault possible at every step. A database restore is
    one transaction and a rename is atomic: a step that raises has no effect, except that a copy or a dump
    may be left incomplete. */
module Restore {
  import opened Tables

  /** The files below a directory, and the content of the database. */
  type Tree = map<string, string>
  type Data = string

  datatype Backup = Backup(name: string, manifestId: string, intact: bool, data: Data, tree: Tree)

  /** A dump may be incomplete; `pg_restore --list` then raises. */
  datatype Dump = Dump(data: Data, complete: bool)

  datatype Recovery = Recovery(dump: Option<Dump>, artifacts: Option<Tree>, restoreId: Option<string>)

  datatype Step =
    | CopyStaging | MakeRecovery | DumpDatabase | ListDump | RestoreDatabase | MoveOld | MoveStaged | WriteId
    | UndoMove | UndoDatabase
    | MoveCurrent | MovePrevious | UndoPrevious | UndoCurrent

  datatype Outcome = Done | Refused | Raised(step: Step)

  /** The first step of a restore that fails; the old tree is moved only if there is one. */
  function FirstFault(hasTree: bool, failing: set<Step>): Option<Step> {
    if CopyStaging in failing then Some(CopyStaging)
    else if MakeRecovery in failing then Some(MakeRecovery)
    else if DumpDatabase in failing then Some(DumpDatabase)
    else if ListDump in failing then Some(ListDump)
    else if RestoreDatabase in failing then Some(RestoreDatabase)
    else if hasTree && MoveOld in failing then Some(MoveOld)
    else if MoveStaged in failing then Some(MoveStaged)
    else if WriteId in failing then Some(WriteId)
    else None
  }

  /** The database has been replaced when this step fails. */
  predicate AfterDatabase(step: Step) { step.MoveOld? || step.MoveStaged? || step.WriteId? }

  /** The old tree is out of place when this step fails, and has to be moved back. */
  predicate TreeIsAway(step: Step, hasTree: bool) { step.MoveStaged? && hasTree }

  /** What a restore raises in the end: the first fault, or the fault of undoing it. */
  function Reported(step: Step, hasTree: bool, failing: set<Step>): Step {
    if TreeIsAway(step, hasTree) && UndoMove in failing then UndoMove
    else if AfterDatabase(step) && UndoDatabase in failing then UndoDatabase
    else step
  }

  predicate Acceptable(backup: Backup, expected: string, staging: Option<Tree>, recovery: Option<Recovery>) {
    backup.intact && backup.manifestId == backup.name && backup.manifestId == expected && staging.None? && recovery.None?
  }

  /** Only the writing of the identifier fails: no step before it does. */
  predicate OnlyIdentifier(hasTree: bool, failing: set<Step>) {
    && WriteId in failing && (hasTree ==> MoveOld !in failing)
    && failing !! {CopyStaging, MakeRecovery, DumpDatabase, ListDump, RestoreDatabase, MoveStaged}
  }

  class Site {
    var database: Data
    var artifacts: Option<Tree>
    var staging: Option<Tree>
    var recovery: Option<Recovery>
    var displaced: Option<Tree>

    constructor (database: Data, artifacts: Option<Tree>)
      ensures this.database == database && this.artifacts == artifacts
      ensures staging == None && recovery == None && displaced == None
    {
      this.database, this.artifacts := database, artifacts;
      staging, recovery, displaced := None, None, None;
    }

    /** `restore_backup`; `failing` are the steps that raise. */
    method RestoreBackup(backup: Backup, expected: string, failing: set<Step>) returns (outcome: Outcome)
      modifies this
      ensures displaced == old(displaced)
      ensures var accepted := Acceptable(backup, expected, old(staging), old(recovery));
        var fault := FirstFault(old(artifacts).Some?, failing);
        outcome == if !accepted then Refused else if fault.None? then Done else Raised(Reported(fault.value, old(artifacts).Some?, failing))
      ensures outcome.Refused? <==>
                !backup.intact || backup.manifestId != backup.name || backup.manifestId != expected || old(staging).Some? || old(recovery).Some?
      ensures !outcome.Refused? ==>
                (outcome.Done? <==>
                  && failing !! {CopyStaging, MakeRecovery, DumpDatabase, ListDump, RestoreDatabase, MoveStaged, WriteId}
                  && (old(artifacts).Some? ==> MoveOld !in failing))
      ensures outcome.Refused? ==>
                database == old(database) && artifacts == old(artifacts) && staging == old(staging) && recovery == old(recovery)
      ensures outcome.Done? ==>
                && database == backup.data && artifacts == Some(backup.tree) && staging == None
                && recovery == Some(Recovery(Some(Dump(old(database), true)), old(artifacts), Some(expected)))
      // What a failed restore leaves of the database and the artifacts, by its first fault.
      ensures outcome.Raised? ==>
                var fault := FirstFault(old(artifacts).Some?, failing).value;
                && artifacts == (if fault.WriteId? then Some(backup.tree) else if outcome.step.UndoMove? then None else old(artifacts))
                && database == (if outcome.step.UndoMove? || outcome.step.UndoDatabase? then backup.data else old(database))
      // When undoing does not fail, both are as they were, unless the fault is the writing of the identifier.
      ensures outcome.Raised? && UndoMove !in failing && UndoDatabase !in failing ==>
                && database == old(database)
                && (artifacts == old(artifacts) <==> !OnlyIdentifier(old(artifacts).Some?, failing) || old(artifacts) == Some(backup.tree))
      ensures outcome == Raised(WriteId) ==> recovery == None
      // If undoing fails, the old database is still in the recovery set, and the old artifacts are in place, or
      // there with it, or the new ones are in place and the old ones there.
      ensures outcome == Raised(UndoMove) || outcome == Raised(UndoDatabase) ==>
                && recovery.Some? && recovery.value.dump == Some(Dump(old(database), true))
                && (artifacts == old(artifacts) || recovery.value.artifacts == old(artifacts))
      // A copy that fails stays, and keeps every later restore from starting.
      ensures outcome.Raised? ==>
                if outcome.step.CopyStaging? || outcome.step.MakeRecovery? then staging.Some? && recovery == None else staging == None
    {
      if !backup.intact || backup.manifestId != backup.name { return Refused; }
      if backup.manifestId != expected { return Refused; }
      if staging.Some? || recovery.Some? { return Refused; }
      if CopyStaging in failing {
        var partial: Tree := *;
        staging := Some(partial);
        return Raised(CopyStaging);
      }
      staging := Some(backup.tree);
      if MakeRecovery in failing { return Raised(MakeRecovery); }
      recovery := Some(Recovery(None, None, None));
      var replaced := false;
      var raised: Option<Step> := None;
      if DumpDatabase in failing {
        var partial: Data := *;
        recovery := Some(recovery.value.(dump := Some(Dump(partial, false))));
        raised := Some(DumpDatabase);
      } else {
        recovery := Some(recovery.value.(dump := Some(Dump(database, true))));
        if ListDump in failing {
          raised := Some(ListDump);
        } else if RestoreDatabase in failing {
          raised := Some(RestoreDatabase);
        } else {
          database, replaced := backup.data, true;
          raised := SwapArtifacts(expected, failing);
        }
      }
      if raised.None? { return Done; }
      outcome := Undo(raised.value, replaced, failing);
    }

    /** The last three steps of the try block. */
    method SwapArtifacts(expected: string, failing: set<Step>) returns (raised: Option<Step>)
      requires staging.Some? && recovery.Some? && recovery.value.artifacts.None?
      modifies this`artifacts, this`staging, this`recovery
      ensures raised == if old(artifacts).Some? && MoveOld in failing then Some(MoveOld)
                        else if MoveStaged in failing then Some(MoveStaged) else if WriteId in failing then Some(WriteId) else None
      ensures var moved := old(recovery).value.(artifacts := old(artifacts));
        match raised
        case None => artifacts == old(staging) && staging == None && recovery == Some(moved.(restoreId := Some(expected)))
        case Some(MoveOld) => artifacts == old(artifacts) && staging == old(staging) && recovery == old(recovery)
        case Some(MoveStaged) => artifacts == None && staging == old(staging) && recovery == Some(moved)
        case Some(step) => step == WriteId && artifacts == old(staging) && staging == None && recovery == Some(moved)
    {
      if artifacts.Some? {
        if MoveOld in failing { return Some(MoveOld); }
        recovery := Some(recovery.value.(artifacts := artifacts));
        artifacts := None;
      }
      if MoveStaged in failing { return Some(MoveStaged); }
      artifacts, staging := staging, None;
      if WriteId in failing { return Some(WriteId); }
      recovery := Some(recovery.value.(restoreId := Some(expected)));
      return None;
    }

    /** The handler: artifacts move back only if no tree is in place. */
    method Undo(raised: Step, replaced: bool, failing: set<Step>) returns (outcome: Outcome)
      requires recovery.Some? && (replaced ==> recovery.value.dump.Some?)
      modifies this`artifacts, this`staging, this`recovery, this`database
      ensures staging == None && outcome.Raised?
      ensures var back := old(recovery).value.artifacts.Some? && old(artifacts).None?;
        if back && UndoMove in failing then
          outcome == Raised(UndoMove) && database == old(database) && artifacts == old(artifacts) && recovery == old(recovery)
        else
          && artifacts == (if back then old(recovery).value.artifacts else old(artifacts))
          && if replaced && UndoDatabase in failing then
               && outcome == Raised(UndoDatabase) && database == old(database)
               && recovery == (if back then Some(old(recovery).value.(artifacts := None)) else old(recovery))
             else
               && outcome == Raised(raised) && recovery == None
               && database == if replaced then old(recovery).value.dump.value.data else old(database)
    {
      staging := None;
      if recovery.value.artifacts.Some? && artifacts.None? {
        if UndoMove in failing { return Raised(UndoMove); }
        artifacts := recovery.value.artifacts;
        recovery := Some(recovery.value.(artifacts := None));
      }
      if replaced {
        if UndoDatabase in failing { return Raised(UndoDatabase); }
        database := recovery.value.dump.value.data;
      }
      recovery := None;
      return Raised(raised);
    }

    /** `rollback_restore`. */
    method RollbackRestore(expected: string, failing: set<Step>) returns (outcome: Outcome)
      modifies this
      ensures staging == old(staging)
      ensures outcome.Refused? <==>
                || old(recovery).None? || old(recovery).value.restoreId != Some(expected)
                || old(recovery).value.dump.None? || old(recovery).value.artifacts.None?
                || !old(recovery).value.dump.value.complete || old(displaced).Some?
      // All or nothing, whatever raises, as long as the moves back do not.
      ensures !outcome.Done? && UndoPrevious !in failing && UndoCurrent !in failing ==>
                database == old(database) && artifacts == old(artifacts) && recovery == old(recovery) && displaced == old(displaced)
      ensures outcome.Done? ==>
                && database == old(recovery).value.dump.value.data && artifacts == old(recovery).value.artifacts
                && displaced == old(artifacts) && recovery == Some(old(recovery).value.(artifacts := None))
      ensures outcome.Raised? ==> outcome.step in failing && database == old(database)
      ensures !outcome.Refused? ==>
                (outcome.Done? <==> (old(artifacts).Some? ==> MoveCurrent !in failing) && failing !! {MovePrevious, RestoreDatabase})
    {
      if recovery.None? || recovery.value.restoreId != Some(expected) { return Refused; }
      var kept := recovery.value;
      if kept.dump.None? || kept.artifacts.None? { return Refused; }
      if !kept.dump.value.complete { return Refused; }
      if displaced.Some? { return Refused; }
      if artifacts.Some? {
        if MoveCurrent in failing { return Raised(MoveCurrent); }
        displaced, artifacts := artifacts, None;
      }
      var raised: Option<Step> := None;
      if MovePrevious in failing {
        raised := Some(MovePrevious);
      } else {
        artifacts, recovery := kept.artifacts, Some(kept.(artifacts := None));
        if RestoreDatabase in failing { raised := Some(RestoreDatabase); } else { database := kept.dump.value.data; }
      }
      if raised.None? { return Done; }
      if artifacts.Some? && recovery.value.artifacts.None? {
        if UndoPrevious in failing { return Raised(UndoPrevious); }
        recovery, artifacts := Some(recovery.value.(artifacts := artifacts)), None;
      }
      if displaced.Some? && artifacts.None? {
        if UndoCurrent in failing { return Raised(UndoCurrent); }
        artifacts, displaced := displaced, None;
      }
      return Raised(raised.value);
    }
  }

  /** A restore, anything at all while the restored system runs, and a rollback: database and artifacts are
      what they were before exactly when there was an artifact tree to go back to. */
  method RestoreThenRollback(site: Site, backup: Backup, laterData: Data, laterTree: Option<Tree>) returns (restored: Outcome, rolledBack: Outcome)
    requires backup.intact && backup.manifestId == backup.name
    requires site.staging.None? && site.recovery.None? && site.displaced.None?
    modifies site
    ensures restored.Done?
    ensures rolledBack.Done? <==> old(site.artifacts).Some?
    ensures rolledBack.Done? ==>
              site.database == old(site.database) && site.artifacts == old(site.artifacts) && site.displaced == laterTree
    ensures rolledBack.Refused? ==> site.database == laterData && site.artifacts == laterTree
  {
    restored := site.RestoreBackup(backup, backup.name, {});
    site.database, site.artifacts := laterData, laterTree;
    rolledBack := site.RollbackRestore(backup.name, {});
  }

  /** Nothing fails but the writing of the identifier: the new artifacts stay beside the old database, and the
      old artifacts are gone. */
  method IdentifierNotWritten(site: Site, backup: Backup) returns (outcome: Outcome)
    requires Acceptable(backup, backup.name, site.staging, site.recovery)
    modifies site
    ensures outcome == Raised(WriteId)
    ensures site.database == old(site.database) && site.artifacts == Some(backup.tree)
    ensures site.recovery == None && site.displaced == old(site.displaced) && site.staging == None
  {
    outcome := site.RestoreBackup(backup, backup.name, {WriteId});
  }
}
