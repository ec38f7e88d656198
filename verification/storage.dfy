/**
 The two-file snapshot protocol (src/storage.rs) over a directory whose steps may fail or
 crash at any point.
 */
module Storage {
  import opened Common
  import opened Model
  import opened Validation
  import opened Execution
  import opened Formats
  import opened Snapshots

  /** How a file-system step ends. After a crash the process runs no further. */
  datatype Fate = Done | Failed | Crashed

  datatype Temp = SaveTemp | BackupTemp | RestoreTemp | RollbackTemp

  datatype Target = Primary | Backup

  /**
   The snapshot directory. `primary` and `backup` are what the running process reads;
   `primaries` and `backups` are what a crash at this moment could leave under those names:
   every version since the last directory sync. A temporary file holds its bytes only after
   they were synced; until then it may hold anything.
   */
  class Directory {
    var primary: File
    var backup: File
    var temps: map<Temp, Content>
    ghost var primaries: set<File>
    ghost var backups: set<File>
    /** How many steps have failed or crashed. */
    ghost var faults: nat

    ghost predicate Valid()
      reads this
    {
      primary in primaries && backup in backups
    }

    ghost function View(): Disk
      reads this
    {
      Disk(primaries, backups)
    }

    /** What a process finds when it starts: nothing is pending. */
    constructor (primary: File, backup: File)
      ensures Valid() && this.primary == primary && this.backup == backup && View() == Disk({primary}, {backup})
    {
      this.primary, this.backup, temps := primary, backup, map[];
      primaries, backups, faults := {primary}, {backup}, 0;
    }

    /** One step that may fail or crash. */
    method Attempt() returns (fate: Fate)
      modifies `faults
      ensures faults == old(faults) + if fate.Done? then 0 else 1
    {
      fate := *;
      if !fate.Done? {
        faults := faults + 1;
      }
    }

    /** Create or truncate, write, and sync one temporary file. */
    method WriteSynced(temp: Temp, bytes: Content) returns (fate: Fate)
      modifies `temps, `faults
      ensures faults == old(faults) + if fate.Done? then 0 else 1
      ensures fate.Done? ==> temp in temps && temps[temp] == bytes
      ensures forall t :: t != temp ==> (t in temps <==> t in old(temps)) && (t in temps ==> temps[t] == old(temps[t]))
    {
      var torn: Content := *;
      temps := temps[temp := torn];
      fate := Attempt();
      if fate.Done? {
        temps := temps[temp := bytes];
      }
    }

    /** Rename a temporary file over a target: atomic, but not durable before the next directory sync. */
    method Rename(temp: Temp, target: Target) returns (fate: Fate)
      requires Valid() && temp in temps
      modifies this
      ensures Valid()
      ensures faults == old(faults) + if fate.Done? then 0 else 1
      ensures fate.Failed? ==> unchanged(`primary, `backup, `temps, `primaries, `backups)
      ensures !fate.Failed? ==> temps == old(temps) - {temp}
      ensures target.Primary? && !fate.Failed? ==>
        && View() == old(View()).(primaries := old(primaries) + {Some(old(temps)[temp])})
        && backup == old(backup)
        && (fate.Done? ==> primary == Some(old(temps)[temp]))
      ensures target.Backup? && !fate.Failed? ==>
        && View() == old(View()).(backups := old(backups) + {Some(old(temps)[temp])})
        && primary == old(primary)
        && (fate.Done? ==> backup == Some(old(temps)[temp]))
    {
      fate := Attempt();
      if fate.Failed? {
        return;
      }
      var bytes := temps[temp];
      match target {
        case Primary =>
          primaries := primaries + {Some(bytes)};
          primary := Some(bytes);
        case Backup =>
          backups := backups + {Some(bytes)};
          backup := Some(bytes);
      }
      temps := temps - {temp};
    }

    /** After a successful sync every earlier rename is durable. */
    method SyncParent() returns (fate: Fate)
      requires Valid()
      modifies `primaries, `backups, `faults
      ensures Valid()
      ensures faults == old(faults) + if fate.Done? then 0 else 1
      ensures View() == if fate.Done? then Disk({primary}, {backup}) else old(View())
    {
      fate := Attempt();
      if fate.Done? {
        primaries, backups := {primary}, {backup};
      }
    }

    method RemovePrimary() returns (fate: Fate)
      requires Valid()
      modifies this
      ensures Valid() && backup == old(backup)
      ensures faults == old(faults) + if fate.Done? then 0 else 1
      ensures fate.Failed? ==> unchanged(`primary, `backup, `temps, `primaries, `backups)
      ensures !fate.Failed? ==> primary == None && View() == old(View()).(primaries := old(primaries) + {None})
    {
      fate := Attempt();
      if !fate.Failed? {
        primary := None;
        primaries := primaries + {None};
      }
    }

    method RemoveTemp(temp: Temp)
      modifies `temps
    {
      temps := temps - {temp};
    }
  }

  // ---------- saving ----------

  /**
   How `save` ends: the snapshot is durable; an error with the old primary in place; an error
   whose rollback failed, which may leave the new snapshot; or a crash on the way.
   */
  datatype Saved = Stored | Refused | Stranded | Lost

  /** Which contents a save may leave under the two names: the new snapshot, and old primaries as backups. */
  ghost predicate Reuses(env: Env, before: Disk, after: Disk, written: set<File>) {
    && after.primaries <= before.primaries + written
    && forall b :: b in after.backups ==> b in before.backups || (b in before.primaries && DecodeFile(env, b).Some?)
  }

  /**
   What a save makes of the files and of the outcomes a later load may have; the new world is
   among those if it can be read back.
   */
  ghost predicate Saves(env: Env, before: Disk, w: World, saved: Saved, after: Disk) {
    && Reuses(env, before, after, if Savable(env, w) then {Some(Encode(env, w))} else {})
    && (saved.Stored? ==> Savable(env, w) && after.primaries == {Some(Encode(env, w))} && |after.backups| == 1)
    && (saved.Refused? || !Savable(env, w) ==> Within(env, after, before, {}))
    && (Savable(env, w) && Readable(env, w) ==> Within(env, after, before, {Some(Fresh(w))}))
    && (saved.Stored? && Readable(env, w) ==> forall r :: MayLoad(env, after, r) <==> r == Some(Fresh(w)))
  }

  datatype Loaded = Found(snapshot: Decoded) | Unreadable | Interrupted

  class SnapshotStore {
    const env: Env
    const dir: Directory

    constructor (env: Env, dir: Directory)
      ensures this.env == env && this.dir == dir
    {
      this.env, this.dir := env, dir;
    }

    /** Put the previous primary back, or remove the one that was created. */
    method RollbackPrimary(previous: File) returns (fate: Fate)
      requires dir.Valid() && previous in dir.primaries
      modifies dir
      ensures dir.Valid() && dir.backup == old(dir.backup)
      ensures dir.View().primaries <= old(dir.primaries) && dir.View().backups <= old(dir.backups)
      ensures fate.Done? ==> dir.primary == previous && dir.View().primaries == {previous}
      ensures dir.faults >= old(dir.faults)
    {
      match previous
      case Some(bytes) =>
        fate := dir.WriteSynced(RollbackTemp, bytes);
        if fate.Done? {
          fate := dir.Rename(RollbackTemp, Primary);
        }
        if fate.Done? {
          fate := dir.SyncParent();
        }
        if fate.Failed? {
          dir.RemoveTemp(RollbackTemp);
        }
      case None =>
        if dir.primary.Some? {
          fate := dir.RemovePrimary();
          if !fate.Done? {
            return;
          }
        }
        fate := dir.SyncParent();
    }

    /**
     The backup stage: a primary that decodes is copied over the backup and made durable
     there. When the primary cannot be read, the stage is skipped and the old backup stays.
     */
    method BackUpPrimary() returns (fate: Fate)
      requires dir.Valid()
      modifies dir
      ensures dir.Valid() && dir.primary == old(dir.primary) && dir.primaries <= old(dir.primaries)
      ensures Within(env, dir.View(), old(dir.View()), {}) && Reuses(env, old(dir.View()), dir.View(), {})
      ensures fate.Done? ==>
        var copied := DecodeFile(env, old(dir.primary)).Some? && dir.faults == old(dir.faults);
        dir.backup == if copied then old(dir.primary) else old(dir.backup)
      ensures BackupsDecode(env, old(dir.View())) ==> BackupsDecode(env, dir.View())
      ensures dir.faults >= old(dir.faults) && (!fate.Done? ==> dir.faults > old(dir.faults))
      ensures forall t :: t != BackupTemp && t in old(dir.temps) ==> t in dir.temps && dir.temps[t] == old(dir.temps[t])
    {
      hide Decode;
      ghost var before := dir.View();
      FewerOutcomes(env, before, before);
      if dir.primary.None? {
        return Done;
      }
      var bytes := dir.primary.value;
      fate := dir.Attempt();
      var decoded := DecodeContent(env, bytes);
      if fate.Crashed? {
        return;
      }
      if fate.Failed? || decoded.None? {
        return Done;
      }
      fate := dir.Attempt();
      if !fate.Done? {
        return;
      }
      fate := dir.WriteSynced(BackupTemp, bytes);
      if !fate.Done? {
        return;
      }
      fate := dir.Rename(BackupTemp, Backup);
      BackupCopied(env, before, bytes);
      if !fate.Done? {
        return;
      }
      fate := dir.SyncParent();
      FewerOutcomes(env, before.(backups := before.backups + {Some(bytes)}), dir.View());
      WithinTransitive(env, before, before.(backups := before.backups + {Some(bytes)}), dir.View(), {});
    }

    /** Replace the primary, and roll it back when its directory entry cannot be synced. */
    method ReplacePrimary(bytes: Content, previous: File) returns (saved: Saved)
      requires dir.Valid() && dir.primary == previous && SaveTemp in dir.temps && dir.temps[SaveTemp] == bytes
      modifies dir
      ensures dir.Valid()
      ensures dir.backups <= old(dir.backups)
      ensures dir.primaries <= old(dir.primaries) + {Some(bytes)}
      ensures saved.Stored? ==> dir.primary == Some(bytes) && dir.View() == Disk({Some(bytes)}, {dir.backup})
      ensures saved.Stored? ==> dir.backup == old(dir.backup) && dir.faults == old(dir.faults)
      ensures saved.Refused? ==> dir.primary == previous && dir.primaries <= old(dir.primaries)
      ensures dir.faults >= old(dir.faults) && (!saved.Stored? ==> dir.faults > old(dir.faults))
    {
      var fate := dir.Rename(SaveTemp, Primary);
      match fate {
        case Failed => return Refused;
        case Crashed => return Lost;
        case Done =>
      }
      fate := dir.SyncParent();
      match fate {
        case Done => return Stored;
        case Crashed => return Lost;
        case Failed =>
      }
      fate := RollbackPrimary(previous);
      match fate {
        case Done => return Refused;
        case Failed => return Stranded;
        case Crashed => return Lost;
      }
    }

    /**
     `save`. However it ends, a later load finds a world it could already have found, or, if
     that can be read back, the new one; after `Stored` only the new one, with the previous
     primary as the backup if it could be read and decoded, else the old backup; after an
     error without a failed rollback the primary file is the previous one and no outcome is
     new.
     */
    method Save(w: World) returns (saved: Saved)
      requires dir.Valid()
      modifies dir
      ensures dir.Valid()
      ensures Saves(env, old(dir.View()), w, saved, dir.View())
      ensures saved.Stored? ==> dir.View() == Disk({Some(Encode(env, w))}, {dir.backup})
      ensures saved.Stored? ==>
        var copied := DecodeFile(env, old(dir.primary)).Some? && dir.faults == old(dir.faults);
        dir.backup == if copied then old(dir.primary) else old(dir.backup)
      ensures saved.Refused? ==> dir.primary == old(dir.primary) && dir.primaries <= old(dir.primaries)
      ensures BackupsDecode(env, old(dir.View())) ==> BackupsDecode(env, dir.View())
      ensures !Savable(env, w) ==> saved.Refused? || saved.Lost?
      ensures dir.faults >= old(dir.faults)
      ensures !saved.Stored? ==> !Savable(env, w) || dir.faults > old(dir.faults)
    {
      hide Model.Valid, Decode, Root, OldInventory, Readable, Encode;
      ghost var before := dir.View();
      FewerOutcomes(env, before, before);
      var valid := Validate(w, env.blake3);
      if !valid {
        return Refused;
      }
      var fate := dir.Attempt();
      if !fate.Done? {
        return if fate.Failed? then Refused else Lost;
      }
      var previous := dir.primary;
      if OldInventory(w) {
        return Refused;
      }
      var bytes := Encode(env, w);
      SavedDecodes(env, w);
      fate := dir.WriteSynced(SaveTemp, bytes);
      if fate.Done? {
        fate := BackUpPrimary();
      }
      if !fate.Done? {
        if fate.Failed? {
          dir.RemoveTemp(SaveTemp);
          dir.RemoveTemp(BackupTemp);
        }
        return if fate.Failed? then Refused else Lost;
      }
      ghost var backed := dir.View();
      saved := ReplacePrimary(bytes, previous);
      SaveOutcome(env, before, backed, dir.View(), bytes);
      if saved.Stored? && Readable(env, w) {
        forall r
          ensures MayLoad(env, dir.View(), r) <==> r == Some(Fresh(w))
        {
          PrimaryDurable(env, dir.backups, bytes, r);
        }
      }
      if saved.Refused? || saved.Stranded? {
        dir.RemoveTemp(SaveTemp);
        dir.RemoveTemp(BackupTemp);
      }
    }

    // ---------- loading ----------

    /** Copies the backup over the primary, through a synced temporary file. */
    method RestorePrimary() returns (fate: Fate)
      requires dir.Valid() && dir.backup.Some?
      modifies dir
      ensures dir.Valid() && dir.backup == old(dir.backup) && dir.backups <= old(dir.backups)
      ensures dir.primaries <= old(dir.primaries) + {dir.backup}
      ensures fate.Done? ==> dir.primary == dir.backup && dir.View() == Disk({dir.backup}, {dir.backup})
      ensures dir.faults >= old(dir.faults) && (!fate.Done? ==> dir.faults > old(dir.faults))
    {
      var bytes := dir.backup.value;
      fate := dir.Attempt();
      if fate.Done? {
        fate := dir.WriteSynced(RestoreTemp, bytes);
      }
      if fate.Done? {
        fate := dir.Rename(RestoreTemp, Primary);
      }
      if fate.Done? {
        fate := dir.SyncParent();
      }
      if fate.Failed? {
        dir.RemoveTemp(RestoreTemp);
      }
    }

    /** Decode the backup and put it in the primary's place. */
    method LoadBackup() returns (loaded: Loaded)
      requires dir.Valid() && dir.backup.Some?
      modifies dir
      ensures dir.Valid() && dir.backup == old(dir.backup)
      ensures loaded.Found? ==> DecodeFile(env, dir.backup) == Some(loaded.snapshot) && dir.primary == dir.backup
      ensures loaded.Found? ==> dir.View() == Disk({dir.backup}, {dir.backup})
      ensures Within(env, dir.View(), old(dir.View()), {DecodeFile(env, dir.backup)})
      ensures dir.primaries <= old(dir.primaries) + {dir.backup} && dir.backups <= old(dir.backups)
      ensures DecodeFile(env, dir.backup).None? ==> dir.View() == old(dir.View())
      ensures dir.faults >= old(dir.faults)
      ensures !loaded.Found? ==> DecodeFile(env, dir.backup).None? || dir.faults > old(dir.faults)
    {
      hide Decode;
      ghost var before := dir.View();
      FewerOutcomes(env, before, before);
      var fate := dir.Attempt();
      var decoded := DecodeContent(env, dir.backup.value);
      if fate.Crashed? {
        return Interrupted;
      }
      if fate.Failed? || decoded.None? {
        return Unreadable;
      }
      fate := RestorePrimary();
      ghost var wider := before.(primaries := before.primaries + {dir.backup});
      PrimaryReplaced(env, before, dir.backup.value);
      FewerOutcomes(env, wider, dir.View());
      match fate {
        case Done => return Found(decoded.value);
        case Failed => return Unreadable;
        case Crashed => return Interrupted;
      }
    }

    /**
     `load_with_status`. As long as the primary can be read, a load returns what the files
     say and no step of it, interrupted or not, makes another outcome possible. A failed
     read of a good primary falls back to the backup and overwrites the primary.
     */
    method LoadWithStatus() returns (loaded: Loaded, readable: bool)
      requires dir.Valid()
      modifies dir
      ensures dir.Valid()
      ensures loaded.Found? ==>
        Some(loaded.snapshot) ==
          if readable then Loads(env, old(dir.primary), old(dir.backup)) else DecodeFile(env, old(dir.backup))
      ensures loaded.Found? && readable ==> MayLoad(env, old(dir.View()), Some(loaded.snapshot))
      ensures loaded.Found? && (old(dir.primary).Some? || old(dir.backup).Some?) ==>
        (readable && RecordedIn(env, old(dir.primary), loaded.snapshot))
        || RecordedIn(env, old(dir.backup), loaded.snapshot)
      ensures Within(env, dir.View(), old(dir.View()), if readable then {} else {DecodeFile(env, old(dir.backup))})
      ensures dir.primaries <= old(dir.primaries) + {old(dir.backup)} && dir.backups <= old(dir.backups)
      ensures !readable && DecodeFile(env, old(dir.backup)).None? ==> dir.View() == old(dir.View())
      ensures !readable && loaded.Found? ==>
        dir.primary == old(dir.backup) && dir.View() == Disk({old(dir.backup)}, {old(dir.backup)})
      ensures loaded.Found? && readable ==> Loads(env, dir.primary, dir.backup) == Some(loaded.snapshot)
      ensures dir.faults >= old(dir.faults) && (!readable ==> dir.faults > old(dir.faults))
      ensures dir.faults == old(dir.faults) ==> (loaded.Found? <==> Loads(env, old(dir.primary), old(dir.backup)).Some?)
    {
      hide Decode;
      ghost var before := dir.View();
      FewerOutcomes(env, before, before);
      assert MayLoad(env, before, Loads(env, dir.primary, dir.backup));
      DecodedIsRecorded(env, dir.primary);
      DecodedIsRecorded(env, dir.backup);
      if dir.primary.None? {
        readable := true;
        if dir.backup.None? {
          return Found(Decoded(Genesis(), None, [], false)), true;
        }
        loaded := LoadBackup();
        return;
      }
      var fate := dir.Attempt();
      if fate.Crashed? {
        return Interrupted, true;
      }
      readable := fate.Done?;
      var decoded := DecodeContent(env, dir.primary.value);
      if readable && decoded.Some? {
        return Found(decoded.value), true;
      }
      if dir.backup.None? {
        return Unreadable, readable;
      }
      loaded := LoadBackup();
    }
  }

  /** The outcomes of the last stage, through the backup stage before it. */
  lemma SaveOutcome(env: Env, before: Disk, backed: Disk, after: Disk, bytes: Content)
    requires Within(env, backed, before, {})
    requires after.backups <= backed.backups && after.primaries <= backed.primaries + {Some(bytes)}
    ensures Decode(env, bytes).Some? ==> Within(env, after, before, {Decode(env, bytes)})
    ensures after.primaries <= backed.primaries ==> Within(env, after, before, {})
  {
    hide Decode;
    var wider := backed.(primaries := backed.primaries + {Some(bytes)});
    if Decode(env, bytes).Some? {
      PrimaryReplaced(env, backed, bytes);
      FewerOutcomes(env, wider, after);
    }
    if after.primaries <= backed.primaries {
      FewerOutcomes(env, backed, after);
    }
  }
}
