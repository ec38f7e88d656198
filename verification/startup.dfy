/** `load_world` (src/main.rs) without demo mode: load, migrate, validate, save; and its idempotence under crashes. */
module Startup {
  import opened Common
  import opened Json
  import opened QuestGraph
  import opened Model
  import opened Validation
  import opened Execution
  import opened Runtime
  import opened Migration
  import opened Snapshots
  import opened Storage

  datatype Started = Running(world: World) | StartFailed | StartCrashed

  /** The world a start without faults reaches from what its load finds. */
  ghost function Booted(env: Env, found: Option<Decoded>): Option<World> {
    match found
    case None => None
    case Some(d) =>
      match Migrate(d.world)
      case Rejected => None
      case Migrated(w, changed) =>
        if Valid(w, env.blake3) then Some(w) else None
  }

  lemma OldInventoryIsLegacy(w: World)
    ensures OldInventory(w) <==> LegacyActors(w) != {}
  {
    if OldInventory(w) {
      var k :| k in w.entities && w.entities[k].kind == Actor && "inventory" in w.entities[k].data;
      assert k in LegacyActors(w);
    }
  }

  /** A world without legacy lists is left alone. */
  lemma NothingToMigrate(w: World)
    requires LegacyActors(w) == {}
    ensures Migrate(w) == Migrated(w, false)
  {
    forall a
      ensures !LegacyActor(w, a)
    {
      assert a !in LegacyActors(w);
    }
  }

  lemma BootedHasNoLists(env: Env, found: Option<Decoded>)
    requires Booted(env, found).Some?
    ensures !OldInventory(Booted(env, found).value)
  {
    hide Valid, OldInventory;
    MigratingTwice(found.value.world);
    OldInventoryIsLegacy(Booted(env, found).value);
  }

  /** A start that finds the world a start saved reaches that world. */
  lemma BootedIsStable(env: Env, found: Option<Decoded>)
    requires Booted(env, found).Some?
    ensures Booted(env, Some(Fresh(Booted(env, found).value))) == Booted(env, found)
  {
    hide Valid, OldInventory, Migrate;
    var w := Booted(env, found).value;
    BootedHasNoLists(env, found);
    OldInventoryIsLegacy(w);
    NothingToMigrate(w);
  }

  /** What a start loads: with a readable primary what the files say, else the backup. */
  ghost function Goal(env: Env, primary: File, backup: File, readable: bool): Option<Decoded> {
    if readable then Loads(env, primary, backup) else DecodeFile(env, backup)
  }

  /** Every load that the disk `after` allows was possible before, or finds what this start loaded or saved. */
  ghost predicate Resumes(env: Env, before: Disk, after: Disk, goal: Option<Decoded>) {
    forall r :: MayLoad(env, after, r) ==>
      || MayLoad(env, before, r)
      || (goal.Some? && r == goal)
      || (Booted(env, goal).Some? && r == Some(Fresh(Booted(env, goal).value)))
  }

  /** What a start loads has to be written anew. */
  ghost predicate Rewrites(goal: Option<Decoded>) {
    goal.Some? &&
    (goal.value.needsRewrite || (Migrate(goal.value.world).Migrated? && Migrate(goal.value.world).changed))
  }

  /** If a start has to write its world, that world can be read back. */
  ghost predicate GoalReads(env: Env, goal: Option<Decoded>) {
    Booted(env, goal).Some? && Rewrites(goal) ==> Readable(env, Booted(env, goal).value)
  }

  /** The new snapshot of a start, if it has one to write. */
  ghost function Written(env: Env, goal: Option<Decoded>): set<File> {
    if Booted(env, goal).Some? && Rewrites(goal) then {Some(Encode(env, Booted(env, goal).value))} else {}
  }

  /** What a start may leave: the two files it found and its own snapshot; as backup the old one, or a good primary. */
  ghost predicate Leaves(env: Env, primary: File, backup: File, after: Disk, goal: Option<Decoded>) {
    && after.primaries <= {primary, backup} + Written(env, goal)
    && after.backups != {}
    && forall b :: b in after.backups ==> b == backup || (b == primary && DecodeFile(env, primary).Some?)
  }

  /** A running server's disk: every load finds its world, in the current format and without legacy lists. */
  ghost predicate Settled(env: Env, disk: Disk, w: World) {
    && Valid(w, env.blake3) && LegacyActors(w) == {}
    && forall r :: MayLoad(env, disk, r) ==> r.Some? && !r.value.needsRewrite && r.value.world == w
  }

  /** Decoded worlds passed the reference checks, so entities know their keys. */
  lemma DecodedIds(env: Env, c: Content)
    requires Decode(env, c).Some?
    ensures forall k :: k in Decode(env, c).value.world.entities ==> Decode(env, c).value.world.entities[k].id == k
  {
    hide QuestsOk, InventoriesOk, EventsOk, LocationsOk, ContractsOk, AccountsOk, ReceiptsOk, ProgressOk, OldInventory;
  }

  lemma LoadedIds(env: Env, primary: File, backup: File, d: Decoded)
    requires Loads(env, primary, backup) == Some(d) || DecodeFile(env, backup) == Some(d)
    ensures forall k :: k in d.world.entities ==> d.world.entities[k].id == k
  {
    hide Decode;
    if primary.Some? && Decode(env, primary.value) == Some(d) {
      DecodedIds(env, primary.value);
    } else if backup.Some? && Decode(env, backup.value) == Some(d) {
      DecodedIds(env, backup.value);
    }
  }

  /** A load, then a save of what it boots to. */
  lemma SaveResumes(
    env: Env, primary: File, backup: File, loaded: Disk, w: World, saved: Saved, after: Disk, goal: Option<Decoded>)
    requires Within(env, loaded, Disk({primary}, {backup}), {goal}) && goal.Some?
    requires loaded.primaries <= {primary, backup} && loaded.backups <= {backup}
    requires Saves(env, loaded, w, saved, after) && Booted(env, goal) == Some(w) && after.backups != {}
    requires Rewrites(goal)
    ensures Readable(env, w) ==> Resumes(env, Disk({primary}, {backup}), after, goal)
    ensures Leaves(env, primary, backup, after, goal)
  {
    hide Booted, Valid, OldInventory, MayLoad, Decode, Readable, Encode, Rewrites;
  }

  /** A load alone, which may have restored the backup. */
  lemma LoadResumes(env: Env, primary: File, backup: File, loaded: Disk, goal: Option<Decoded>)
    requires loaded.primaries <= {primary, backup} && loaded.backups <= {backup} && loaded.backups != {}
    requires Within(env, loaded, Disk({primary}, {backup}), if goal.Some? then {goal} else {})
    ensures Resumes(env, Disk({primary}, {backup}), loaded, goal) && Leaves(env, primary, backup, loaded, goal)
  {
    hide Booted, MayLoad, Decode;
  }

  lemma SavedSettles(env: Env, before: Disk, w: World, after: Disk)
    requires Saves(env, before, w, Stored, after) && Readable(env, w)
    ensures Settled(env, after, w)
  {
    hide Valid, OldInventory, MayLoad, Readable, Encode;
    OldInventoryIsLegacy(w);
  }

  /** A load that needs no rewrite leaves the files settled. */
  lemma LoadedSettles(env: Env, disk: Disk, after: Disk, d: Decoded)
    requires forall r :: MayLoad(env, disk, r) ==> r == Some(d)
    requires Within(env, after, disk, {})
    requires !d.needsRewrite && Migrate(d.world) == Migrated(d.world, false) && Valid(d.world, env.blake3)
    ensures Settled(env, after, d.world)
  {
    hide Valid, MayLoad;
    MigratingTwice(d.world);
  }

  /** Migration without a change returns the world itself. */
  lemma UnchangedMigration(w: World)
    ensures Migrate(w).Migrated? && !Migrate(w).changed ==> Migrate(w).world == w
  {
    hide Collectable, LocationsOk, InventoriesOk;
  }

  /**
   Starting the server, on files with nothing pending. A primary that can be read decides
   what the start loads; one that cannot is replaced by the backup. However and wherever the
   start is interrupted, every world a later one can find was there before, or is what this
   one loads or saves; once it runs, the files hold exactly its world; without faults it
   succeeds exactly when there is a world to reach. If it has to write a world that cannot
   be read back, of this only the files left and the world reached are certain.
   */
  method LoadWorld(store: SnapshotStore) returns (started: Started, readable: bool)
    requires store.dir.Valid() && store.dir.View() == Disk({store.dir.primary}, {store.dir.backup})
    modifies store.dir
    ensures store.dir.Valid()
    ensures var goal := Goal(store.env, old(store.dir.primary), old(store.dir.backup), readable);
      && (GoalReads(store.env, goal) ==> Resumes(store.env, old(store.dir.View()), store.dir.View(), goal))
      && Leaves(store.env, old(store.dir.primary), old(store.dir.backup), store.dir.View(), goal)
      && (started.Running? ==> Booted(store.env, goal) == Some(started.world))
      && (started.Running? && GoalReads(store.env, goal) ==> Settled(store.env, store.dir.View(), started.world))
      && (store.dir.faults == old(store.dir.faults) ==> (started.Running? <==> Booted(store.env, goal).Some?))
    ensures store.dir.faults >= old(store.dir.faults) && (!readable ==> store.dir.faults > old(store.dir.faults))
  {
    hide Model.Valid, Decode, Migrate, OldInventory, Settled, Resumes, Leaves, Readable;
    var env, dir := store.env, store.dir;
    ghost var before, p, b := dir.View(), dir.primary, dir.backup;
    var loaded;
    loaded, readable := store.LoadWithStatus();
    ghost var middle, goal := dir.View(), Goal(env, p, b, readable);
    FewerOutcomes(env, before, before);
    LoadResumes(env, p, b, middle, goal);
    if !loaded.Found? {
      return if loaded.Interrupted? then StartCrashed else StartFailed, readable;
    }
    var snapshot := loaded.snapshot;
    LoadedIds(env, p, b, snapshot);
    var state := new WorldState(snapshot.world);
    var migrated := MigrateLegacyInventories(state);
    if migrated.None? {
      return StartFailed, readable;
    }
    var w := state.View();
    var valid := Validate(w, env.blake3);
    if !valid {
      return StartFailed, readable;
    }
    if snapshot.needsRewrite || migrated.value {
      BootedHasNoLists(env, Some(snapshot));
      var saved := store.Save(w);
      SaveResumes(env, p, b, middle, w, saved, dir.View(), goal);
      match saved {
        case Stored =>
          if Readable(env, w) {
            SavedSettles(env, middle, w, dir.View());
          }
          return Running(w), readable;
        case Lost => return StartCrashed, readable;
        case _ => return StartFailed, readable;
      }
    }
    UnchangedMigration(snapshot.world);
    if readable {
      LoadedSettles(env, before, dir.View(), snapshot);
    } else {
      LoadedSettles(env, Disk({b}, {b}), dir.View(), snapshot);
    }
    return Running(w), readable;
  }

  // ---------- repeated starts ----------

  /** One start: from the files it finds to the files it, or its crash, leaves. */
  ghost predicate Attempt(env: Env, before: (File, File), after: (File, File), readable: bool) {
    var goal := Goal(env, before.0, before.1, readable);
    exists disk ::
      && (GoalReads(env, goal) ==> Resumes(env, Disk({before.0}, {before.1}), disk, goal))
      && Leaves(env, before.0, before.1, disk, goal)
      && after.0 in disk.primaries && after.1 in disk.backups
  }

  /** A world that a start reaches can be read back if that start saves it. */
  ghost predicate Reopens(env: Env, reached: Option<World>) {
    reached.Some? ==> Readable(env, reached.value)
  }

  /**
   Any number of starts, interrupted anywhere, lead to the world the first could reach, or
   to the one of the backup it found; to the former if no primary was unreadable.
   */
  lemma {:induction false} StartsConverge(env: Env, files: seq<(File, File)>, readable: seq<bool>, n: nat)
    requires n < |files| == |readable| + 1
    requires forall i :: 0 <= i < |readable| ==> Attempt(env, files[i], files[i + 1], readable[i])
    requires Reopens(env, Booted(env, Loads(env, files[0].0, files[0].1)))
    requires Reopens(env, Booted(env, DecodeFile(env, files[0].1)))
    ensures
      var first, backup := Booted(env, Loads(env, files[0].0, files[0].1)), Booted(env, DecodeFile(env, files[0].1));
      && Booted(env, Loads(env, files[n].0, files[n].1)) in {first, backup}
      && Booted(env, DecodeFile(env, files[n].1)) in {first, backup}
      && ((forall i :: 0 <= i < n ==> readable[i]) ==> Booted(env, Loads(env, files[n].0, files[n].1)) == first)
  {
    hide Booted, Loads, DecodeFile, Attempt, Reopens;
    if n == 0 {
    } else {
      StartsConverge(env, files, readable, n - 1);
      assert Attempt(env, files[n - 1], files[n], readable[n - 1]);
      AttemptKeeps(env, files[n - 1], files[n], readable[n - 1]);
    }
  }

  lemma AttemptKeeps(env: Env, before: (File, File), after: (File, File), readable: bool)
    requires Attempt(env, before, after, readable)
    requires Reopens(env, Booted(env, Loads(env, before.0, before.1)))
    requires Reopens(env, Booted(env, DecodeFile(env, before.1)))
    ensures var first, backup := Booted(env, Loads(env, before.0, before.1)), Booted(env, DecodeFile(env, before.1));
      && (readable ==> Booted(env, Loads(env, after.0, after.1)) == first)
      && Booted(env, Loads(env, after.0, after.1)) in {first, backup}
      && Booted(env, DecodeFile(env, after.1)) in {first, backup}
  {
    hide Booted, Decode, Resumes, Readable, Rewrites;
    var goal := Goal(env, before.0, before.1, readable);
    assert GoalReads(env, goal);
    var disk :| Resumes(env, Disk({before.0}, {before.1}), disk, goal) && Leaves(env, before.0, before.1, disk, goal)
      && after.0 in disk.primaries && after.1 in disk.backups;
    var r := Loads(env, after.0, after.1);
    assert MayLoad(env, disk, r);
    if Booted(env, goal).Some? {
      BootedIsStable(env, goal);
    }
    Resumed(env, before, disk, goal, r);
  }

  lemma Resumed(env: Env, before: (File, File), disk: Disk, goal: Option<Decoded>, r: Option<Decoded>)
    requires Resumes(env, Disk({before.0}, {before.1}), disk, goal) && MayLoad(env, disk, r)
    ensures r == Loads(env, before.0, before.1) || r == goal
      || (Booted(env, goal).Some? && r == Some(Fresh(Booted(env, goal).value)))
  {
    hide Booted, Loads;
  }
}
