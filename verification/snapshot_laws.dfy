/**
 What a load accepts and what it returns, version by version: which files decode, that no
 world is loaded against its recorded root, and which of two files is used.
 */
module SnapshotLaws {
  import opened Common
  import opened Json
  import opened Model
  import opened Execution
  import opened Formats
  import opened Snapshots

  /** The root a snapshot must record: the digest of the world without its receipts. */
  ghost predicate RootRecorded(env: Env, root: string, w: World) {
    root == env.digest(w.(receipts := map[]))
  }

  /** The old rules ask the same as the current ones but for givers and inventories where these are missing. */
  lemma LegacyMeans(w: World, missingGiver: bool, blake3: string -> string)
    ensures Valid(w, blake3) <==>
      LegacyValid(w, missingGiver, blake3) && QuestsOk(w.entities, w.quests) && InventoriesOk(w.entities, w.inventories)
    ensures LegacyValid(w, missingGiver, blake3) && !missingGiver ==> QuestsOk(w.entities, w.quests)
    ensures LegacyValid(w, missingGiver, blake3) && !OldInventory(w) ==> InventoriesOk(w.entities, w.inventories)
    ensures LegacyValid(w, false, blake3) ==> LegacyValid(w, true, blake3)
    ensures OldInventory(w) && missingGiver ==> (LegacyValid(w, missingGiver, blake3) <==>
      && AccountsOk(w.accounts) && ContractsOk(w.contracts, blake3)
      && EntitiesOk(w.accounts, w.contracts, w.entities, w.nextEntityId) && LocationsOk(w.entities)
      && ProgressOk(w.entities, w.quests, w.progress) && ReceiptsOk(w.accounts, w.receipts)
      && EventsOk(w.events, w.receipts, w.head, w.nextEventId))
  {
    hide AccountsOk, ContractsOk, EntitiesOk, ProgressOk, ReceiptsOk, EventsOk, LocationsOk, QuestsOk, InventoriesOk,
      OldInventory;
  }

  /** Exactly these files decode. */
  lemma DecodesIff(env: Env, c: Content)
    ensures Decode(env, c).Some? <==>
      match c
      case Garbage => false
      case Unversioned(w, gap) => Shallow(w, 0) && LegacyValid(w, gap, env.blake3)
      case Versioned(version, root, w, exact, gap) =>
        && Shallow(w, 1) && RootRecorded(env, root, w)
        && (version == 1 || version == 2)
        && (version == 1 ==> LegacyValid(w, gap, env.blake3))
        && (version == 2 ==> exact && !OldInventory(w) && Valid(w, env.blake3))
  {
    hide Valid, LegacyValid, Shallow, OldInventory;
    if c.Versioned? && c.version > 0 {
      RegisteredPaths(c.version);
    }
  }

  /** What decodes is the file's own world; it needs rewriting exactly if the file is not of the current format. */
  lemma DecodesTo(env: Env, c: Content)
    requires Decode(env, c).Some?
    ensures var d := Decode(env, c).value;
      match c
      case Garbage => false
      case Unversioned(w, gap) => d.world == w && d.format.None? && d.needsRewrite
      case Versioned(version, root, w, exact, gap) =>
        d.world == w && d.format == Some(version) && (d.needsRewrite <==> version == 1) && RootRecorded(env, root, w)
  {
    hide Valid, LegacyValid, Shallow, OldInventory;
    DecodesIff(env, c);
  }

  /** A primary whose recorded root is not its world's is as good as none that decodes. */
  lemma WrongRootFallsBack(env: Env, version: int, root: string, w: World, exact: bool, gap: bool, backup: File)
    requires !RootRecorded(env, root, w)
    ensures Loads(env, Some(Versioned(version, root, w, exact, gap)), backup) == DecodeFile(env, backup)
  {
    hide Valid, LegacyValid, Shallow, OldInventory;
    DecodesIff(env, Versioned(version, root, w, exact, gap));
  }

  /** The new world is loaded only from an empty directory; a primary that decodes is always preferred. */
  lemma LoadsMeans(env: Env, primary: File, backup: File)
    ensures primary.None? && backup.None? ==> Loads(env, primary, backup) == Some(Decoded(Genesis(), None, [], false))
    ensures primary.Some? && Decode(env, primary.value).Some? ==>
      Loads(env, primary, backup) == Decode(env, primary.value)
    ensures (primary.None? || Decode(env, primary.value).None?) && backup.Some? ==>
      Loads(env, primary, backup) == Decode(env, backup.value)
    ensures primary.Some? && Decode(env, primary.value).None? && backup.None? ==> Loads(env, primary, backup).None?
  {
    hide Decode;
  }

  /** Whatever is loaded was recorded with its root, unless the file is older than roots or the directory empty. */
  lemma LoadedRootMatches(env: Env, primary: File, backup: File, d: Decoded)
    requires Loads(env, primary, backup) == Some(d)
    ensures (primary.None? && backup.None?) || RecordedIn(env, primary, d) || RecordedIn(env, backup, d)
  {
    hide Decode;
    if primary.Some? && Decode(env, primary.value).Some? {
      DecodesTo(env, primary.value);
    } else if backup.Some? {
      DecodesTo(env, backup.value);
    }
  }
}
