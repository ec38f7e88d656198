/**
 Snapshot files (src/storage.rs): what a file decodes to, and which worlds a load may find
 on a disk whose last renames have not been synced.
 */
module Snapshots {
  import opened Common
  import opened Json
  import opened QuestGraph
  import opened Model
  import opened Validation
  import opened Execution
  import opened Formats

  const MAX_U32: nat := 0xFFFF_FFFF

  /**
   The bytes of a file, by what serde makes of them but for their nesting: nothing, a bare
   world, or an envelope. `missingGiver` says that some quest record lacks its giver field,
   and `exact` that every record has exactly the fields of the current format.
   */
  datatype Content =
    | Garbage
    | Unversioned(world: World, missingGiver: bool)
    | Versioned(version: int, root: string, world: World, exact: bool, missingGiver: bool)

  type File = Option<Content>

  datatype Decoded = Decoded(world: World, format: Option<nat>, migrations: Table, needsRewrite: bool)

  // ---------- what serde reads ----------

  /** serde_json refuses a text whose arrays and objects nest deeper. */
  const MAX_NESTING: nat := 127

  /** Arrays and objects nest at most so many levels. */
  predicate NestsWithin(v: Json, levels: nat)
    decreases v
  {
    match v
    case Arr(items) => levels > 0 && forall i :: 0 <= i < |items| ==> NestsWithin(items[i], levels - 1)
    case Obj(fields) => levels > 0 && forall k :: k in fields ==> NestsWithin(fields[k], levels - 1)
    case _ => true
  }

  /**
   The text of a world can be read. `outer` containers are around it: one in a snapshot. An
   entity's data is four levels inside the world, the data of events and results three.
   */
  predicate Shallow(w: World, outer: nat)
    requires outer <= 1
  {
    && (forall id :: id in w.entities ==> DataNests(w.entities[id], MAX_NESTING - 4 - outer))
    && (forall i :: 0 <= i < |w.events| ==> NestsWithin(w.events[i].data, MAX_NESTING - 3 - outer))
    && (forall id :: id in w.receipts ==> NestsWithin(w.receipts[id].result, MAX_NESTING - 3 - outer))
  }

  predicate DataNests(e: Entity, levels: nat) {
    forall k :: k in e.data ==> NestsWithin(e.data[k], levels)
  }

  /** What is read from the text of a value: floats may come back changed. */
  function RereadJson(env: Env, v: Json): Json
    decreases v
  {
    match v
    case Float(r) => Float(env.readFloat(r))
    case Arr(items) => Arr(seq(|items|, i requires 0 <= i < |items| => RereadJson(env, items[i])))
    case Obj(fields) => Obj(map k | k in fields :: RereadJson(env, fields[k]))
    case _ => v
  }

  function RereadEntity(env: Env, e: Entity): Entity {
    e.(data := map k | k in e.data :: RereadJson(env, e.data[k]))
  }

  function Reread(env: Env, w: World): World {
    w.(entities := map id | id in w.entities :: RereadEntity(env, w.entities[id]),
       receipts := map id | id in w.receipts ::
         w.receipts[id].(result := RereadJson(env, w.receipts[id].result)),
       events := seq(|w.events|, i requires 0 <= i < |w.events| =>
         w.events[i].(data := RereadJson(env, w.events[i].data))))
  }

  /** What a save writes of this world can be read, and reads as this world. */
  ghost predicate Readable(env: Env, w: World) {
    Shallow(w, 1) && Reread(env, w) == w
  }

  lemma {:induction false} RereadNests(env: Env, v: Json, levels: nat)
    ensures NestsWithin(RereadJson(env, v), levels) <==> NestsWithin(v, levels)
    decreases v
  {
    match v
    case Arr(items) =>
      if levels > 0 {
        forall i | 0 <= i < |items|
          ensures NestsWithin(RereadJson(env, v).items[i], levels - 1) <==> NestsWithin(items[i], levels - 1)
        {
          RereadNests(env, items[i], levels - 1);
        }
      }
    case Obj(fields) =>
      if levels > 0 {
        forall k | k in fields
          ensures NestsWithin(RereadJson(env, v).fields[k], levels - 1) <==> NestsWithin(fields[k], levels - 1)
        {
          RereadNests(env, fields[k], levels - 1);
        }
      }
    case _ =>
  }

  /** Reading changes no nesting. */
  lemma RereadShallow(env: Env, w: World)
    requires Shallow(Reread(env, w), 1)
    ensures Shallow(w, 1)
  {
    hide NestsWithin, RereadJson;
    var after := Reread(env, w);
    forall id | id in w.entities
      ensures DataNests(w.entities[id], MAX_NESTING - 5)
    {
      forall k | k in w.entities[id].data
        ensures NestsWithin(w.entities[id].data[k], MAX_NESTING - 5)
      {
        assert id in after.entities && DataNests(after.entities[id], MAX_NESTING - 5);
        assert k in after.entities[id].data;
        RereadNests(env, w.entities[id].data[k], MAX_NESTING - 5);
      }
    }
    forall i | 0 <= i < |w.events|
      ensures NestsWithin(w.events[i].data, MAX_NESTING - 4)
    {
      assert NestsWithin(after.events[i].data, MAX_NESTING - 4);
      RereadNests(env, w.events[i].data, MAX_NESTING - 4);
    }
    forall id | id in w.receipts
      ensures NestsWithin(w.receipts[id].result, MAX_NESTING - 4)
    {
      assert id in after.receipts && NestsWithin(after.receipts[id].result, MAX_NESTING - 4);
      RereadNests(env, w.receipts[id].result, MAX_NESTING - 4);
    }
  }

  /** A value without floats. */
  predicate Exact(v: Json)
    decreases v
  {
    match v
    case Float(r) => false
    case Arr(items) => forall i :: 0 <= i < |items| ==> Exact(items[i])
    case Obj(fields) => forall k :: k in fields ==> Exact(fields[k])
    case _ => true
  }

  predicate ExactWorld(w: World) {
    && (forall id, k :: id in w.entities && k in w.entities[id].data ==> Exact(w.entities[id].data[k]))
    && (forall i :: 0 <= i < |w.events| ==> Exact(w.events[i].data))
    && (forall id :: id in w.receipts ==> Exact(w.receipts[id].result))
  }

  lemma {:induction false} ExactRereads(env: Env, v: Json)
    requires Exact(v)
    ensures RereadJson(env, v) == v
    decreases v
  {
    match v
    case Arr(items) =>
      forall i | 0 <= i < |items|
        ensures RereadJson(env, items[i]) == items[i]
      {
        ExactRereads(env, items[i]);
      }
    case Obj(fields) =>
      forall k | k in fields
        ensures RereadJson(env, fields[k]) == fields[k]
      {
        ExactRereads(env, fields[k]);
      }
    case _ =>
  }

  /** Without floats only nesting matters. */
  lemma ExactIsReadable(env: Env, w: World)
    requires ExactWorld(w)
    ensures Readable(env, w) <==> Shallow(w, 1)
  {
    hide Exact, RereadJson, Shallow;
    forall id | id in w.entities
      ensures RereadEntity(env, w.entities[id]) == w.entities[id]
    {
      forall k | k in w.entities[id].data
        ensures RereadJson(env, w.entities[id].data[k]) == w.entities[id].data[k]
      {
        ExactRereads(env, w.entities[id].data[k]);
      }
    }
    forall i | 0 <= i < |w.events|
      ensures RereadJson(env, w.events[i].data) == w.events[i].data
    {
      ExactRereads(env, w.events[i].data);
    }
    forall id | id in w.receipts
      ensures RereadJson(env, w.receipts[id].result) == w.receipts[id].result
    {
      ExactRereads(env, w.receipts[id].result);
    }
    assert Reread(env, w).events == w.events;
  }

  // ---------- decoding ----------

  /** Actors that still carry an `inventory` list in their data. */
  predicate OldInventory(w: World) {
    exists k :: k in w.entities && w.entities[k].kind == Actor && "inventory" in w.entities[k].data
  }

  ghost predicate LegacyValid(w: World, missingGiver: bool, blake3: string -> string) {
    && AccountsOk(w.accounts)
    && ContractsOk(w.contracts, blake3)
    && EntitiesOk(w.accounts, w.contracts, w.entities, w.nextEntityId)
    && ProgressOk(w.entities, w.quests, w.progress)
    && ReceiptsOk(w.accounts, w.receipts)
    && EventsOk(w.events, w.receipts, w.head, w.nextEventId)
    && LocationsOk(w.entities)
    && (missingGiver || QuestsOk(w.entities, w.quests))
    && (OldInventory(w) || InventoriesOk(w.entities, w.inventories))
  }

  /** `decode`. */
  ghost function Decode(env: Env, c: Content): Option<Decoded> {
    match c
    case Garbage => None
    case Unversioned(w, gap) =>
      if Shallow(w, 0) && LegacyValid(w, gap, env.blake3) then Some(Decoded(w, None, [], true)) else None
    case Versioned(version, root, w, exact, gap) =>
      if !Shallow(w, 1) then None
      else if !(0 < version <= MAX_U32) || FormatPath(FORMAT_MIGRATIONS, version, CURRENT_FORMAT).None? then None
      else if version == CURRENT_FORMAT && (!exact || OldInventory(w)) then None
      else if root != Root(env, w) then None
      else if if version == LEGACY_FORMAT then !LegacyValid(w, gap, env.blake3) else !Valid(w, env.blake3) then None
      else
        Some(Decoded(w, Some(version), FormatPath(FORMAT_MIGRATIONS, version, CURRENT_FORMAT).value,
                     version != CURRENT_FORMAT))
  }

  method ValidateLegacy(w: World, missingGiver: bool, blake3: string -> string) returns (ok: bool)
    ensures ok <==> LegacyValid(w, missingGiver, blake3)
  {
    if !(AccountsOk(w.accounts) && ContractsOk(w.contracts, blake3)
         && EntitiesOk(w.accounts, w.contracts, w.entities, w.nextEntityId)
         && ProgressOk(w.entities, w.quests, w.progress) && ReceiptsOk(w.accounts, w.receipts)) {
      return false;
    }
    var events := ValidateEvents(w);
    if !events || !LocationsOk(w.entities) {
      return false;
    }
    if !missingGiver {
      var quests := ValidateQuests(w);
      if !quests {
        return false;
      }
    }
    if OldInventory(w) {
      return true;
    }
    ok := ValidateInventories(w.entities, w.inventories);
  }

  method DecodeContent(env: Env, c: Content) returns (decoded: Option<Decoded>)
    ensures decoded == Decode(env, c)
  {
    hide Valid, LegacyValid, OldInventory, Root, FormatPath, Shallow;
    match c
    case Garbage => return None;
    case Unversioned(w, gap) =>
      if !Shallow(w, 0) {
        return None;
      }
      var ok := ValidateLegacy(w, gap, env.blake3);
      return if ok then Some(Decoded(w, None, [], true)) else None;
    case Versioned(version, root, w, exact, gap) =>
      if !Shallow(w, 1) || !(0 < version <= MAX_U32) {
        return None;
      }
      var path := FindFormatPath(FORMAT_MIGRATIONS, version, CURRENT_FORMAT);
      if path.None? {
        return None;
      }
      if version == CURRENT_FORMAT && (!exact || OldInventory(w)) {
        return None;
      }
      if root != Root(env, w) {
        return None;
      }
      var ok;
      if version == LEGACY_FORMAT {
        ok := ValidateLegacy(w, gap, env.blake3);
      } else {
        ok := Validate(w, env.blake3);
      }
      return if ok then Some(Decoded(w, Some(version), path.value, version != CURRENT_FORMAT)) else None;
  }

  // ---------- what a save writes ----------

  ghost predicate Savable(env: Env, w: World) {
    Valid(w, env.blake3) && !OldInventory(w)
  }

  /** The root is that of the world in memory; the rest is what will be read. */
  function Encode(env: Env, w: World): Content {
    Versioned(CURRENT_FORMAT, Root(env, w), Reread(env, w), true, false)
  }

  /** What a load makes of a saved world. */
  function Fresh(w: World): Decoded {
    Decoded(w, Some(CURRENT_FORMAT), [], false)
  }

  /** What a save writes decodes to the world saved exactly if that world can be read back. */
  lemma SavedDecodes(env: Env, w: World)
    requires Savable(env, w)
    ensures Decode(env, Encode(env, w)) == Some(Fresh(w)) <==> Readable(env, w)
  {
    hide Valid, OldInventory, Shallow, Reread;
    RegisteredPaths(CURRENT_FORMAT);
  }

  /** Data nested too deep is written, and never read again. */
  lemma TooDeepNeverDecodes(env: Env, w: World)
    requires !Shallow(w, 1)
    ensures Decode(env, Encode(env, w)).None?
  {
    hide Shallow, Reread;
    if Shallow(Reread(env, w), 1) {
      RereadShallow(env, w);
    }
  }

  // ---------- what a load finds ----------

  ghost function DecodeFile(env: Env, f: File): Option<Decoded> {
    match f
    case None => None
    case Some(c) => Decode(env, c)
  }

  /** What a load returns for given files, if it can read them: the primary, else the backup, else a new world. */
  ghost function Loads(env: Env, primary: File, backup: File): Option<Decoded> {
    if primary.None? && backup.None? then Some(Decoded(Genesis(), None, [], false))
    else if DecodeFile(env, primary).Some? then DecodeFile(env, primary)
    else DecodeFile(env, backup)
  }

  /** The file holds this world, and a versioned one its root. */
  ghost predicate RecordedIn(env: Env, f: File, d: Decoded) {
    match f
    case Some(Versioned(version, root, w, exact, gap)) => w == d.world && root == Root(env, w)
    case Some(Unversioned(w, gap)) => w == d.world
    case _ => false
  }

  /** No world is decoded against the root recorded with it. */
  lemma DecodedIsRecorded(env: Env, f: File)
    ensures DecodeFile(env, f).Some? ==> RecordedIn(env, f, DecodeFile(env, f).value)
  {
    hide Valid, LegacyValid, Shallow, OldInventory;
  }

  /** The contents that each file may have after a crash. */
  datatype Disk = Disk(primaries: set<File>, backups: set<File>)

  ghost predicate MayLoad(env: Env, d: Disk, r: Option<Decoded>) {
    exists p, b :: p in d.primaries && b in d.backups && r == Loads(env, p, b)
  }

  /** Every load of `after` is one of `before`, or `extra`. */
  ghost predicate Within(env: Env, after: Disk, before: Disk, extra: set<Option<Decoded>>) {
    forall r :: MayLoad(env, after, r) ==> MayLoad(env, before, r) || r in extra
  }

  ghost predicate BackupsDecode(env: Env, d: Disk) {
    forall b :: b in d.backups ==> DecodeFile(env, b).Some?
  }

  lemma WithinTransitive(env: Env, a: Disk, b: Disk, c: Disk, extra: set<Option<Decoded>>)
    requires Within(env, b, a, extra) && Within(env, c, b, extra)
    ensures Within(env, c, a, extra)
  {
  }

  lemma FewerOutcomes(env: Env, before: Disk, after: Disk)
    requires after.primaries <= before.primaries && after.backups <= before.backups
    ensures Within(env, after, before, {})
  {
  }

  /** Copying a decodable primary to the backup loses nothing: it is used only where the primary itself was. */
  lemma BackupCopied(env: Env, d: Disk, c: Content)
    requires Some(c) in d.primaries && Decode(env, c).Some?
    ensures d.backups != {} ==> Within(env, d.(backups := d.backups + {Some(c)}), d, {})
  {
    hide Decode;
    var after := d.(backups := d.backups + {Some(c)});
    if d.backups != {} {
      var b0 :| b0 in d.backups;
      forall r | MayLoad(env, after, r)
        ensures MayLoad(env, d, r)
      {
        var p, b :| p in after.primaries && b in after.backups && r == Loads(env, p, b);
        if b !in d.backups {
          if DecodeFile(env, p).Some? {
            assert r == Loads(env, p, b0);
          } else {
            assert r == Loads(env, Some(c), b0);
          }
        }
      }
    }
  }

  /** Renaming a new snapshot over the primary adds its world and nothing else. */
  lemma PrimaryReplaced(env: Env, d: Disk, c: Content)
    requires Decode(env, c).Some?
    ensures Within(env, d.(primaries := d.primaries + {Some(c)}), d, {Decode(env, c)})
  {
    hide Decode;
  }

  /** Once the new primary is durable, a load finds exactly its world. */
  lemma PrimaryDurable(env: Env, backups: set<File>, c: Content, r: Option<Decoded>)
    requires Decode(env, c).Some? && backups != {}
    ensures MayLoad(env, Disk({Some(c)}, backups), r) <==> r == Decode(env, c)
  {
    hide Decode;
    var b :| b in backups;
    if r == Decode(env, c) {
      assert r == Loads(env, Some(c), b);
    }
  }
}
