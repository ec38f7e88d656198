/**
 Data that is validated, saved and acknowledged, and can never be read again: the limit that
 serde_json puts on nesting when it reads a snapshot does not hold when one is written.
 */
module DeepData {
  import opened Common
  import opened Text
  import opened Json
  import opened Model
  import opened HostOps
  import opened Execution
  import opened History
  import opened HostValidity
  import opened CommitValidity
  import opened Snapshots
  import opened Storage
  import opened Service

  /** A table in a table, so many levels down to a string: there are values of every depth. */
  function Tables(levels: nat): Json {
    if levels == 0 then Str("") else Arr([Tables(levels - 1)])
  }

  lemma {:induction false} TablesNest(n: nat, levels: nat)
    ensures NestsWithin(Tables(n), levels) <==> n <= levels
    decreases n
  {
    if n == 0 || levels == 0 {
    } else {
      TablesNest(n - 1, levels - 1);
      assert Tables(n).items[0] == Tables(n - 1);
    }
  }

  // ---------- the events of a command ----------

  ghost predicate ShallowEvents(events: seq<Event>) {
    forall i :: 0 <= i < |events| ==> NestsWithin(events[i].data, MAX_NESTING - 4)
  }

  lemma AppendShallow(w: World, kind: string, entityId: Option<nat>, data: Json)
    requires ShallowEvents(w.events) && NestsWithin(data, 1)
    ensures ShallowEvents(Append(w, kind, entityId, data).events)
  {
    NestsMore(data, 1, MAX_NESTING - 4);
  }

  lemma {:induction false} NestsMore(v: Json, levels: nat, more: nat)
    requires NestsWithin(v, levels) && levels <= more
    ensures NestsWithin(v, more)
    decreases v
  {
    match v
    case Arr(items) =>
      forall i | 0 <= i < |items|
        ensures NestsWithin(items[i], more - 1)
      {
        NestsMore(items[i], levels - 1, more - 1);
      }
    case Obj(fields) =>
      forall k | k in fields
        ensures NestsWithin(fields[k], more - 1)
      {
        NestsMore(fields[k], levels - 1, more - 1);
      }
    case _ =>
  }

  lemma {:induction false} LogEntitiesShallow(before: World, after: World, ids: seq<nat>)
    requires ShallowEvents(after.events)
    ensures ShallowEvents(LogEntities(before, after, ids).events)
    decreases |ids|
  {
    hide ShallowEvents, Append;
    if ids == [] {
    } else {
      AppendShallow(after, ENTITY_CHANGED, Some(ids[0]), Obj(map["change" := Str(ChangeName(before, after, ids[0]))]));
      LogEntitiesShallow(before, LogEntity(before, after, ids[0]), ids[1..]);
    }
  }

  lemma {:induction false} LogProgressShallow(after: World, keys: seq<string>)
    requires ShallowEvents(after.events)
    ensures ShallowEvents(LogProgress(after, keys).events)
    decreases |keys|
  {
    hide ShallowEvents, Append;
    if keys == [] {
    } else {
      if keys[0] in after.progress {
        var p := after.progress[keys[0]];
        AppendShallow(after, PROGRESS_CHANGED, Some(p.actorId),
                      Obj(map["quest_id" := Str(p.questId), "status" := Str(StatusName(p.status))]));
      }
      LogProgressShallow(LogProgressEntry(after, keys[0]), keys[1..]);
    }
  }

  /** What a command appends nests one level. */
  lemma ConcludeShallow(before: World, scripted: World, id: nat, action: string)
    requires ShallowEvents(scripted.events)
    ensures ShallowEvents(Conclude(before, scripted, id, action).events)
  {
    hide ShallowEvents, LogEntities, LogProgress, ChangedIds, ChangedProgress, AscendingIds, SortedKeys, Append;
    var h, e, p := Headed(scripted), EntitiesLogged(before, scripted), ProgressLogged(before, scripted);
    LogEntitiesShallow(before, h, AscendingIds(ChangedIds(before, h)));
    LogProgressShallow(e, SortedKeys(ChangedProgress(before, e)));
    AppendShallow(p, COMMAND_EXECUTED, Some(id), Obj(map["action" := Str(action)]));
  }

  // ---------- the request ----------

  /** The request's script puts one value into its own entity's data and finishes. */
  ghost predicate Stores(env: Env, w: World, id: nat, action: string, args: Json, key: string, value: Json) {
    && ContractSource(w, id).Some?
    && match env.script(w, id, ContractSource(w, id).value, action, args)
       case Failed => false
       case Finished(calls, messages, result) =>
         calls == [CallUpdateEntityData(id, key, value)] && result.Some?
  }

  /** The world after such a request's script. */
  function Edited(w: World, id: nat, key: string, value: Json): World {
    UpdateEntityData(w, id, id, key, value).world
  }

  lemma StoresBehaves(env: Env, w: World, id: nat, action: string, args: Json, key: string, value: Json)
    requires Stores(env, w, id, action, args, key, value) && key != "inventory"
    ensures Behaves(env, w, id, action, args) && LeavesNoMark(env, w, id, action, args)
    ensures Execute(env, w, id, action, args, true).world == Conclude(w, Edited(w, id, key, value), id, action)
  {
    hide Conclude, Root, PerformAll, ScriptMarks, Edited;
    EditRuns(w, id, key, value);
  }

  lemma EditRuns(w: World, id: nat, key: string, value: Json)
    requires key != "inventory"
    ensures PerformAll(w, id, [CallUpdateEntityData(id, key, value)]) == Edited(w, id, key, value)
    ensures !ScriptMarks(w, id, [CallUpdateEntityData(id, key, value)])
  {
    hide UpdateEntityData;
    var calls := [CallUpdateEntityData(id, key, value)];
    assert calls[1..] == [];
    assert Perform(w, id, calls[0]).world == Edited(w, id, key, value) && !MarksActor(w, id, calls[0]);
  }

  /** Editing one entity's data keeps a world shallow exactly if the value is. */
  lemma EditShallowIff(w: World, after: World, id: nat, key: string, value: Json)
    requires Shallow(w, 1) && id in w.entities && after.entities == Edited(w, id, key, value).entities
    requires ShallowEvents(after.events) && after.receipts == w.receipts
    ensures Shallow(after, 1) <==> NestsWithin(value, MAX_NESTING - 5)
  {
    hide NestsWithin;
    var e := after.entities[id];
    assert e.data[key] == value;
    forall k | k in e.data && k != key
      ensures NestsWithin(e.data[k], MAX_NESTING - 5)
    {
      assert DataNests(w.entities[id], MAX_NESTING - 5);
    }
    forall other | other in after.entities && other != id
      ensures DataNests(after.entities[other], MAX_NESTING - 5)
    {
      assert after.entities[other] == w.entities[other];
    }
    if NestsWithin(value, MAX_NESTING - 5) {
      assert DataNests(e, MAX_NESTING - 5);
    } else {
      assert !DataNests(e, MAX_NESTING - 5);
    }
  }

  /**
   Whatever value an actor stores in its own data, the write passes validation and save. The
   file it is saved in can be parsed exactly if the value nests at most 122 levels; if it
   nests deeper, that file never decodes.
   */
  lemma StoredDataParsesIff(env: Env, w: World, id: nat, action: string, args: Json, key: string, value: Json)
    requires Valid(w, env.blake3) && !OldInventory(w) && IsA(w.entities, id, Actor) && action != ""
    requires Stores(env, w, id, action, args, key, value) && key != "inventory" && Shallow(w, 1)
    ensures var done := Mutate(env, w, CommandWrite(id, action, args));
      && done.receipt.Some? && Savable(env, done.world)
      && (Shallow(done.world, 1) <==> NestsWithin(value, 122))
      && (!NestsWithin(value, 122) ==> DecodeFile(env, Some(Encode(env, done.world))).None?)
  {
    hide Valid, Execute, OldInventory, Behaves, LeavesNoMark, Stores, Conclude, Shallow, NestsWithin, ShallowEvents,
      Edited, Decode, Encode;
    StoresBehaves(env, w, id, action, args, key, value);
    SafeCommandCommits(env, w, id, action, args);
    EditKeeps(w, id, key, value);
    var scripted, after := Edited(w, id, key, value), Mutate(env, w, CommandWrite(id, action, args)).world;
    ConcludeGrows(w, scripted, id, action);
    ConcludeShallow(w, scripted, id, action);
    EditShallowIff(w, after, id, key, value);
    if !NestsWithin(value, 122) {
      TooDeepNeverDecodes(env, after);
    }
  }

  lemma EditKeeps(w: World, id: nat, key: string, value: Json)
    requires Shallow(w, 1)
    ensures ShallowEvents(w.events) && Edited(w, id, key, value).events == w.events
    ensures Edited(w, id, key, value).receipts == w.receipts
  {
    hide NestsWithin;
  }

  /** So a stored write of deeper data is one of those that are lost. */
  lemma DeepWriteIsUnread(
    env: Env, n: Node, id: nat, action: string, args: Json, key: string, value: Json, n': Node)
    requires Valid(n.world, env.blake3) && !OldInventory(n.world) && IsA(n.world.entities, id, Actor) && action != ""
    requires Stores(env, n.world, id, action, args, key, value) && key != "inventory" && Shallow(n.world, 1)
    requires !NestsWithin(value, 122)
    requires Writes(env, n, CommandWrite(id, action, args), Stored, n')
    ensures WritesUnread(env, n, n')
  {
    hide Valid, Mutate, OldInventory, Stores, Shallow, NestsWithin, Decode, Encode, Saves;
    StoredDataParsesIff(env, n.world, id, action, args, key, value);
  }
}
