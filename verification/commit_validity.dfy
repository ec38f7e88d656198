/**
 The change events a command appends never break a valid world, so what a command or
 transaction of an actor that keeps to the safe host calls leaves behind can be saved
 exactly when its action has a name and no actor's data has the legacy key `inventory`,
 which the schema check of a save refuses.
 */
module CommitValidity {
  import opened Common
  import opened Text
  import opened Json
  import opened QuestGraph
  import opened Model
  import opened HostOps
  import opened HostValidity
  import opened Execution
  import opened History
  import opened Receipts
  import opened Snapshots

  lemma AppendValidIff(w: World, kind: string, entityId: Option<nat>, data: Json, blake3: string -> string)
    requires Valid(w, blake3) && kind != TX_EXECUTED
    ensures Valid(Append(w, kind, entityId, data), blake3) <==>
      EventShapeOk(Event(w.nextEventId, w.head, kind, entityId, data), w.receipts)
  {
    hide EventShapeOk, AccountsOk, ContractsOk, EntitiesOk, ProgressOk, ReceiptsOk, LocationsOk, QuestsOk,
      InventoriesOk;
    LogAppend(w.events, Event(w.nextEventId, w.head, kind, entityId, data), w.receipts, w.head);
  }

  lemma LogEntityKeepsValid(before: World, after: World, id: nat, blake3: string -> string)
    requires Valid(after, blake3)
    ensures Valid(LogEntity(before, after, id), blake3)
  {
    hide Valid;
    var data := Obj(map["change" := Str(ChangeName(before, after, id))]);
    assert GetStr(data, "change") == Some(ChangeName(before, after, id));
    assert EventShapeOk(Event(after.nextEventId, after.head, ENTITY_CHANGED, Some(id), data), after.receipts);
    AppendValidIff(after, ENTITY_CHANGED, Some(id), data, blake3);
  }

  lemma {:induction false} LogEntitiesKeepsValid(before: World, after: World, ids: seq<nat>, blake3: string -> string)
    requires Valid(after, blake3)
    ensures Valid(LogEntities(before, after, ids), blake3)
    decreases |ids|
  {
    hide Valid, LogEntity;
    if ids == [] {
    } else {
      LogEntityKeepsValid(before, after, ids[0], blake3);
      LogEntitiesKeepsValid(before, LogEntity(before, after, ids[0]), ids[1..], blake3);
    }
  }

  /** Progress names an existing quest, whose id is not empty. */
  lemma ProgressNamesQuest(w: World, key: string, blake3: string -> string)
    requires Valid(w, blake3) && key in w.progress
    ensures w.progress[key].questId != ""
  {
    hide AccountsOk, ContractsOk, EntitiesOk, ReceiptsOk, EventsOk, LocationsOk, InventoriesOk, Listed, Acyclic;
    assert QuestOk(w.entities, w.quests, w.progress[key].questId);
  }

  lemma LogProgressEntryKeepsValid(after: World, key: string, blake3: string -> string)
    requires Valid(after, blake3)
    ensures Valid(LogProgressEntry(after, key), blake3)
  {
    hide Valid;
    if key in after.progress {
      var p := after.progress[key];
      var data := Obj(map["quest_id" := Str(p.questId), "status" := Str(StatusName(p.status))]);
      assert "quest_id"[0] != "status"[0];
      assert GetStr(data, "quest_id") == Some(p.questId) && GetStr(data, "status") == Some(StatusName(p.status));
      ProgressNamesQuest(after, key, blake3);
      var e := Event(after.nextEventId, after.head, PROGRESS_CHANGED, Some(p.actorId), data);
      assert EventShapeOk(e, after.receipts);
      AppendValidIff(after, PROGRESS_CHANGED, Some(p.actorId), data, blake3);
    }
  }

  lemma {:induction false} LogProgressKeepsValid(after: World, keys: seq<string>, blake3: string -> string)
    requires Valid(after, blake3)
    ensures Valid(LogProgress(after, keys), blake3)
    decreases |keys|
  {
    hide Valid, LogProgressEntry;
    if keys == [] {
    } else {
      LogProgressEntryKeepsValid(after, keys[0], blake3);
      LogProgressKeepsValid(LogProgressEntry(after, keys[0]), keys[1..], blake3);
    }
  }

  lemma HeadedKeepsValid(w: World, blake3: string -> string)
    requires Valid(w, blake3)
    ensures Valid(Headed(w), blake3)
  {
    hide AccountsOk, ContractsOk, EntitiesOk, ProgressOk, ReceiptsOk, LocationsOk, QuestsOk, InventoriesOk,
      EventShapeOk;
  }

  /** What a command appends to its script's valid world is valid unless the action has no name. */
  lemma ConcludeValidIff(before: World, scripted: World, id: nat, action: string, blake3: string -> string)
    requires Valid(scripted, blake3)
    ensures Valid(Conclude(before, scripted, id, action), blake3) <==> action != ""
  {
    hide Valid, Conclude, LogEntities, LogProgress, ChangedIds, ChangedProgress;
    var h := Headed(scripted);
    HeadedKeepsValid(scripted, blake3);
    LogEntitiesKeepsValid(before, h, AscendingIds(ChangedIds(before, h)), blake3);
    var e := EntitiesLogged(before, scripted);
    LogProgressKeepsValid(e, SortedKeys(ChangedProgress(before, e)), blake3);
    var p := ProgressLogged(before, scripted);
    var data := Obj(map["action" := Str(action)]);
    assert GetStr(data, "action") == Some(action);
    AppendValidIff(p, COMMAND_EXECUTED, Some(id), data, blake3);
    ConcludeEnds(before, scripted, id, action);
  }

  /** The script of an admissible request finished with a result and used only safe calls. */
  ghost predicate Behaves(env: Env, w: World, id: nat, action: string, args: Json) {
    && ContractSource(w, id).Some?
    && match env.script(w, id, ContractSource(w, id).value, action, args)
       case Failed => false
       case Finished(calls, messages, result) => result.Some? && forall i :: 0 <= i < |calls| ==> Safe(calls[i])
  }

  /** A `command_executed` event without an action name, which no valid world holds. */
  predicate Unnamed(e: Event) {
    e.kind == COMMAND_EXECUTED && GetStr(e.data, "action") == Some("")
  }

  ghost predicate HasUnnamed(events: seq<Event>) {
    exists i :: 0 <= i < |events| && Unnamed(events[i])
  }

  lemma UnnamedIsInvalid(w: World, blake3: string -> string)
    requires HasUnnamed(w.events)
    ensures !Valid(w, blake3)
  {
    hide AccountsOk, ContractsOk, EntitiesOk, ProgressOk, ReceiptsOk, LocationsOk, QuestsOk, InventoriesOk;
    var i :| 0 <= i < |w.events| && Unnamed(w.events[i]);
    assert !EventShapeOk(w.events[i], w.receipts);
  }

  lemma UnnamedIsLogged(before: World, scripted: World, id: nat)
    ensures HasUnnamed(Conclude(before, scripted, id, "").events)
  {
    hide Conclude, ProgressLogged;
    ConcludeEnds(before, scripted, id, "");
    var events := Conclude(before, scripted, id, "").events;
    assert Unnamed(events[|events| - 1]);
  }

  lemma BehavedRunIsValid(env: Env, w: World, id: nat, action: string, args: Json)
    requires Valid(w, env.blake3) && IsA(w.entities, id, Actor) && Behaves(env, w, id, action, args)
    ensures var done := Execute(env, w, id, action, args, true);
      && done.receipt.Some?
      && (action != "" ==> Valid(done.world, env.blake3))
      && (action == "" ==> HasUnnamed(done.world.events))
  {
    hide Valid, Conclude, PerformAll;
    var calls := env.script(w, id, ContractSource(w, id).value, action, args).calls;
    SafeScriptKeepsValid(w, id, calls, env.blake3);
    ConcludeValidIff(w, PerformAll(w, id, calls), id, action, env.blake3);
    UnnamedIsLogged(w, PerformAll(w, id, calls), id);
  }

  // ---------- the schema gate of a save ----------

  /** A successful call that gives an actor's data the key the schema check of a save refuses. */
  predicate MarksActor(w: World, caller: nat, call: Call) {
    && call.CallUpdateEntityData? && call.key == "inventory"
    && Perform(w, caller, call).ok && IsA(w.entities, call.id, Actor)
  }

  predicate ScriptMarks(w: World, caller: nat, calls: seq<Call>)
    decreases |calls|
  {
    calls != [] &&
    (MarksActor(w, caller, calls[0]) || ScriptMarks(Perform(w, caller, calls[0]).world, caller, calls[1..]))
  }

  /** The actors and their data keys before and after, but for one entity. */
  ghost predicate SameActorsBut(a: map<nat, Entity>, b: map<nat, Entity>, id: nat) {
    forall k :: k != id ==>
      && (IsA(a, k, Actor) <==> IsA(b, k, Actor))
      && (IsA(a, k, Actor) ==> a[k].data == b[k].data)
  }

  lemma SameActorsKeep(a: World, b: World, id: nat)
    requires SameActorsBut(a.entities, b.entities, id)
    requires IsA(a.entities, id, Actor) <==> IsA(b.entities, id, Actor)
    requires IsA(a.entities, id, Actor) ==> a.entities[id].data.Keys == b.entities[id].data.Keys
    ensures OldInventory(a) <==> OldInventory(b)
  {
    hide OldInventory;
    SameOldInventory(a, b);
  }

  lemma UpdateMarks(w: World, caller: nat, id: nat, key: string, value: Json)
    ensures var after := UpdateEntityData(w, caller, id, key, value).world;
      OldInventory(after) <==> OldInventory(w) || MarksActor(w, caller, CallUpdateEntityData(id, key, value))
  {
    var call := CallUpdateEntityData(id, key, value);
    var after := UpdateEntityData(w, caller, id, key, value).world;
    if UpdateEntityData(w, caller, id, key, value).ok {
      assert forall k :: k in w.entities && k != id ==> after.entities[k] == w.entities[k];
      if MarksActor(w, caller, call) {
        assert "inventory" in after.entities[id].data;
      } else {
        assert IsA(w.entities, id, Actor) ==> after.entities[id].data.Keys == w.entities[id].data.Keys + {key};
        SameOldInventory(w, after);
      }
    }
  }

  /** Worlds whose actors have the same ids and agree on the legacy key. */
  lemma SameOldInventory(a: World, b: World)
    requires forall k :: IsA(a.entities, k, Actor) <==> IsA(b.entities, k, Actor)
    requires forall k :: IsA(a.entities, k, Actor) && IsA(b.entities, k, Actor) ==>
      ("inventory" in a.entities[k].data <==> "inventory" in b.entities[k].data)
    ensures OldInventory(a) <==> OldInventory(b)
  {
    if OldInventory(a) {
      var k :| k in a.entities && a.entities[k].kind == Actor && "inventory" in a.entities[k].data;
      assert IsA(a.entities, k, Actor) && IsA(b.entities, k, Actor);
    }
    if OldInventory(b) {
      var k :| k in b.entities && b.entities[k].kind == Actor && "inventory" in b.entities[k].data;
      assert IsA(a.entities, k, Actor) && IsA(b.entities, k, Actor);
    }
  }

  /** A consumed item is no actor, so completing a quest leaves actors and their data alone. */
  lemma CompletionKeepsActors(w: World, caller: nat, quest: string)
    requires InventoriesOk(w.entities, w.inventories)
    ensures OldInventory(CompleteQuest(w, caller, quest).world) <==> OldInventory(w)
  {
    var after := CompleteQuest(w, caller, quest).world;
    if CompleteQuest(w, caller, quest).ok && after.entities != w.entities {
      var items, name := Items(w.inventories, caller), w.quests[quest].requiredItem;
      FindNamedFinds(w.entities, items, name);
      var item := FindNamed(w.entities, items, name).value;
      assert Holds(w.inventories, caller, item);
      assert after.entities == w.entities - {item};
      SameActorsKeep(w, after, item);
    }
  }

  /** Moving an actor or an item changes locations and inventories. */
  lemma MovesKeepActors(w: World, caller: nat, call: Call)
    requires call.CallMoveActor? || call.CallTakeItem? || call.CallDropItem? || call.CallTransferItem?
    ensures OldInventory(Perform(w, caller, call).world) <==> OldInventory(w)
  {
    hide OldInventory;
    var after := Perform(w, caller, call).world;
    match call
    case CallMoveActor(actor, zone) => SameActorsKeep(w, after, actor);
    case CallTakeItem(item) => SameActorsKeep(w, after, item);
    case CallDropItem(item) => SameActorsKeep(w, after, item);
    case CallTransferItem(item, target) => SameActorsKeep(w, after, item);
  }

  lemma CallMarks(w: World, caller: nat, call: Call)
    requires InventoriesOk(w.entities, w.inventories) && Safe(call)
    ensures OldInventory(Perform(w, caller, call).world) <==> OldInventory(w) || MarksActor(w, caller, call)
  {
    hide OldInventory, InventoriesOk;
    match call
    case CallUpdateEntityData(id, key, value) => UpdateMarks(w, caller, id, key, value);
    case CallCompleteQuest(quest) => CompletionKeepsActors(w, caller, quest);
    case CallMoveActor(actor, zone) => MovesKeepActors(w, caller, call);
    case CallTakeItem(item) => MovesKeepActors(w, caller, call);
    case CallDropItem(item) => MovesKeepActors(w, caller, call);
    case CallTransferItem(item, target) => MovesKeepActors(w, caller, call);
    case CallEmitEvent(kind, entityId, data) => SameEntitiesMark(w, Perform(w, caller, call).world);
    case CallAcceptQuest(quest, giver) => SameEntitiesMark(w, Perform(w, caller, call).world);
    case CallCreditBalance(amount) => SameEntitiesMark(w, Perform(w, caller, call).world);
  }

  /** A safe script leaves a legacy key behind exactly when there was one or a call set one. */
  lemma {:induction false} ScriptMarksExactly(w: World, caller: nat, calls: seq<Call>, blake3: string -> string)
    requires Valid(w, blake3) && IsA(w.entities, caller, Actor)
    requires forall i :: 0 <= i < |calls| ==> Safe(calls[i])
    ensures OldInventory(PerformAll(w, caller, calls)) <==> OldInventory(w) || ScriptMarks(w, caller, calls)
    decreases |calls|
  {
    hide Perform, OldInventory, MarksActor;
    if calls == [] {
    } else {
      ValidIndex(w, blake3);
      CallMarks(w, caller, calls[0]);
      SafeCallKeepsValid(w, caller, calls[0], blake3);
      ActorStays(w, caller, calls[0], caller);
      hide Valid;
      ScriptMarksExactly(Perform(w, caller, calls[0]).world, caller, calls[1..], blake3);
    }
  }

  lemma ValidIndex(w: World, blake3: string -> string)
    requires Valid(w, blake3)
    ensures InventoriesOk(w.entities, w.inventories) && w.nextEntityId !in w.entities
  {
  }

  /** The script of a request sets no legacy key. */
  ghost predicate LeavesNoMark(env: Env, w: World, id: nat, action: string, args: Json)
    requires Behaves(env, w, id, action, args)
  {
    !ScriptMarks(w, id, env.script(w, id, ContractSource(w, id).value, action, args).calls)
  }

  lemma BehavedRunMarks(env: Env, w: World, id: nat, action: string, args: Json)
    requires Valid(w, env.blake3) && IsA(w.entities, id, Actor) && Behaves(env, w, id, action, args)
    ensures OldInventory(Execute(env, w, id, action, args, true).world) <==>
      OldInventory(w) || !LeavesNoMark(env, w, id, action, args)
  {
    hide Valid, Conclude, PerformAll, OldInventory, ScriptMarks;
    var calls := env.script(w, id, ContractSource(w, id).value, action, args).calls;
    var scripted := PerformAll(w, id, calls);
    ScriptMarksExactly(w, id, calls, env.blake3);
    ConcludeGrows(w, scripted, id, action);
    SameEntitiesMark(scripted, Conclude(w, scripted, id, action));
  }

  lemma SameEntitiesMark(a: World, b: World)
    requires a.entities == b.entities
    ensures OldInventory(a) <==> OldInventory(b)
  {
  }

  /**
   What a well-behaved command of an actor leaves behind can be saved exactly when the
   action has a name and no actor has, or was given, the legacy key.
   */
  lemma SafeCommandCommits(env: Env, w: World, id: nat, action: string, args: Json)
    requires Valid(w, env.blake3) && IsA(w.entities, id, Actor) && Behaves(env, w, id, action, args)
    ensures Mutate(env, w, CommandWrite(id, action, args)).receipt.Some?
    ensures Savable(env, Mutate(env, w, CommandWrite(id, action, args)).world) <==>
      action != "" && !OldInventory(w) && LeavesNoMark(env, w, id, action, args)
  {
    hide Valid, Execute, Behaves, HasUnnamed, OldInventory, LeavesNoMark;
    BehavedRunIsValid(env, w, id, action, args);
    BehavedRunMarks(env, w, id, action, args);
    if action == "" {
      UnnamedIsInvalid(Execute(env, w, id, action, args, true).world, env.blake3);
    }
  }

  /** The refused family: an actor that writes the legacy key into its own data passes validation, not the save. */
  lemma MarkingScriptIsRefused(env: Env, w: World, id: nat, action: string, args: Json, value: Json)
    requires Valid(w, env.blake3) && IsA(w.entities, id, Actor) && action != "" && Behaves(env, w, id, action, args)
    requires env.script(w, id, ContractSource(w, id).value, action, args).calls ==
      [CallUpdateEntityData(id, "inventory", value)]
    ensures var done := Mutate(env, w, CommandWrite(id, action, args));
      done.receipt.Some? && Valid(done.world, env.blake3) && !Savable(env, done.world)
  {
    hide Valid, Execute, Behaves, OldInventory, Savable, HasUnnamed, ScriptMarks;
    OwnMark(w, id, value);
    BehavedRunIsValid(env, w, id, action, args);
    SafeCommandCommits(env, w, id, action, args);
  }

  lemma OwnMark(w: World, id: nat, value: Json)
    requires IsA(w.entities, id, Actor)
    ensures ScriptMarks(w, id, [CallUpdateEntityData(id, "inventory", value)])
  {
    var call := CallUpdateEntityData(id, "inventory", value);
    assert MarksActor(w, id, [call][0]);
  }

  /** A new receipt and its event, whose id no receipt has, leave a valid world valid. */
  lemma ReceiptKeepsValid(w: World, name: string, r: Receipt, entityId: nat, blake3: string -> string)
    requires Valid(w, blake3) && name in w.accounts && r.from == name && r.nonce <= MAX_U64
    requires r.txId !in w.receipts && IsHex32(r.txId) && IsHex32(r.stateRoot)
    ensures var after := Append(BumpNonce(w, name), TX_EXECUTED, Some(entityId), TxData(r.txId, name, r.nonce));
      Valid(after.(receipts := w.receipts[r.txId := r]), blake3)
  {
    hide ContractsOk, ProgressOk, LocationsOk, QuestsOk, InventoriesOk, IsHex32;
    var receipts := w.receipts[r.txId := r];
    var e := Event(w.nextEventId, w.head, TX_EXECUTED, Some(entityId), TxData(r.txId, name, r.nonce));
    TxDataFields(r.txId, name, r.nonce);
    MoreReceipts(w.events, w.receipts, r, w.head);
    FreshId(w.events, w.receipts, w.head, e, r.txId);
    LogAppend(w.events, e, receipts, w.head);
  }

  lemma MoreReceipts(events: seq<Event>, receipts: map<string, Receipt>, r: Receipt, head: nat)
    requires EventLogOk(events, receipts, head) && r.txId !in receipts
    ensures EventLogOk(events, receipts[r.txId := r], head)
  {
    hide GetStr, GetU64;
    forall i | 0 <= i < |events|
      ensures EventShapeOk(events[i], receipts[r.txId := r])
    {
      assert EventShapeOk(events[i], receipts);
    }
  }

  lemma FreshId(events: seq<Event>, receipts: map<string, Receipt>, head: nat, e: Event, id: string)
    requires EventLogOk(events, receipts, head) && id !in receipts && GetStr(e.data, "tx_id") == Some(id)
    ensures forall i :: 0 <= i < |events| ==> !SameTx(events[i], e)
  {
    forall i | 0 <= i < |events|
      ensures !SameTx(events[i], e)
    {
      assert EventShapeOk(events[i], receipts);
    }
  }

  /**
   The same of a transaction, as long as its digest is new and the digests are 32-byte hex:
   its nonce, event and receipt never stand in the way.
   */
  lemma SafeTransactionCommits(env: Env, w: World, tx: Transaction)
    requires Valid(w, env.blake3) && Admissible(env, w, tx) && IsA(w.entities, tx.entityId, Actor)
    requires Behaves(env, w, tx.entityId, tx.action, tx.args) && tx.nonce <= MAX_U64
    requires env.txId(tx) !in w.receipts && IsHex32(env.txId(tx)) && forall v: World :: IsHex32(env.digest(v))
    ensures Mutate(env, w, TransactionWrite(tx)).receipt.Some?
    ensures Savable(env, Mutate(env, w, TransactionWrite(tx)).world) <==>
      tx.action != "" && !OldInventory(w) && LeavesNoMark(env, w, tx.entityId, tx.action, tx.args)
  {
    hide Valid, Execute, Behaves, IsHex32, OldInventory, LeavesNoMark;
    BehavedRunIsValid(env, w, tx.entityId, tx.action, tx.args);
    BehavedRunMarks(env, w, tx.entityId, tx.action, tx.args);
    ExecuteKeepsHistory(env, w, tx.entityId, tx.action, tx.args, true);
    var run := Execute(env, w, tx.entityId, tx.action, tx.args, true).world;
    var done := Mutate(env, w, TransactionWrite(tx));
    assert tx.from in run.accounts;
    TransactionWraps(env, w, tx);
    SameEntitiesMark(run, done.world);
    if tx.action != "" {
      ReceiptKeepsValid(run, tx.from, done.receipt.value, tx.entityId, env.blake3);
    } else {
      MoreEvents(run.events, done.world.events);
      UnnamedIsInvalid(done.world, env.blake3);
    }
  }

  lemma MoreEvents(before: seq<Event>, after: seq<Event>)
    requires HasUnnamed(before) && before <= after
    ensures HasUnnamed(after)
  {
    var i :| 0 <= i < |before| && Unnamed(before[i]);
    assert Unnamed(after[i]);
  }
}
