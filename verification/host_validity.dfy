/** Which host operations keep a world valid, and exactly when the others do. */
module HostValidity {
  import opened Common
  import opened Json
  import opened QuestGraph
  import opened Model
  import opened HostOps

  // ---------- relocating and editing one entity ----------

  /** Same entities up to location and data. */
  ghost predicate SameShape(a: map<nat, Entity>, b: map<nat, Entity>) {
    && a.Keys == b.Keys
    && forall k :: k in a ==>
      a[k].id == b[k].id && a[k].kind == b[k].kind && a[k].owner == b[k].owner && a[k].contract == b[k].contract
  }

  lemma QuestsKeep(a: map<nat, Entity>, b: map<nat, Entity>, quests: map<string, Quest>)
    requires QuestsOk(a, quests)
    requires forall k :: IsA(a, k, Actor) ==> IsA(b, k, Actor)
    ensures QuestsOk(b, quests)
  {
    forall q | q in quests
      ensures QuestOk(b, quests, q)
    {
      assert QuestOk(a, quests, q);
    }
  }

  /** After a change of locations, data and inventories only, two of the nine checks decide. */
  lemma EditValidIff(w: World, after: World, blake3: string -> string)
    requires Valid(w, blake3) && SameShape(w.entities, after.entities)
    requires after == w.(entities := after.entities, inventories := after.inventories)
    ensures Valid(after, blake3) <==>
      LocationsOk(after.entities) && InventoriesOk(after.entities, after.inventories)
    ensures LocationsOk(w.entities) && InventoriesOk(w.entities, w.inventories)
  {
    hide EventsOk, ContractsOk, AccountsOk, ReceiptsOk, LocationsOk, InventoriesOk;
    QuestsKeep(w.entities, after.entities, w.quests);
  }

  /** Only the edited entity needs a new look at its place. */
  lemma PlacesKeep(a: map<nat, Entity>, b: map<nat, Entity>, edited: nat)
    requires LocationsOk(a) && SameShape(a, b) && edited in b
    requires forall k :: k in a && k != edited ==> b[k] == a[k]
    ensures LocationsOk(b) <==> Placed(b, edited)
  {
    forall k | k in b && k != edited
      ensures Placed(b, k)
    {
      assert Placed(a, k);
    }
  }

  /** The index does not notice an edit that leaves carried items where they are. */
  lemma EditKeepsIndex(a: map<nat, Entity>, b: map<nat, Entity>, inventories: map<nat, seq<nat>>, edited: nat)
    requires InventoriesOk(a, inventories) && SameShape(a, b) && edited in b
    requires forall k :: k in a && k != edited ==> b[k] == a[k]
    requires a[edited].kind == Item ==> b[edited].location == a[edited].location
    ensures InventoriesOk(b, inventories)
  {
    forall i | i in b && CarriedItem(b, b[i])
      ensures Holds(inventories, b[i].location.value, i)
    {
      assert CarriedItem(a, a[i]);
    }
  }

  lemma MoveActorKeepsValid(w: World, actor: nat, zone: nat, blake3: string -> string)
    requires Valid(w, blake3)
    ensures Valid(MoveActor(w, actor, zone).world, blake3)
  {
    if MoveActor(w, actor, zone).ok {
      var after := MoveActor(w, actor, zone).world;
      assert w.entities[zone].id == zone;
      hide Valid;
      EditValidIff(w, after, blake3);
      PlacesKeep(w.entities, after.entities, actor);
      EditKeepsIndex(w.entities, after.entities, w.inventories, actor);
    }
  }

  lemma UpdateEntityDataKeepsValid(w: World, caller: nat, id: nat, key: string, value: Json, blake3: string -> string)
    requires Valid(w, blake3)
    ensures Valid(UpdateEntityData(w, caller, id, key, value).world, blake3)
  {
    hide Valid;
    if UpdateEntityData(w, caller, id, key, value).ok {
      var after := UpdateEntityData(w, caller, id, key, value).world;
      EditValidIff(w, after, blake3);
      assert Placed(w.entities, id);
      PlacesKeep(w.entities, after.entities, id);
      EditKeepsIndex(w.entities, after.entities, w.inventories, id);
    }
  }

  // ---------- inventories ----------

  lemma {:induction false} RemoveFirstDistinct(items: seq<nat>, item: nat)
    requires Distinct(items)
    ensures Distinct(RemoveFirst(items, item))
    ensures Elements(RemoveFirst(items, item)) == Elements(items) - {item}
  {
    if items == [] {
    } else {
      var rest := items[1..];
      assert Elements(items) == {items[0]} + Elements(rest) && items[0] !in rest;
      if items[0] != item {
        RemoveFirstDistinct(rest, item);
        var r := RemoveFirst(rest, item);
        assert forall x :: x in r <==> x in Elements(r);
        assert Elements([items[0]] + r) == {items[0]} + Elements(r);
      }
    }
  }

  lemma {:induction false} RemoveAllDistinct(items: seq<nat>, item: nat)
    requires Distinct(items)
    ensures RemoveAll(items, item) == RemoveFirst(items, item)
  {
    if items == [] {
    } else {
      RemoveAllDistinct(items[1..], item);
      if items[0] == item {
        NothingToRemove(items[1..], item);
      }
    }
  }

  lemma {:induction false} NothingToRemove(items: seq<nat>, item: nat)
    requires item !in items
    ensures RemoveFirst(items, item) == items
  {
    if items == [] {
    } else {
      assert items[0] in items;
      NothingToRemove(items[1..], item);
      assert items == [items[0]] + items[1..];
    }
  }

  /** `after` differs from `before` in who holds `item`: exactly `holder`, or nobody. */
  ghost predicate Rehomed(
    before: map<nat, seq<nat>>, after: map<nat, seq<nat>>, item: nat, holder: Option<nat>)
  {
    && (forall o: nat, i: nat {:trigger Holds(after, o, i)} ::
      Holds(after, o, i) <==> if i == item then holder == Some(o) else Holds(before, o, i))
    && (forall o :: o in after ==> Distinct(after[o]) && (o in before || holder == Some(o)))
  }

  /** The index follows an item that moves to an actor or a zone. */
  lemma RehomeKeepsIndex(
    a: map<nat, Entity>, b: map<nat, Entity>, before: map<nat, seq<nat>>, after: map<nat, seq<nat>>, item: nat,
    place: nat)
    requires InventoriesOk(a, before) && IsA(a, item, Item) && b == Relocate(a, item, place)
    requires IsA(a, place, Actor) || IsA(a, place, Zone)
    requires Rehomed(before, after, item, if IsA(a, place, Actor) then Some(place) else None)
    ensures InventoriesOk(b, after)
  {
    assert forall k, kind :: IsA(b, k, kind) == IsA(a, k, kind);
    forall o: nat, i: nat | Holds(after, o, i)
      ensures IsA(b, i, Item) && b[i].location == Some(o)
    {
      if i != item {
        assert Holds(before, o, i);
      }
    }
    forall i | i in b && CarriedItem(b, b[i])
      ensures Holds(after, b[i].location.value, i)
    {
      if i != item {
        assert CarriedItem(a, a[i]) && Holds(before, b[i].location.value, i);
      }
    }
  }

  /** Moving an item to an actor or a zone, together with the inventories, keeps the world valid. */
  lemma RehomeKeepsValid(w: World, after: World, item: nat, place: nat, blake3: string -> string)
    requires Valid(w, blake3) && IsA(w.entities, item, Item)
    requires IsA(w.entities, place, Actor) || IsA(w.entities, place, Zone)
    requires after == w.(entities := Relocate(w.entities, item, place), inventories := after.inventories)
    requires var home := if IsA(w.entities, place, Actor) then Some(place) else None;
      Rehomed(w.inventories, after.inventories, item, home)
    ensures Valid(after, blake3)
  {
    hide Valid;
    EditValidIff(w, after, blake3);
    RehomeKeepsIndex(w.entities, after.entities, w.inventories, after.inventories, item, place);
    PlacesKeep(w.entities, after.entities, item);
  }

  /** Removing the held item from its one holder. */
  lemma Unhold(w: World, holder: nat, item: nat, blake3: string -> string)
    requires Valid(w, blake3) && Holds(w.inventories, holder, item)
    ensures Rehomed(w.inventories, w.inventories[holder := RemoveFirst(w.inventories[holder], item)], item, None)
  {
    var kept := RemoveFirst(w.inventories[holder], item);
    var after := w.inventories[holder := kept];
    RemoveFirstDistinct(w.inventories[holder], item);
    assert forall x :: x in kept <==> x in Elements(kept);
    forall o: nat, i: nat
      ensures Holds(after, o, i) <==> i != item && Holds(w.inventories, o, i)
    {
      if Holds(w.inventories, o, item) {
        assert w.entities[item].location == Some(o) && w.entities[item].location == Some(holder);
      }
    }
  }

  /** Adding an item nobody holds to an actor's inventory. */
  lemma Hold(before: map<nat, seq<nat>>, free: map<nat, seq<nat>>, holder: nat, item: nat)
    requires Rehomed(before, free, item, None)
    ensures Rehomed(before, free[holder := Items(free, holder) + [item]], item, Some(holder))
  {
    var held := Items(free, holder) + [item];
    assert item !in Items(free, holder) by {
      assert !Holds(free, holder, item);
    }
    var after := free[holder := held];
    forall o: nat, i: nat
      ensures Holds(after, o, i) <==> if i == item then o == holder else Holds(before, o, i)
    {
      assert Holds(free, o, i) <==> i != item && Holds(before, o, i);
      assert i in held <==> i in Items(free, holder) || i == item;
    }
  }

  /** Nothing in `take_item` asks whether the caller is an actor; validity does. */
  lemma TakeItemValidIff(w: World, caller: nat, item: nat, blake3: string -> string)
    requires Valid(w, blake3) && TakeItem(w, caller, item).ok
    ensures Valid(TakeItem(w, caller, item).world, blake3) <==> IsA(w.entities, caller, Actor)
  {
    var after := TakeItem(w, caller, item).world;
    if IsA(w.entities, caller, Actor) {
      assert forall o: nat {:trigger Holds(w.inventories, o, item)} :: !Holds(w.inventories, o, item);
      assert Rehomed(w.inventories, w.inventories, item, None);
      Hold(w.inventories, w.inventories, caller, item);
      RehomeKeepsValid(w, after, item, caller, blake3);
    } else {
      assert caller in after.inventories && !IsA(after.entities, caller, Actor);
    }
  }

  lemma DropItemKeepsValid(w: World, caller: nat, item: nat, blake3: string -> string)
    requires Valid(w, blake3)
    ensures Valid(DropItem(w, caller, item).world, blake3)
    ensures !DropItem(w, caller, item).ok ==> DropItem(w, caller, item).world == w
  {
    if Holds(w.inventories, caller, item) && w.entities[caller].location.Some? {
      Unhold(w, caller, item, blake3);
      assert Placed(w.entities, caller);
      RehomeKeepsValid(w, DropItem(w, caller, item).world, item, w.entities[caller].location.value, blake3);
    }
  }

  lemma TransferItemKeepsValid(w: World, caller: nat, item: nat, target: nat, blake3: string -> string)
    requires Valid(w, blake3)
    ensures Valid(TransferItem(w, caller, item, target).world, blake3)
  {
    var step := TransferItem(w, caller, item, target);
    if step.ok {
      Unhold(w, caller, item, blake3);
      Hold(w.inventories, w.inventories[caller := RemoveFirst(w.inventories[caller], item)], target, item);
      RehomeKeepsValid(w, step.world, item, target, blake3);
    }
  }

  // ---------- events, quests, balances ----------

  lemma AppendKeepsEventsOk(w: World, kind: string, entityId: Option<nat>, data: Json)
    requires EventsOk(w.events, w.receipts, w.head, w.nextEventId)
    requires kind != TX_EXECUTED && EventShapeOk(Event(w.nextEventId, w.head, kind, entityId, data), w.receipts)
    ensures var a := Append(w, kind, entityId, data); EventsOk(a.events, a.receipts, a.head, a.nextEventId)
  {
    LogAppend(w.events, Event(w.nextEventId, w.head, kind, entityId, data), w.receipts, w.head);
  }

  lemma EmitEventKeepsValid(w: World, kind: string, entityId: Option<nat>, data: Json, blake3: string -> string)
    requires Valid(w, blake3)
    ensures Valid(EmitEvent(w, kind, entityId, data).world, blake3)
  {
    if EmitEvent(w, kind, entityId, data).ok {
      AppendKeepsEventsOk(w, kind, entityId, data);
    }
  }

  lemma CreditKeepsValid(w: World, account: string, amount: nat, blake3: string -> string)
    requires Valid(w, blake3)
    ensures Valid(Credit(w, account, amount).world, blake3)
  {
    if Credit(w, account, amount).ok {
      var after := Credit(w, account, amount).world;
      assert after.accounts.Keys == w.accounts.Keys;
      assert AccountsOk(after.accounts);
    }
  }

  lemma AcceptQuestValidIff(w: World, caller: nat, quest: string, giver: nat, blake3: string -> string)
    requires Valid(w, blake3) && AcceptQuest(w, caller, quest, giver).ok
    ensures Valid(AcceptQuest(w, caller, quest, giver).world, blake3) <==> IsA(w.entities, caller, Actor)
  {
    var after := AcceptQuest(w, caller, quest, giver).world;
    var key := ProgressKey(caller, quest);
    assert key in after.progress && after.progress[key].actorId == caller;
    assert IsA(w.entities, caller, Actor) ==> ProgressOk(after.entities, after.quests, after.progress);
  }

  lemma {:induction false} FindNamedFinds(entities: map<nat, Entity>, items: seq<nat>, name: string)
    ensures FindNamed(entities, items, name).Some? ==> FindNamed(entities, items, name).value in items
  {
    if items == [] {
    } else {
      FindNamedFinds(entities, items[1..], name);
    }
  }

  lemma ConsumeKeepsIndex(a: map<nat, Entity>, before: map<nat, seq<nat>>, after: map<nat, seq<nat>>, item: nat)
    requires InventoriesOk(a, before) && IsA(a, item, Item) && Rehomed(before, after, item, None)
    ensures InventoriesOk(a - {item}, after)
  {
    var b := a - {item};
    assert forall k :: k in b ==> b[k] == a[k];
    forall o: nat, i: nat | Holds(after, o, i)
      ensures IsA(b, i, Item) && b[i].location == Some(o)
    {
      assert Holds(before, o, i);
    }
    forall i | i in b && CarriedItem(b, b[i])
      ensures Holds(after, b[i].location.value, i)
    {
      assert CarriedItem(a, a[i]) && Holds(before, b[i].location.value, i);
    }
  }

  /** An item that leaves the world is nobody's location, quest giver or owner. */
  lemma ConsumeKeepsValid(w: World, caller: nat, item: nat, blake3: string -> string)
    requires Valid(w, blake3) && Holds(w.inventories, caller, item)
    ensures Valid(Consume(w, caller, item), blake3)
  {
    var after := Consume(w, caller, item);
    RemoveAllDistinct(w.inventories[caller], item);
    Unhold(w, caller, item, blake3);
    ConsumeKeepsIndex(w.entities, w.inventories, after.inventories, item);
    ConsumeKeepsEntities(w, after, item, blake3);
  }

  lemma ConsumeKeepsEntities(w: World, after: World, item: nat, blake3: string -> string)
    requires Valid(w, blake3) && IsA(w.entities, item, Item)
    requires after == w.(entities := w.entities - {item}, inventories := after.inventories)
    ensures Valid(after, blake3) <==> InventoriesOk(after.entities, after.inventories)
  {
    hide EventsOk, ContractsOk, AccountsOk, ReceiptsOk, InventoriesOk;
    assert forall k :: k in after.entities ==> after.entities[k] == w.entities[k];
    QuestsKeep(w.entities, after.entities, w.quests);
    forall k | k in after.entities
      ensures Placed(after.entities, k)
    {
      assert Placed(w.entities, k);
    }
  }

  lemma SetStatusKeepsValid(w: World, key: string, status: QuestStatus, blake3: string -> string)
    requires Valid(w, blake3) && key in w.progress
    ensures Valid(w.(progress := w.progress[key := w.progress[key].(status := status)]), blake3)
  {
    var progress := w.progress[key := w.progress[key].(status := status)];
    assert ProgressOk(w.entities, w.quests, progress);
  }

  lemma CompleteQuestKeepsValid(w: World, caller: nat, quest: string, blake3: string -> string)
    requires Valid(w, blake3)
    ensures Valid(CompleteQuest(w, caller, quest).world, blake3)
  {
    var step := CompleteQuest(w, caller, quest);
    if step.ok {
      var q := w.quests[quest];
      var item := FindNamed(w.entities, Items(w.inventories, caller), q.requiredItem).value;
      FindNamedFinds(w.entities, Items(w.inventories, caller), q.requiredItem);
      var paid := Credit(w, w.entities[caller].owner, q.reward).world;
      CreditKeepsValid(w, w.entities[caller].owner, q.reward, blake3);
      if q.consumeItem {
        ConsumeKeepsValid(paid, caller, item, blake3);
        SetStatusKeepsValid(Consume(paid, caller, item), ProgressKey(caller, quest), Completed, blake3);
      } else {
        SetStatusKeepsValid(paid, ProgressKey(caller, quest), Completed, blake3);
      }
    }
  }

  // ---------- the two calls that rely on the check at commit ----------

  /** Where `move_entity` may put an entity without breaking validity. */
  predicate MayMove(entities: map<nat, Entity>, id: nat, place: nat)
    requires id in entities
  {
    var e := entities[id];
    match e.kind
    case Zone => false
    case Actor => IsA(entities, place, Zone)
    case Item =>
      if CarriedItem(entities, e) then e.location == Some(place) else IsA(entities, place, Zone)
  }

  lemma MoveEntityValidIff(w: World, caller: nat, id: nat, place: nat, blake3: string -> string)
    requires Valid(w, blake3) && MoveEntity(w, caller, id, place).ok
    ensures Valid(MoveEntity(w, caller, id, place).world, blake3) <==> MayMove(w.entities, id, place)
  {
    var after := MoveEntity(w, caller, id, place).world;
    hide Valid;
    EditValidIff(w, after, blake3);
    PlacesKeep(w.entities, after.entities, id);
    if MayMove(w.entities, id, place) {
      MovedIndexOk(w.entities, after.entities, w.inventories, id, place);
    } else if IsA(w.entities, id, Item) && (IsA(w.entities, place, Zone) || IsA(w.entities, place, Actor)) {
      MovedIndexBad(w.entities, after.entities, w.inventories, id, place);
    }
  }

  lemma MovedIndexOk(a: map<nat, Entity>, b: map<nat, Entity>, inventories: map<nat, seq<nat>>, id: nat, place: nat)
    requires InventoriesOk(a, inventories) && id in a && b == Relocate(a, id, place) && MayMove(a, id, place)
    ensures InventoriesOk(b, inventories)
  {
    assert forall k, kind :: IsA(b, k, kind) == IsA(a, k, kind);
    forall o: nat, i: nat | Holds(inventories, o, i)
      ensures IsA(b, i, Item) && b[i].location == Some(o)
    {
      assert a[i].location == Some(o) && CarriedItem(a, a[i]);
    }
    forall i | i in b && CarriedItem(b, b[i])
      ensures Holds(inventories, b[i].location.value, i)
    {
      assert CarriedItem(a, a[i]);
    }
  }

  lemma MovedIndexBad(a: map<nat, Entity>, b: map<nat, Entity>, inventories: map<nat, seq<nat>>, id: nat, place: nat)
    requires InventoriesOk(a, inventories) && IsA(a, id, Item) && b == Relocate(a, id, place)
    requires IsA(a, place, Actor) || IsA(a, place, Zone)
    ensures InventoriesOk(b, inventories) ==> MayMove(a, id, place)
  {
    assert CarriedItem(b, b[id]) <==> IsA(a, place, Actor);
    if CarriedItem(a, a[id]) {
      assert Holds(inventories, a[id].location.value, id);
    } else {
      assert !Holds(inventories, place, id);
    }
  }

  lemma SpawnEntityValidIff(
    w: World, caller: nat, kind: string, location: Option<nat>, data: Json, blake3: string -> string)
    requires Valid(w, blake3) && SpawnEntity(w, caller, kind, location, data).ok
    ensures Valid(SpawnEntity(w, caller, kind, location, data).world, blake3) <==>
      location.None? || (kind != "zone" && IsA(w.entities, location.value, Zone))
  {
    CreateEntityValidIff(w, ParseKind(kind).value, w.entities[caller].owner, None, location, data.fields, blake3);
  }

  lemma CreateEntityValidIff(
    w: World, kind: Kind, owner: string, contract: Option<string>, location: Option<nat>, data: map<string, Json>,
    blake3: string -> string)
    requires Valid(w, blake3) && CreateEntity(w, kind, owner, contract, location, data).ok
    ensures Valid(CreateEntity(w, kind, owner, contract, location, data).world, blake3) <==>
      location.None? || (kind != Zone && IsA(w.entities, location.value, Zone))
  {
    var after := CreateEntity(w, kind, owner, contract, location, data).world;
    var id := w.nextEntityId;
    assert id !in w.entities;
    CreatedValidIff(w, after, blake3);
    hide Valid;
    CreatedPlaces(w.entities, after.entities, id);
    CreatedIndex(w.entities, after.entities, w.inventories, id);
  }

  lemma CreatedValidIff(w: World, after: World, blake3: string -> string)
    requires Valid(w, blake3) && w.nextEntityId in after.entities
    requires after.entities == w.entities[w.nextEntityId := after.entities[w.nextEntityId]]
    requires after == w.(entities := after.entities, nextEntityId := w.nextEntityId + 1, head := w.head + 1)
    requires var e := after.entities[w.nextEntityId];
      e.id == w.nextEntityId && e.owner in w.accounts && (e.contract.Some? ==> e.contract.value in w.contracts)
    ensures Valid(after, blake3) <==>
      LocationsOk(after.entities) && InventoriesOk(after.entities, after.inventories)
    ensures LocationsOk(w.entities) && InventoriesOk(w.entities, w.inventories)
  {
    hide ContractsOk, AccountsOk, ReceiptsOk, LocationsOk, InventoriesOk;
    QuestsKeep(w.entities, after.entities, w.quests);
  }

  lemma CreatedPlaces(a: map<nat, Entity>, b: map<nat, Entity>, id: nat)
    requires LocationsOk(a) && id !in a && id in b && b == a[id := b[id]]
    ensures LocationsOk(b) <==> Placed(b, id)
  {
    forall k | k in a
      ensures Placed(b, k)
    {
      assert Placed(a, k);
    }
  }

  /** A fresh entity is in no inventory, so it must not start out carried. */
  lemma CreatedIndex(a: map<nat, Entity>, b: map<nat, Entity>, inventories: map<nat, seq<nat>>, id: nat)
    requires InventoriesOk(a, inventories) && LocationsOk(a)
    requires id !in a && id in b && b == a[id := b[id]]
    ensures InventoriesOk(b, inventories) <==> !CarriedItem(b, b[id])
  {
    assert forall o: nat {:trigger Holds(inventories, o, id)} :: !Holds(inventories, o, id);
    forall k | k in a
      ensures CarriedItem(b, b[k]) == CarriedItem(a, a[k])
    {
      assert Placed(a, k);
    }
    if !CarriedItem(b, b[id]) {
      assert forall k :: k in b && CarriedItem(b, b[k]) ==> k in a && CarriedItem(a, a[k]);
    } else {
      assert !Holds(inventories, b[id].location.value, id);
    }
  }

  // ---------- any call, any script ----------

  /** In a valid world a refused call changes nothing. */
  lemma RefusedCallChangesNothing(w: World, caller: nat, call: Call, blake3: string -> string)
    requires Valid(w, blake3) && !Perform(w, caller, call).ok
    ensures Perform(w, caller, call).world == w
  {
    if call.CallDropItem? {
      DropItemKeepsValid(w, caller, call.item, blake3);
    }
  }

  predicate Safe(call: Call) {
    !call.CallMoveEntity? && !call.CallSpawnEntity?
  }

  /** Calls move, edit, add entities and consume items: actors stay. */
  lemma ActorStays(w: World, caller: nat, call: Call, actor: nat)
    requires InventoriesOk(w.entities, w.inventories) && w.nextEntityId !in w.entities
    requires IsA(w.entities, actor, Actor)
    ensures IsA(Perform(w, caller, call).world.entities, actor, Actor)
  {
    if call.CallCompleteQuest? && CompleteQuest(w, caller, call.quest).ok {
      var items, name := Items(w.inventories, caller), w.quests[call.quest].requiredItem;
      FindNamedFinds(w.entities, items, name);
      assert Holds(w.inventories, caller, FindNamed(w.entities, items, name).value);
    }
  }

  lemma SafeCallKeepsValid(w: World, caller: nat, call: Call, blake3: string -> string)
    requires Valid(w, blake3) && IsA(w.entities, caller, Actor) && Safe(call)
    ensures Valid(Perform(w, caller, call).world, blake3)
  {
    hide Valid;
    match call
    case CallMoveActor(actor, zone) => MoveActorKeepsValid(w, actor, zone, blake3);
    case CallTakeItem(item) =>
      if TakeItem(w, caller, item).ok {
        TakeItemValidIff(w, caller, item, blake3);
      }
    case CallDropItem(item) => DropItemKeepsValid(w, caller, item, blake3);
    case CallTransferItem(item, target) => TransferItemKeepsValid(w, caller, item, target, blake3);
    case CallUpdateEntityData(id, key, value) => UpdateEntityDataKeepsValid(w, caller, id, key, value, blake3);
    case CallEmitEvent(kind, entityId, data) => EmitEventKeepsValid(w, kind, entityId, data, blake3);
    case CallAcceptQuest(quest, giver) =>
      if AcceptQuest(w, caller, quest, giver).ok {
        AcceptQuestValidIff(w, caller, quest, giver, blake3);
      }
    case CallCompleteQuest(quest) => CompleteQuestKeepsValid(w, caller, quest, blake3);
    case CallCreditBalance(amount) => CreditKeepsValid(w, w.entities[caller].owner, amount, blake3);
  }

  /** A script limited to the safe calls, run by an actor, always leaves a world that validates. */
  lemma {:induction false} SafeScriptKeepsValid(w: World, caller: nat, calls: seq<Call>, blake3: string -> string)
    requires Valid(w, blake3) && IsA(w.entities, caller, Actor)
    requires forall i :: 0 <= i < |calls| ==> Safe(calls[i])
    ensures Valid(PerformAll(w, caller, calls), blake3)
    ensures IsA(PerformAll(w, caller, calls).entities, caller, Actor)
    decreases |calls|
  {
    if calls == [] {
    } else {
      SafeCallKeepsValid(w, caller, calls[0], blake3);
      ActorStays(w, caller, calls[0], caller);
      SafeScriptKeepsValid(Perform(w, caller, calls[0]).world, caller, calls[1..], blake3);
    }
  }
}
