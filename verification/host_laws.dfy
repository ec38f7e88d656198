/**
 What each host call means, told entity by entity and apart from how it is computed: when it
 succeeds, what the world is afterwards, and how far a script's authority reaches.
 */
module HostLaws {
  import opened Common
  import opened Text
  import opened Json
  import opened Model
  import opened HostOps
  import opened HostValidity

  // ---------- pointwise descriptions ----------

  /** An entity whose data has this name. */
  ghost predicate Named(entities: map<nat, Entity>, id: nat, name: string) {
    id in entities && "name" in entities[id].data && entities[id].data["name"] == Str(name)
  }

  /** Only one entity's place is new. */
  ghost predicate OnlyMoved(a: map<nat, Entity>, b: map<nat, Entity>, id: nat, place: nat) {
    && a.Keys == b.Keys && id in a
    && b[id].location == Some(place)
    && b[id].id == a[id].id && b[id].kind == a[id].kind && b[id].owner == a[id].owner
    && b[id].contract == a[id].contract && b[id].data == a[id].data
    && forall k :: k in a && k != id ==> b[k] == a[k]
  }

  /** One inventory is `items` afterwards, the others are as before. */
  ghost predicate OnlyInventory(a: map<nat, seq<nat>>, b: map<nat, seq<nat>>, owner: nat, items: seq<nat>) {
    && b.Keys == a.Keys + {owner} && b[owner] == items
    && forall o :: o in a && o != owner ==> b[o] == a[o]
  }

  /** `after` is `before` without its `k`th item, which is the first of its id. */
  ghost predicate TakenOut(before: seq<nat>, after: seq<nat>, item: nat) {
    exists k :: TakenAt(before, after, item, k)
  }

  ghost predicate TakenAt(before: seq<nat>, after: seq<nat>, item: nat, k: int) {
    0 <= k < |before| && before[k] == item && item !in before[..k] && after == before[..k] + before[k + 1..]
  }

  lemma {:induction false} RemoveFirstTakes(items: seq<nat>, item: nat)
    requires item in items
    ensures TakenOut(items, RemoveFirst(items, item), item)
    decreases |items|
  {
    if items[0] == item {
      assert items[..0] + items[1..] == items[1..];
      assert TakenAt(items, items[1..], item, 0);
    } else {
      var rest := items[1..];
      RemoveFirstTakes(rest, item);
      var k :| TakenAt(rest, RemoveFirst(rest, item), item, k);
      assert items[..k + 1] == [items[0]] + rest[..k];
      assert items[k + 1 + 1..] == rest[k + 1..];
      assert [items[0]] + (rest[..k] + rest[k + 1..]) == items[..k + 1] + items[k + 1 + 1..];
      assert TakenAt(items, RemoveFirst(items, item), item, k + 1);
    }
  }

  /** Where no item occurs twice, removing all of one takes out that one. */
  lemma {:induction false} RemoveAllTakes(items: seq<nat>, item: nat)
    requires item in items && Distinct(items)
    ensures TakenOut(items, RemoveAll(items, item), item)
    decreases |items|
  {
    var rest := items[1..];
    if items[0] == item {
      NothingRemoved(rest, item);
      assert items[..0] + items[1..] == items[1..];
      assert TakenAt(items, RemoveAll(items, item), item, 0);
    } else {
      RemoveAllTakes(rest, item);
      var k :| TakenAt(rest, RemoveAll(rest, item), item, k);
      assert items[..k + 1] == [items[0]] + rest[..k];
      assert items[k + 1 + 1..] == rest[k + 1..];
      assert [items[0]] + (rest[..k] + rest[k + 1..]) == items[..k + 1] + items[k + 1 + 1..];
      assert TakenAt(items, RemoveAll(items, item), item, k + 1);
    }
  }

  lemma {:induction false} NothingRemoved(items: seq<nat>, item: nat)
    requires item !in items
    ensures RemoveAll(items, item) == items
  {
    if items == [] {
    } else {
      NothingRemoved(items[1..], item);
    }
  }

  // ---------- movement and items ----------

  /** An actor is moved exactly into a zone, whoever owns either. */
  lemma MoveActorMeans(w: World, actor: nat, zone: nat)
    requires forall k :: k in w.entities ==> w.entities[k].id == k
    ensures var s := MoveActor(w, actor, zone);
      && (s.ok <==> actor in w.entities && w.entities[actor].kind == Actor
                    && zone in w.entities && w.entities[zone].kind == Zone)
      && (if s.ok then OnlyMoved(w.entities, s.world.entities, actor, zone) else s.world == w)
  {
  }

  /** An entity is moved to any other by scripts of its own owner alone. */
  lemma MoveEntityMeans(w: World, caller: nat, id: nat, place: nat)
    ensures var s := MoveEntity(w, caller, id, place);
      && (s.ok <==> caller in w.entities && id in w.entities && place in w.entities
                    && w.entities[caller].owner == w.entities[id].owner)
      && (if s.ok then OnlyMoved(w.entities, s.world.entities, id, place) else s.world == w)
  {
  }

  /** An item is taken exactly from where the caller is, if nobody carries it, and goes to the end of the inventory. */
  lemma TakeItemMeans(w: World, caller: nat, item: nat)
    ensures var s := TakeItem(w, caller, item);
      && (s.ok <==> caller in w.entities && item in w.entities && w.entities[item].kind == Item
                    && w.entities[item].location == w.entities[caller].location
                    && forall o :: !Holds(w.inventories, o, item))
      && (if s.ok then
            && OnlyMoved(w.entities, s.world.entities, item, caller)
            && OnlyInventory(w.inventories, s.world.inventories, caller, Items(w.inventories, caller) + [item])
          else s.world == w)
  {
    if TakeItem(w, caller, item).ok {
      assert forall o :: !Holds(w.inventories, o, item);
    } else if exists o :: o in w.inventories && item in w.inventories[o] {
      var o :| o in w.inventories && item in w.inventories[o];
      assert Holds(w.inventories, o, item);
    }
  }

  /** A carried item is dropped exactly where the caller is. */
  lemma DropItemMeans(w: World, caller: nat, item: nat)
    requires InventoriesOk(w.entities, w.inventories)
    ensures var s := DropItem(w, caller, item);
      && (s.ok <==> caller in w.entities && w.entities[caller].location.Some? && Holds(w.inventories, caller, item))
      && (if s.ok then
            && OnlyMoved(w.entities, s.world.entities, item, w.entities[caller].location.value)
            && caller in s.world.inventories
            && OnlyInventory(w.inventories, s.world.inventories, caller, s.world.inventories[caller])
            && TakenOut(w.inventories[caller], s.world.inventories[caller], item)
          else s.world == w)
  {
    if Holds(w.inventories, caller, item) {
      RemoveFirstTakes(w.inventories[caller], item);
    }
  }

  /** A carried item is handed exactly to another actor at the same place, at the end of its inventory. */
  lemma TransferItemMeans(w: World, caller: nat, item: nat, target: nat)
    requires InventoriesOk(w.entities, w.inventories)
    ensures var s := TransferItem(w, caller, item, target);
      && (s.ok <==> caller != target && caller in w.entities && target in w.entities
                    && w.entities[target].kind == Actor
                    && w.entities[target].location == w.entities[caller].location
                    && Holds(w.inventories, caller, item))
      && (if s.ok then
            && OnlyMoved(w.entities, s.world.entities, item, target)
            && s.world.inventories.Keys == w.inventories.Keys + {target} && caller in w.inventories
            && TakenOut(w.inventories[caller], s.world.inventories[caller], item)
            && s.world.inventories[target] == Items(w.inventories, target) + [item]
            && (forall o :: o in w.inventories && o != caller && o != target ==>
                  s.world.inventories[o] == w.inventories[o])
          else s.world == w)
  {
    if Holds(w.inventories, caller, item) {
      RemoveFirstTakes(w.inventories[caller], item);
    }
  }

  // ---------- data, entities, events, balances ----------

  /** One key of one entity's data is set, by scripts of its own owner alone. */
  lemma UpdateMeans(w: World, caller: nat, id: nat, key: string, value: Json)
    ensures var s := UpdateEntityData(w, caller, id, key, value);
      && (s.ok <==> caller in w.entities && id in w.entities && w.entities[caller].owner == w.entities[id].owner)
      && (if s.ok then
            && s.world.entities.Keys == w.entities.Keys
            && (forall k :: k in w.entities && k != id ==> s.world.entities[k] == w.entities[k])
            && s.world.entities[id] == w.entities[id].(data := s.world.entities[id].data)
            && s.world.entities[id].data.Keys == w.entities[id].data.Keys + {key}
            && s.world.entities[id].data[key] == value
            && (forall k :: k in w.entities[id].data && k != key ==>
                  s.world.entities[id].data[k] == w.entities[id].data[k])
          else s.world == w)
  {
  }

  /** What the three kind names stand for. */
  ghost predicate NamesKind(name: string, kind: Kind) {
    (name == "actor" && kind == Actor) || (name == "zone" && kind == Zone) || (name == "item" && kind == Item)
  }

  lemma KindNames(name: string)
    ensures match ParseKind(name)
      case Some(kind) => NamesKind(name, kind)
      case None => forall kind :: !NamesKind(name, kind)
  {
  }

  /** A spawned entity has a new id, the caller's owner, no contract, and the kind, place and data asked for. */
  lemma SpawnMeans(w: World, caller: nat, name: string, location: Option<nat>, data: Json)
    ensures var s := SpawnEntity(w, caller, name, location, data);
      && (s.ok <==> (exists kind :: NamesKind(name, kind)) && data.Obj? && caller in w.entities
                    && w.entities[caller].owner in w.accounts)
      && (if s.ok then
            var id := w.nextEntityId;
            && s.world.entities.Keys == w.entities.Keys + {id}
            && (forall k :: k in w.entities && k != id ==> s.world.entities[k] == w.entities[k])
            && s.world.entities[id].id == id && NamesKind(name, s.world.entities[id].kind)
            && s.world.entities[id].owner == w.entities[caller].owner && s.world.entities[id].contract.None?
            && s.world.entities[id].location == location && s.world.entities[id].data == data.fields
            && s.world.nextEntityId == id + 1 && s.world.head == w.head + 1
          else s.world == w)
  {
    KindNames(name);
    if ParseKind(name).Some? {
      assert NamesKind(name, ParseKind(name).value);
    }
  }

  /** The administrative creation likewise, for an existing owner and contract. */
  lemma CreateMeans(
    w: World, kind: Kind, owner: string, contract: Option<string>, location: Option<nat>, data: map<string, Json>)
    ensures var s := CreateEntity(w, kind, owner, contract, location, data);
      && (s.ok <==> owner in w.accounts && (contract.None? || contract.value in w.contracts))
      && (if s.ok then
            var id := w.nextEntityId;
            && s.world.entities.Keys == w.entities.Keys + {id}
            && (forall k :: k in w.entities && k != id ==> s.world.entities[k] == w.entities[k])
            && s.world.entities[id].id == id && s.world.entities[id].kind == kind
            && s.world.entities[id].owner == owner && s.world.entities[id].contract == contract
            && s.world.entities[id].location == location && s.world.entities[id].data == data
            && s.world.nextEntityId == id + 1 && s.world.head == w.head + 1
          else s.world == w)
  {
  }

  /** An emitted event has a kind of its own and an existing entity, if any. */
  lemma EmitMeans(w: World, kind: string, entityId: Option<nat>, data: Json)
    ensures var s := EmitEvent(w, kind, entityId, data);
      && (s.ok <==> kind !in ["", "entity_changed", "quest_progress_changed", "command_executed",
                              "transaction_executed"]
                    && (entityId.None? || entityId.value in w.entities))
      && (if s.ok then
            && |s.world.events| == |w.events| + 1 && s.world.events[..|w.events|] == w.events
            && s.world.nextEventId == w.nextEventId + 1
            && var e := s.world.events[|w.events|];
               && e.id == w.nextEventId && e.head == w.head && e.kind == kind && e.entityId == entityId
               && e.data == data
          else s.world == w)
  {
  }

  /** Only the owner's balance rises, by the amount, and never past 64 bits. */
  lemma CreditMeans(w: World, caller: nat, amount: nat)
    ensures var s := CreditBalance(w, caller, amount);
      && (s.ok <==> caller in w.entities && w.entities[caller].owner in w.accounts
                    && w.accounts[w.entities[caller].owner].balance + amount < 0x1_0000_0000_0000_0000)
      && (if s.ok then Richer(w, s.world, w.entities[caller].owner, amount) else s.world == w)
  {
  }

  ghost predicate Richer(w: World, after: World, name: string, amount: nat) {
    && after.accounts.Keys == w.accounts.Keys && name in w.accounts
    && after.accounts[name].balance == w.accounts[name].balance + amount
    && after.accounts[name].name == w.accounts[name].name
    && after.accounts[name].publicKey == w.accounts[name].publicKey
    && after.accounts[name].nonce == w.accounts[name].nonce
    && forall a :: a in w.accounts && a != name ==> after.accounts[a] == w.accounts[a]
  }

  // ---------- quests ----------

  /** What an actor's progress on a quest is. */
  ghost function StatusOf(w: World, actor: nat, quest: string): Option<QuestStatus> {
    var key := Decimal(actor) + ":" + quest;
    if key in w.progress then Some(w.progress[key].status) else None
  }

  /** A quest is accepted exactly once, at the place of its giver, after all its prerequisites. */
  lemma AcceptMeans(w: World, caller: nat, quest: string, giver: nat)
    ensures var s := AcceptQuest(w, caller, quest, giver);
      && (s.ok <==>
          && quest in w.quests && w.quests[quest].giver == giver
          && caller in w.entities && w.entities[caller].location.Some?
          && giver in w.entities && w.entities[giver].kind == Actor
          && w.entities[giver].location == w.entities[caller].location
          && StatusOf(w, caller, quest).None?
          && forall p :: p in w.quests[quest].prerequisites ==> StatusOf(w, caller, p) == Some(Completed))
      && (if s.ok then
            var key := Decimal(caller) + ":" + quest;
            && s.world.progress.Keys == w.progress.Keys + {key}
            && s.world.progress[key] == Progress(quest, caller, Accepted)
            && (forall k :: k in w.progress && k != key ==> s.world.progress[k] == w.progress[k])
          else s.world == w)
  {
    hide Decimal;
    forall p | quest in w.quests && p in w.quests[quest].prerequisites
      ensures Done(w, caller, p) <==> StatusOf(w, caller, p) == Some(Completed)
    {
    }
  }

  /** The item a search finds: the first carried one of that name. */
  ghost predicate FirstNamedAt(entities: map<nat, Entity>, items: seq<nat>, name: string, k: int) {
    && 0 <= k < |items| && Named(entities, items[k], name)
    && forall j :: 0 <= j < k ==> !Named(entities, items[j], name)
  }

  /** The search finds the first carried item that exists and has the name, and nothing exactly if there is none. */
  lemma {:induction false} FoundItem(entities: map<nat, Entity>, items: seq<nat>, name: string)
    ensures match FindNamed(entities, items, name)
      case Some(item) => exists k :: FirstNamedAt(entities, items, name, k) && items[k] == item
      case None => forall j :: 0 <= j < |items| ==> !Named(entities, items[j], name)
    decreases |items|
  {
    if items == [] {
    } else if Named(entities, items[0], name) {
      assert FirstNamedAt(entities, items, name, 0);
    } else {
      FoundItem(entities, items[1..], name);
      if FindNamed(entities, items[1..], name).Some? {
        var k :| FirstNamedAt(entities, items[1..], name, k)
          && items[1..][k] == FindNamed(entities, items[1..], name).value;
        assert forall j :: 1 <= j <= k ==> items[j] == items[1..][j - 1];
        assert FirstNamedAt(entities, items, name, k + 1);
      } else {
        assert forall j :: 1 <= j < |items| ==> items[j] == items[1..][j - 1];
      }
    }
  }

  /** The caller's place has this name. */
  ghost predicate StandsAt(w: World, caller: nat, name: string) {
    && caller in w.entities && w.entities[caller].location.Some?
    && Named(w.entities, w.entities[caller].location.value, name)
  }

  /** The caller carries an item of this name. */
  ghost predicate Carries(w: World, caller: nat, name: string) {
    exists item :: Holds(w.inventories, caller, item) && Named(w.entities, item, name)
  }

  /** A quest is completed exactly if it was accepted, at its zone, with its item, and if the reward can be paid. */
  lemma CompleteIff(w: World, caller: nat, quest: string)
    ensures CompleteQuest(w, caller, quest).ok <==>
      && quest in w.quests && StatusOf(w, caller, quest) == Some(Accepted)
      && StandsAt(w, caller, w.quests[quest].completionZone)
      && Carries(w, caller, w.quests[quest].requiredItem)
      && w.entities[caller].owner in w.accounts
      && w.accounts[w.entities[caller].owner].balance + w.quests[quest].reward < 0x1_0000_0000_0000_0000
    ensures !CompleteQuest(w, caller, quest).ok ==> CompleteQuest(w, caller, quest).world == w
  {
    hide Decimal;
    if quest in w.quests && caller in w.entities {
      var items, name := Items(w.inventories, caller), w.quests[quest].requiredItem;
      CarriesIff(w, caller, name);
    }
  }

  lemma CarriesIff(w: World, caller: nat, name: string)
    ensures Carries(w, caller, name) <==> FindNamed(w.entities, Items(w.inventories, caller), name).Some?
  {
    hide FindNamed;
    var items := Items(w.inventories, caller);
    FoundItem(w.entities, items, name);
    if FindNamed(w.entities, items, name).Some? {
      var k :| FirstNamedAt(w.entities, items, name, k);
      assert Holds(w.inventories, caller, items[k]);
    }
  }

  /** What a completed quest uses up: the first carried item of the required name if it consumes, else nothing. */
  ghost predicate UsesUp(w: World, after: World, caller: nat, quest: Quest) {
    if !quest.consumeItem then after.entities == w.entities && after.inventories == w.inventories
    else
      exists k :: FirstNamedAt(w.entities, Items(w.inventories, caller), quest.requiredItem, k)
        && UsesItem(w, after, caller, Items(w.inventories, caller)[k])
  }

  ghost predicate UsesItem(w: World, after: World, caller: nat, item: nat) {
    && after.entities.Keys == w.entities.Keys - {item}
    && (forall id :: id in after.entities ==> after.entities[id] == w.entities[id])
    && caller in w.inventories && caller in after.inventories
    && OnlyInventory(w.inventories, after.inventories, caller, after.inventories[caller])
    && TakenOut(w.inventories[caller], after.inventories[caller], item)
  }

  lemma ConsumeUses(w: World, after: World, caller: nat, item: nat)
    requires InventoriesOk(w.entities, w.inventories) && Holds(w.inventories, caller, item)
    requires after.entities == w.entities - {item}
    requires after.inventories == w.inventories[caller := RemoveAll(Items(w.inventories, caller), item)]
    ensures UsesItem(w, after, caller, item)
  {
    hide TakenOut, RemoveAll;
    RemoveAllTakes(w.inventories[caller], item);
  }

  lemma CompletionParts(w: World, caller: nat, quest: string)
    requires CompleteQuest(w, caller, quest).ok
    ensures var after, key := CompleteQuest(w, caller, quest).world, Decimal(caller) + ":" + quest;
      && Richer(w, after, w.entities[caller].owner, w.quests[quest].reward)
      && key in w.progress && after.progress == w.progress[key := w.progress[key].(status := Completed)]
    ensures var after, found := CompleteQuest(w, caller, quest).world,
        FindNamed(w.entities, Items(w.inventories, caller), w.quests[quest].requiredItem);
      && found.Some?
      && after.entities == (if w.quests[quest].consumeItem then w.entities - {found.value} else w.entities)
      && after.inventories == if w.quests[quest].consumeItem then
           w.inventories[caller := RemoveAll(Items(w.inventories, caller), found.value)] else w.inventories
  {
    hide Decimal, FindNamed, RemoveAll;
  }

  /** A completed quest pays its reward to the actor's owner, uses up its item, and is never paid again. */
  lemma CompleteMeans(w: World, caller: nat, quest: string)
    requires InventoriesOk(w.entities, w.inventories) && CompleteQuest(w, caller, quest).ok
    ensures var after, key := CompleteQuest(w, caller, quest).world, Decimal(caller) + ":" + quest;
      && Richer(w, after, w.entities[caller].owner, w.quests[quest].reward)
      && UsesUp(w, after, caller, w.quests[quest])
      && after.progress.Keys == w.progress.Keys && key in w.progress
      && after.progress[key] == w.progress[key].(status := Completed)
      && forall k :: k in w.progress && k != key ==> after.progress[k] == w.progress[k]
  {
    hide Decimal, FindNamed, CompleteQuest, Richer, UsesItem, InventoriesOk, RemoveAll;
    CompletionParts(w, caller, quest);
    CompleteIff(w, caller, quest);
    var after, q, items := CompleteQuest(w, caller, quest).world, w.quests[quest], Items(w.inventories, caller);
    FoundItem(w.entities, items, q.requiredItem);
    if q.consumeItem {
      var k :| FirstNamedAt(w.entities, items, q.requiredItem, k)
        && items[k] == FindNamed(w.entities, items, q.requiredItem).value;
      ConsumeUses(w, after, caller, items[k]);
    }
  }
}
