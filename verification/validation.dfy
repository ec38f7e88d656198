/** The validators of src/model.rs as they run: loops over the world's maps and event list. */
module Validation {
  import opened Common
  import opened Json
  import opened QuestGraph
  import opened Model

  // ---------- inventories ----------

  /** What has been established for the inventories of `seen`. */
  ghost predicate HeldBy(
    entities: map<nat, Entity>, inventories: map<nat, seq<nat>>, seen: set<nat>, heldBy: map<nat, nat>)
  {
    && (forall o :: o in seen && o in inventories ==> IsA(entities, o, Actor) && Distinct(inventories[o]))
    && (forall o: nat, i: nat {:trigger Holds(inventories, o, i)} :: o in seen && Holds(inventories, o, i) ==>
      IsA(entities, i, Item) && entities[i].location == Some(o))
    && (forall i :: i in heldBy ==> heldBy[i] in seen && Holds(inventories, heldBy[i], i))
    && (forall o: nat, i: nat {:trigger Holds(inventories, o, i)} :: o in seen && Holds(inventories, o, i) ==>
      i in heldBy && heldBy[i] == o)
  }

  /** Checks one inventory; `heldBy` gains its items. */
  method CheckInventory(entities: map<nat, Entity>, owner: nat, items: seq<nat>, heldBy: map<nat, nat>)
    returns (ok: bool, heldBy': map<nat, nat>)
    requires forall i :: i in heldBy ==> i in entities && entities[i].location == Some(heldBy[i]) && heldBy[i] != owner
    ensures ok <==>
      && IsA(entities, owner, Actor) && Distinct(items)
      && forall i :: i in items ==> IsA(entities, i, Item) && entities[i].location == Some(owner)
    ensures ok ==> heldBy'.Keys == heldBy.Keys + Elements(items)
    ensures ok ==> forall i :: i in heldBy' ==> heldBy'[i] == if i in items then owner else heldBy[i]
  {
    heldBy' := heldBy;
    if !IsA(entities, owner, Actor) {
      return false, heldBy';
    }
    var ownerItems: set<nat> := {};
    var n := 0;
    while n < |items|
      invariant 0 <= n <= |items|
      invariant ownerItems == Elements(items[..n]) && Distinct(items[..n])
      invariant forall i :: i in items[..n] ==> IsA(entities, i, Item) && entities[i].location == Some(owner)
      invariant heldBy'.Keys == heldBy.Keys + ownerItems
      invariant forall i :: i in heldBy' ==> heldBy'[i] == if i in items[..n] then owner else heldBy[i]
    {
      var item := items[n];
      if item in ownerItems {
        var j :| 0 <= j < n && items[j] == item;
        return false, heldBy';
      }
      assert item in items;
      if !IsA(entities, item, Item) {
        return false, heldBy';
      }
      if item in heldBy' {
        assert item in heldBy;
        return false, heldBy';
      }
      if entities[item].location != Some(owner) {
        return false, heldBy';
      }
      heldBy' := heldBy'[item := owner];
      ownerItems := ownerItems + {item};
      assert items[..n + 1] == items[..n] + [item];
      n := n + 1;
    }
    assert items[..n] == items;
    ok := true;
  }

  /**
   Accepts exactly the worlds whose inventories and item locations agree in both
   directions. `e.id` names the entity stored under that key, as the reference checks
   that run first guarantee.
   */
  method ValidateInventories(entities: map<nat, Entity>, inventories: map<nat, seq<nat>>) returns (ok: bool)
    requires forall k :: k in entities ==> entities[k].id == k
    ensures ok <==> InventoriesOk(entities, inventories)
  {
    var heldBy: map<nat, nat> := map[];
    var owners := inventories.Keys;
    while owners != {}
      invariant owners <= inventories.Keys
      invariant HeldBy(entities, inventories, inventories.Keys - owners, heldBy)
      decreases |owners|
    {
      var owner :| owner in owners;
      var seen := inventories.Keys - owners;
      forall i | i in heldBy
        ensures i in entities && entities[i].location == Some(heldBy[i]) && heldBy[i] != owner
      {
        assert Holds(inventories, heldBy[i], i);
      }
      var fits, next := CheckInventory(entities, owner, inventories[owner], heldBy);
      assert forall i :: i in inventories[owner] <==> Holds(inventories, owner, i);
      if !fits {
        return false;
      }
      ghost var seen' := seen + {owner};
      forall o: nat, i: nat | o in seen' && Holds(inventories, o, i)
        ensures i in next && next[i] == o
      {
        if o == owner {
          assert i in Elements(inventories[owner]);
        }
      }
      owners := owners - {owner};
      assert inventories.Keys - owners == seen';
      heldBy := next;
    }
    assert inventories.Keys - owners == inventories.Keys;
    var items := entities.Keys;
    while items != {}
      invariant items <= entities.Keys
      invariant forall i :: i in entities && i !in items && CarriedItem(entities, entities[i]) ==>
        Holds(inventories, entities[i].location.value, i)
      decreases |items|
    {
      var i :| i in items;
      var e := entities[i];
      if CarriedItem(entities, e) && !(e.id in heldBy && heldBy[e.id] == e.location.value) {
        assert !Holds(inventories, e.location.value, i);
        return false;
      }
      items := items - {i};
    }
    ok := true;
  }

  // ---------- events ----------

  /** `ids` are the transaction ids named by the `transaction_executed` events. */
  ghost predicate TxIds(events: seq<Event>, ids: set<string>) {
    && (forall i :: 0 <= i < |events| && events[i].kind == TX_EXECUTED ==>
      GetStr(events[i].data, "tx_id").Some? && GetStr(events[i].data, "tx_id").value in ids)
    && (forall id :: id in ids ==> exists i :: 0 <= i < |events| && Names(events[i], id))
  }

  ghost predicate Names(e: Event, id: string) {
    e.kind == TX_EXECUTED && GetStr(e.data, "tx_id") == Some(id)
  }

  /** The set of seen ids decides whether a further event repeats a transaction. */
  lemma RepeatedTx(events: seq<Event>, ids: set<string>, e: Event)
    requires TxIds(events, ids)
    requires e.kind == TX_EXECUTED ==> GetStr(e.data, "tx_id").Some?
    ensures (exists i :: 0 <= i < |events| && SameTx(events[i], e)) <==>
      e.kind == TX_EXECUTED && GetStr(e.data, "tx_id").value in ids
    ensures TxIds(events + [e], if e.kind == TX_EXECUTED then ids + {GetStr(e.data, "tx_id").value} else ids)
  {
    var all := events + [e];
    assert forall i :: 0 <= i < |events| ==> all[i] == events[i];
    assert all[|events|] == e;
    if e.kind == TX_EXECUTED {
      var id := GetStr(e.data, "tx_id").value;
      assert Names(all[|events|], id);
      if id in ids {
        var i :| 0 <= i < |events| && Names(events[i], id);
        assert SameTx(events[i], e);
      }
    }
    forall id | id in ids
      ensures exists i :: 0 <= i < |all| && Names(all[i], id)
    {
      var i :| 0 <= i < |events| && Names(events[i], id);
      assert Names(all[i], id);
    }
  }

  lemma BadPrefix(events: seq<Event>, n: nat, receipts: map<string, Receipt>, head: nat)
    requires n <= |events| && !EventLogOk(events[..n], receipts, head)
    ensures !EventLogOk(events, receipts, head)
  {
    assert forall i :: 0 <= i < n ==> events[..n][i] == events[i];
  }

  lemma EmptyLog(receipts: map<string, Receipt>, head: nat)
    ensures EventLogOk([], receipts, head) && TxIds([], {})
  {
  }

  lemma LastIdIsHighest(events: seq<Event>, receipts: map<string, Receipt>, head: nat, next: nat)
    requires EventLogOk(events, receipts, head)
    ensures NextAbove(events, next) <==> next != 0 && next > LastId(events)
  {
    hide EventShapeOk, SameTx;
  }

  lemma ShapedNames(e: Event, receipts: map<string, Receipt>)
    requires EventShapeOk(e, receipts)
    ensures e.kind == TX_EXECUTED ==> GetStr(e.data, "tx_id").Some?
  {
  }

  /** One pass over the log with the previous id and the set of seen transaction ids. */
  method ValidateEvents(w: World) returns (ok: bool)
    ensures ok <==> EventsOk(w.events, w.receipts, w.head, w.nextEventId)
  {
    hide EventShapeOk, EventLogOk, TxIds, SameTx;
    EmptyLog(w.receipts, w.head);
    var previousId := 0;
    var transactionEvents: set<string> := {};
    var n := 0;
    while n < |w.events|
      invariant 0 <= n <= |w.events|
      invariant previousId == LastId(w.events[..n])
      invariant EventLogOk(w.events[..n], w.receipts, w.head)
      invariant TxIds(w.events[..n], transactionEvents)
    {
      var e := w.events[n];
      assert w.events[..n + 1] == w.events[..n] + [e];
      LogAppend(w.events[..n], e, w.receipts, w.head);
      if e.id == 0 || e.id <= previousId || e.head > w.head || !EventShapeOk(e, w.receipts) {
        BadPrefix(w.events, n + 1, w.receipts, w.head);
        return false;
      }
      ShapedNames(e, w.receipts);
      RepeatedTx(w.events[..n], transactionEvents, e);
      if e.kind == TX_EXECUTED {
        var txId := GetStr(e.data, "tx_id").value;
        if txId in transactionEvents {
          BadPrefix(w.events, n + 1, w.receipts, w.head);
          return false;
        }
        transactionEvents := transactionEvents + {txId};
      }
      previousId := e.id;
      n := n + 1;
    }
    assert w.events[..n] == w.events;
    LastIdIsHighest(w.events, w.receipts, w.head, w.nextEventId);
    ok := w.nextEventId != 0 && w.nextEventId > previousId;
  }

  // ---------- quests and the whole world ----------

  method CheckQuest(entities: map<nat, Entity>, quests: map<string, Quest>, key: string) returns (ok: bool)
    requires key in quests
    ensures ok <==> QuestOk(entities, quests, key)
  {
    var quest := quests[key];
    if key != quest.id || key == "" || !IsA(entities, quest.giver, Actor) {
      return false;
    }
    var listed := quest.prerequisites;
    assert Prerequisites(quests)[key] == listed;
    var seen: set<string> := {};
    var n := 0;
    while n < |listed|
      invariant 0 <= n <= |listed|
      invariant seen == Elements(listed[..n]) && Distinct(listed[..n])
      invariant key !in seen && seen <= quests.Keys
    {
      var p := listed[n];
      assert p in listed;
      if p == key {
        return false;
      }
      if p in seen {
        ghost var j :| 0 <= j < n && listed[j] == p;
        return false;
      }
      if p !in quests {
        assert p in Elements(listed);
        return false;
      }
      seen := seen + {p};
      assert listed[..n + 1] == listed[..n] + [p];
      n := n + 1;
    }
    assert listed[..n] == listed;
    assert key !in Elements(listed);
    ok := true;
  }

  method ValidateQuests(w: World) returns (ok: bool)
    ensures ok <==> QuestsOk(w.entities, w.quests)
  {
    var todo := w.quests.Keys;
    while todo != {}
      invariant todo <= w.quests.Keys
      invariant forall q {:trigger QuestOk(w.entities, w.quests, q)} ::
        q in w.quests && q !in todo ==> QuestOk(w.entities, w.quests, q)
      decreases |todo|
    {
      var q :| q in todo;
      var fits := CheckQuest(w.entities, w.quests, q);
      if !fits {
        return false;
      }
      todo := todo - {q};
    }
    var g := Prerequisites(w.quests);
    forall q | q in g
      ensures Listed(g, q)
    {
      assert QuestOk(w.entities, w.quests, q);
    }
    ok := TopologicalSort(g);
  }

  /** `WorldState::validate`: the gate in front of every save. */
  method Validate(w: World, blake3: string -> string) returns (ok: bool)
    ensures ok <==> Valid(w, blake3)
  {
    if !(AccountsOk(w.accounts) && ContractsOk(w.contracts, blake3)
         && EntitiesOk(w.accounts, w.contracts, w.entities, w.nextEntityId)
         && ProgressOk(w.entities, w.quests, w.progress) && ReceiptsOk(w.accounts, w.receipts)) {
      return false;
    }
    var events := ValidateEvents(w);
    if !events || !LocationsOk(w.entities) {
      return false;
    }
    var quests := ValidateQuests(w);
    if !quests {
      return false;
    }
    ok := ValidateInventories(w.entities, w.inventories);
  }
}
